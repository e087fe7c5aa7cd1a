/**
 * The unspent-only view of an address: keep the outputs nobody spent, let
 * the transaction index backfill their `scriptPubKey`, turn them into
 * unspent-output records and drop those still without a `scriptPubKey`.
 */
module Unspent {
  import opened TxRecords

  /** An unspent output as listed for the address; `amountSat` is the value before display scaling. */
  datatype UnspentOutput = UnspentOutput(
    address: string,
    txid: string,
    vout: int,
    ts: int,
    scriptPubKey: string,
    amountSat: int,
    confirmations: int,
    confirmationsFromCache: bool)

  /** `txOut.filter(x => !x.spentTxId)` */
  function KeepUnspent(txOut: seq<TxOutputRecord>): (r: seq<TxOutputRecord>)
    ensures |r| <= |txOut|
    ensures forall x :: x in r <==> x in txOut && !HasSpend(x)
  {
    if txOut == [] then []
    else (if HasSpend(txOut[0]) then [] else [txOut[0]]) + KeepUnspent(txOut[1..])
  }

  /** The records as they stand after `fillScriptPubKey`; `scriptOf` gives what the index filled in. */
  function Backfill(txOut: seq<TxOutputRecord>, scriptOf: TxOutputRecord -> string): (r: seq<TxOutputRecord>)
    ensures |r| == |txOut|
    ensures forall k | 0 <= k < |r| :: r[k] == txOut[k].(scriptPubKey := scriptOf(txOut[k]))
  {
    if txOut == [] then []
    else [txOut[0].(scriptPubKey := scriptOf(txOut[0]))] + Backfill(txOut[1..], scriptOf)
  }

  /** The map callback; a confirmation count served from the cache is replaced by `safeConfirmations`. */
  function ToUnspentOutput(addrStr: string, x: TxOutputRecord, safeConfirmations: int): UnspentOutput {
    UnspentOutput(addrStr, x.txid, x.index, x.ts, x.scriptPubKey, x.valueSat,
                  if x.isConfirmedCached then safeConfirmations else x.confirmations,
                  x.isConfirmedCached)
  }

  function ToUnspentOutputs(addrStr: string, txOut: seq<TxOutputRecord>, safeConfirmations: int): (r: seq<UnspentOutput>)
    ensures |r| == |txOut|
    ensures forall k | 0 <= k < |r| :: r[k] == ToUnspentOutput(addrStr, txOut[k], safeConfirmations)
  {
    if txOut == [] then []
    else [ToUnspentOutput(addrStr, txOut[0], safeConfirmations)] + ToUnspentOutputs(addrStr, txOut[1..], safeConfirmations)
  }

  /** `_.filter(list, 'scriptPubKey')`: keep the entries whose `scriptPubKey` is truthy. */
  function DropMissingScript(us: seq<UnspentOutput>): (r: seq<UnspentOutput>)
    ensures |r| <= |us|
    ensures forall u :: u in r <==> u in us && u.scriptPubKey != ""
  {
    if us == [] then []
    else (if us[0].scriptPubKey == "" then [] else [us[0]]) + DropMissingScript(us[1..])
  }

  /** The unspent branch of `update`, stage by stage as the source runs it. */
  function BuildUnspent(addrStr: string, txOut: seq<TxOutputRecord>, scriptOf: TxOutputRecord -> string,
                        safeConfirmations: int): (r: seq<UnspentOutput>)
    ensures |r| <= |txOut|
    ensures forall u | u in r :: u.address == addrStr && u.scriptPubKey != ""
  {
    DropMissingScript(ToUnspentOutputs(addrStr, Backfill(KeepUnspent(txOut), scriptOf), safeConfirmations))
  }

  // ---------------------------------------------------------------------
  // Reference: one pass that lists each eligible record directly.

  /** An output is listed when nobody spent it and it has a `scriptPubKey` after the backfill. */
  predicate Listed(x: TxOutputRecord, scriptOf: TxOutputRecord -> string) {
    !HasSpend(x) && scriptOf(x) != ""
  }

  /** The listing of one output, field by field. */
  function Listing(addrStr: string, x: TxOutputRecord, scriptOf: TxOutputRecord -> string,
                   safeConfirmations: int): UnspentOutput
  {
    UnspentOutput(
      address := addrStr,
      txid := x.txid,
      vout := x.index,
      ts := x.ts,
      scriptPubKey := scriptOf(x),
      amountSat := x.valueSat,
      confirmations := if x.isConfirmedCached then safeConfirmations else x.confirmations,
      confirmationsFromCache := x.isConfirmedCached)
  }

  function UnspentListing(addrStr: string, txOut: seq<TxOutputRecord>, scriptOf: TxOutputRecord -> string,
                          safeConfirmations: int): seq<UnspentOutput>
  {
    if txOut == [] then []
    else
      var head := if Listed(txOut[0], scriptOf) then [Listing(addrStr, txOut[0], scriptOf, safeConfirmations)] else [];
      head + UnspentListing(addrStr, txOut[1..], scriptOf, safeConfirmations)
  }

  // ---------------------------------------------------------------------
  // Properties.

  /** The filter/backfill/map/filter pipeline lists exactly the eligible records, in input order. */
  lemma {:induction false} BuildUnspentInOrder(addrStr: string, txOut: seq<TxOutputRecord>,
                                               scriptOf: TxOutputRecord -> string, safeConfirmations: int)
    ensures BuildUnspent(addrStr, txOut, scriptOf, safeConfirmations)
         == UnspentListing(addrStr, txOut, scriptOf, safeConfirmations)
  {
    if txOut != [] {
      var x, rest := txOut[0], txOut[1..];
      BuildUnspentInOrder(addrStr, rest, scriptOf, safeConfirmations);
      var kept := KeepUnspent(rest);
      if HasSpend(x) {
        assert KeepUnspent(txOut) == kept;
      } else {
        var y := x.(scriptPubKey := scriptOf(x));
        assert KeepUnspent(txOut) == [x] + kept;
        assert ([x] + kept)[1..] == kept;
        assert Backfill([x] + kept, scriptOf) == [y] + Backfill(kept, scriptOf);
        var filled := Backfill(kept, scriptOf);
        assert ([y] + filled)[1..] == filled;
        var us := ToUnspentOutputs(addrStr, filled, safeConfirmations);
        var u := ToUnspentOutput(addrStr, y, safeConfirmations);
        assert ToUnspentOutputs(addrStr, [y] + filled, safeConfirmations) == [u] + us;
        assert ([u] + us)[1..] == us;
        assert u == Listing(addrStr, x, scriptOf, safeConfirmations);
      }
    }
  }

  /** Membership in the reference listing, both directions. */
  lemma {:induction false} UnspentListingMembers(addrStr: string, txOut: seq<TxOutputRecord>,
                                                 scriptOf: TxOutputRecord -> string, safeConfirmations: int,
                                                 u: UnspentOutput)
    ensures u in UnspentListing(addrStr, txOut, scriptOf, safeConfirmations)
        <==> exists x :: x in txOut && Listed(x, scriptOf) && u == Listing(addrStr, x, scriptOf, safeConfirmations)
  {
    if txOut != [] {
      UnspentListingMembers(addrStr, txOut[1..], scriptOf, safeConfirmations, u);
      assert forall x :: x in txOut <==> x == txOut[0] || x in txOut[1..];
    }
  }

  /**
   * An unspent output is listed exactly when some fetched record has no
   * spending transaction and a `scriptPubKey` after the backfill; it then
   * carries the address, the record's index as `vout`, and the safe
   * confirmation count when the record's count came from the cache.
   */
  lemma BuildUnspentMembers(addrStr: string, txOut: seq<TxOutputRecord>, scriptOf: TxOutputRecord -> string,
                            safeConfirmations: int, u: UnspentOutput)
    ensures u in BuildUnspent(addrStr, txOut, scriptOf, safeConfirmations)
        <==> exists x :: x in txOut && !HasSpend(x) && scriptOf(x) != ""
               && u == UnspentOutput(addrStr, x.txid, x.index, x.ts, scriptOf(x), x.valueSat,
                                     if x.isConfirmedCached then safeConfirmations else x.confirmations,
                                     x.isConfirmedCached)
  {
    BuildUnspentInOrder(addrStr, txOut, scriptOf, safeConfirmations);
    UnspentListingMembers(addrStr, txOut, scriptOf, safeConfirmations, u);
  }
}

/**
 * The address object: its counters, dedup set and result lists, the fold
 * step and the fold that update them in place, the `update` pass with its
 * collaborators passed in, and the `getObj` snapshot.
 */
module Address {
  import opened Wrappers
  import opened TxRecords
  import opened Accumulator
  import opened Unspent

  /**
   * The options of `update`. `ignoreCache` and `txLimit` may be absent;
   * `includeTxInfo` and `onlyUnspent` are read for their truthiness only.
   */
  datatype UpdateOptions = UpdateOptions(
    ignoreCache: Option<bool>,
    txLimit: Option<int>,
    includeTxInfo: bool,
    onlyUnspent: bool)

  /** The process-wide settings `update` reads. */
  datatype Config = Config(ignoreCache: bool, safeConfirmations: int)

  /** What a collaborator's callback delivers: a value, or the error it passed. */
  datatype DbResult<T> = DbOk(value: T) | DbErr(error: string)

  /** What `update` hands to `next`: nothing, or an error. */
  datatype Outcome = Done | Failed(error: string)

  /** The normalized address object `getObj` returns; display-scale fields are not modelled. */
  datatype AddressView = AddressView(
    addrStr: string,
    balanceSat: int,
    totalReceivedSat: int,
    totalSentSat: int,
    unconfirmedBalanceSat: int,
    unconfirmedTxApperances: nat,
    txApperances: nat,
    transactions: seq<TxEntry>)

  /** An `ignoreCache` the caller did not give is taken from the configuration. */
  function WithDefaults(opts: UpdateOptions, cfg: Config): (o: UpdateOptions)
    ensures o.ignoreCache.Some?
    ensures opts.ignoreCache.Some? ==> o.ignoreCache == opts.ignoreCache
    ensures opts.ignoreCache.None? ==> o.ignoreCache == Some(cfg.ignoreCache)
    ensures o.txLimit == opts.txLimit && o.includeTxInfo == opts.includeTxInfo && o.onlyUnspent == opts.onlyUnspent
  {
    if opts.ignoreCache.None? then opts.(ignoreCache := Some(cfg.ignoreCache)) else opts
  }

  /** A history list is collected unless `txLimit` is exactly 0. */
  function TxListFor(opts: UpdateOptions): (l: Option<seq<TxEntry>>)
    ensures l.None? <==> opts.txLimit == Some(0)
    ensures l.Some? ==> l.value == []
  {
    if opts.txLimit == Some(0) then None else Some([])
  }

  /**
   * The fetch, annotate and cache stages in their strict order; the first
   * error ends the pass. Success carries the annotated records.
   */
  function Stages(addrStr: string, opts: UpdateOptions,
                  fromAddr: (string, UpdateOptions) -> DbResult<seq<TxOutputRecord>>,
                  fillConfirmations: seq<TxOutputRecord> -> DbResult<seq<TxOutputRecord>>,
                  cacheConfirmations: seq<TxOutputRecord> -> Option<string>): (r: DbResult<seq<TxOutputRecord>>)
    ensures var fetched := fromAddr(addrStr, opts);
      && (fetched.DbErr? ==> r == DbErr(fetched.error))
      && (fetched.DbOk? ==>
           var filled := fillConfirmations(fetched.value);
           && (filled.DbErr? ==> r == DbErr(filled.error))
           && (filled.DbOk? ==>
                var cached := cacheConfirmations(filled.value);
                && (cached.Some? ==> r == DbErr(cached.value))
                && (cached.None? ==> r == DbOk(filled.value))))
  {
    match fromAddr(addrStr, opts)
    case DbErr(e) => DbErr(e)
    case DbOk(txOut) =>
      match fillConfirmations(txOut)
      case DbErr(e) => DbErr(e)
      case DbOk(annotated) =>
        match cacheConfirmations(annotated)
        case Some(e) => DbErr(e)
        case None => DbOk(annotated)
  }

  class AddressState {
    var addrStr: string
    var balanceSat: int
    var totalReceivedSat: int
    var totalSentSat: int
    var unconfirmedBalanceSat: int
    var txApperances: nat
    var unconfirmedTxApperances: nat
    var seen: set<string>
    var transactions: seq<TxEntry>
    var unspent: seq<UnspentOutput>

    /** The object invariant: what was received is held or sent. */
    ghost predicate Valid()
      reads this
    {
      totalReceivedSat == balanceSat + totalSentSat
    }

    /** The counters and the dedup set as a value. */
    function AsLedger(): Ledger
      reads this
    {
      Ledger(balanceSat, totalReceivedSat, totalSentSat, unconfirmedBalanceSat,
             txApperances, unconfirmedTxApperances, seen)
    }

    /** A fresh address: every counter 0, nothing seen, no lists. The address comes validated. */
    constructor (addrStr: string)
      ensures Valid()
      ensures this.addrStr == addrStr && AsLedger() == EmptyLedger
      ensures transactions == [] && unspent == []
    {
      this.addrStr := addrStr;
      balanceSat, totalReceivedSat, totalSentSat := 0, 0, 0;
      unconfirmedBalanceSat := 0;
      txApperances, unconfirmedTxApperances := 0, 0;
      seen := {};
      transactions, unspent := [], [];
    }

    /**
     * `_addTxItem`: mark the record's ids seen and push their entries, then
     * count the record into the counters.
     */
    method AddTxItem(item: TxOutputRecord, txList: Option<seq<TxEntry>>, includeInfo: bool)
      returns (txList': Option<seq<TxEntry>>)
      requires Valid()
      modifies this
      ensures Valid()
      ensures Acc(AsLedger(), txList') == ApplyItem(Acc(old(AsLedger()), txList), item, includeInfo)
      ensures addrStr == old(addrStr) && transactions == old(transactions) && unspent == old(unspent)
    {
      var add, addSpend;
      txList', add, addSpend := MarkItem(item, txList, includeInfo);
      CreditItem(item, add, addSpend);
    }

    /** The founding and spending halves of `_addTxItem`'s dedup. */
    method MarkItem(item: TxOutputRecord, txList: Option<seq<TxEntry>>, includeInfo: bool)
      returns (txList': Option<seq<TxEntry>>, add: nat, addSpend: nat)
      requires Valid()
      modifies this`seen
      ensures Valid()
      ensures Marked(seen, txList', add, addSpend) == MarkSeen(Acc(old(AsLedger()), txList), item, includeInfo)
    {
      add, addSpend := 0, 0;
      txList' := txList;
      // founding transaction
      if item.txid !in seen {
        seen := seen + {item.txid};
        add := 1;
        txList' := Push(txList', FoundingEntry(item), includeInfo);
      }
      // spending transaction
      if HasSpend(item) && item.spentTxId !in seen {
        txList' := Push(txList', SpendingEntry(item), includeInfo);
        seen := seen + {item.spentTxId};
        addSpend := 1;
      }
    }

    /** The four-way branch of `_addTxItem` on the confirmation and spending state. */
    method CreditItem(item: TxOutputRecord, add: nat, addSpend: nat)
      requires Valid()
      modifies this`balanceSat, this`totalReceivedSat, this`totalSentSat, this`unconfirmedBalanceSat,
               this`txApperances, this`unconfirmedTxApperances
      ensures Valid()
      ensures AsLedger() == Credit(old(AsLedger()), item, add, addSpend)
    {
      var v := item.valueSat;
      if item.isConfirmed {
        txApperances := txApperances + add;
        totalReceivedSat := totalReceivedSat + v;
        if !HasSpend(item) {
          balanceSat := balanceSat + v;
        } else if !item.spentIsConfirmed {
          balanceSat := balanceSat + v;
          unconfirmedBalanceSat := unconfirmedBalanceSat - v;
          unconfirmedTxApperances := unconfirmedTxApperances + addSpend;
        } else {
          totalSentSat := totalSentSat + v;
          txApperances := txApperances + addSpend;
        }
      } else {
        unconfirmedBalanceSat := unconfirmedBalanceSat + v;
        unconfirmedTxApperances := unconfirmedTxApperances + add;
      }
    }

    /** The `forEach` of `update`: every record through `AddTxItem`, in input order. */
    method FoldAll(txOut: seq<TxOutputRecord>, txList: Option<seq<TxEntry>>, includeInfo: bool)
      returns (txList': Option<seq<TxEntry>>)
      requires Valid()
      modifies this
      ensures Valid()
      ensures Acc(AsLedger(), txList') == FoldItems(Acc(old(AsLedger()), txList), txOut, includeInfo)
      ensures addrStr == old(addrStr) && transactions == old(transactions) && unspent == old(unspent)
    {
      ghost var start := Acc(AsLedger(), txList);
      txList' := txList;
      var i := 0;
      while i < |txOut|
        invariant 0 <= i <= |txOut|
        invariant Valid()
        invariant Acc(AsLedger(), txList') == FoldItems(start, txOut[..i], includeInfo)
        invariant addrStr == old(addrStr) && transactions == old(transactions) && unspent == old(unspent)
      {
        assert txOut[..i + 1][..i] == txOut[..i];
        assert FoldItems(start, txOut[..i + 1], includeInfo)
            == ApplyItem(FoldItems(start, txOut[..i], includeInfo), txOut[i], includeInfo);
        txList' := AddTxItem(txOut[i], txList', includeInfo);
        i := i + 1;
      }
      assert txOut[..i] == txOut;
    }

    /**
     * `update`: unless the address is empty, fetch, annotate and cache the
     * records, then build either the unspent list or the full ledger.
     * `fillScriptPubKey` gives the `scriptPubKey` the index backfills for a
     * record; its callback's error is ignored, as in the source.
     */
    method Update(opts: UpdateOptions, cfg: Config,
                  fromAddr: (string, UpdateOptions) -> DbResult<seq<TxOutputRecord>>,
                  fillConfirmations: seq<TxOutputRecord> -> DbResult<seq<TxOutputRecord>>,
                  cacheConfirmations: seq<TxOutputRecord> -> Option<string>,
                  fillScriptPubKey: TxOutputRecord -> string)
      returns (outcome: Outcome)
      requires Valid()
      modifies this
      ensures Valid()
      ensures addrStr == old(addrStr)
      ensures old(addrStr) == "" ==> outcome == Done && unchanged(this)
      ensures old(addrStr) != "" ==>
        var o := WithDefaults(opts, cfg);
        match Stages(addrStr, o, fromAddr, fillConfirmations, cacheConfirmations)
        case DbErr(e) =>
          outcome == Failed(e) && unchanged(this)
        case DbOk(txOut) =>
          && outcome == Done
          && (o.onlyUnspent ==>
               && unspent == BuildUnspent(addrStr, txOut, fillScriptPubKey, cfg.safeConfirmations)
               && AsLedger() == old(AsLedger()) && transactions == old(transactions))
          && (!o.onlyUnspent ==>
               var r := FoldItems(Acc(old(AsLedger()), TxListFor(o)), txOut, o.includeTxInfo);
               && AsLedger() == r.ledger
               && transactions == (if r.txList.Some? then r.txList.value else old(transactions))
               && unspent == old(unspent))
    {
      if addrStr == "" {
        return Done;
      }
      var o := WithDefaults(opts, cfg);
      var txList := TxListFor(o);

      var fetched := fromAddr(addrStr, o);
      if fetched.DbErr? {
        return Failed(fetched.error);
      }
      var filled := fillConfirmations(fetched.value);
      if filled.DbErr? {
        return Failed(filled.error);
      }
      var txOut := filled.value;
      var cacheError := cacheConfirmations(txOut);
      if cacheError.Some? {
        return Failed(cacheError.value);
      }

      if o.onlyUnspent {
        unspent := BuildUnspent(addrStr, txOut, fillScriptPubKey, cfg.safeConfirmations);
      } else {
        txList := FoldAll(txOut, txList, o.includeTxInfo);
        if txList.Some? {
          transactions := txList.value;
        }
      }
      return Done;
    }

    /** `getObj`: a read-only snapshot of the address. */
    function GetObj(): (v: AddressView)
      reads this
      ensures v.addrStr == addrStr && v.transactions == transactions
      ensures v.balanceSat == balanceSat && v.totalReceivedSat == totalReceivedSat
      ensures v.totalSentSat == totalSentSat && v.unconfirmedBalanceSat == unconfirmedBalanceSat
      ensures v.txApperances == txApperances && v.unconfirmedTxApperances == unconfirmedTxApperances
      ensures Valid() ==> v.totalReceivedSat == v.balanceSat + v.totalSentSat
    {
      AddressView(addrStr, balanceSat, totalReceivedSat, totalSentSat, unconfirmedBalanceSat,
                  unconfirmedTxApperances, txApperances, transactions)
    }
  }
}

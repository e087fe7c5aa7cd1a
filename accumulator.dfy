/**
 * The dedup-and-accumulate fold of an address ledger, on values: one step
 * per transaction-output record (`_addTxItem`) and the in-order fold of a
 * whole fetched record sequence (the `forEach` of `update`).
 */
module Accumulator {
  import opened Wrappers
  import opened TxRecords

  /** The counters of an address and the ids already counted in this instance. */
  datatype Ledger = Ledger(
    balanceSat: int,
    totalReceivedSat: int,
    totalSentSat: int,
    unconfirmedBalanceSat: int,
    txApperances: nat,
    unconfirmedTxApperances: nat,
    seen: set<string>)
  {
    /** What was received is either still held or has been sent on. */
    predicate Conserved() {
      totalReceivedSat == balanceSat + totalSentSat
    }

    /** How far the ledger is from `Conserved`; every step keeps it. */
    function Imbalance(): int {
      totalReceivedSat - balanceSat - totalSentSat
    }

    function Appearances(): nat {
      txApperances + unconfirmedTxApperances
    }
  }

  /** The state of a freshly constructed address. */
  const EmptyLedger := Ledger(0, 0, 0, 0, 0, 0, {})

  /** What one fold step carries: the ledger and the history list (`null` is `None`). */
  datatype Acc = Acc(ledger: Ledger, txList: Option<seq<TxEntry>>)

  /** What `addTx` pushes: the full summary with `includeInfo`, else its bare id. */
  function Shown(data: TxEntry, includeInfo: bool): TxEntry {
    if includeInfo then data else TxId(data.id)
  }

  /** `addTx`: nothing without a list, else one more entry at its end. */
  function Push(txList: Option<seq<TxEntry>>, data: TxEntry, includeInfo: bool): (r: Option<seq<TxEntry>>)
    ensures r.None? <==> txList.None?
    ensures txList.Some? ==>
      var n := |txList.value|;
      && |r.value| == n + 1
      && txList.value <= r.value
      && r.value[n].id == data.id
      && (includeInfo ==> r.value[n] == data)
      && (!includeInfo ==> r.value[n] == TxId(data.id))
  {
    match txList
    case None => None
    case Some(l) => Some(l + [Shown(data, includeInfo)])
  }

  /** The four reachable combinations of confirmation and spending state. */
  predicate UnconfirmedReceive(r: TxOutputRecord) { !r.isConfirmed }
  predicate ConfirmedUnspent(r: TxOutputRecord) { r.isConfirmed && !HasSpend(r) }
  predicate ConfirmedPendingSpend(r: TxOutputRecord) { r.isConfirmed && HasSpend(r) && !r.spentIsConfirmed }
  predicate ConfirmedSpent(r: TxOutputRecord) { r.isConfirmed && HasSpend(r) && r.spentIsConfirmed }

  /** 1 when the record's own transaction is counted for the first time. */
  function FoundingCount(seen: set<string>, r: TxOutputRecord): nat {
    if r.txid !in seen then 1 else 0
  }

  /** 1 when the spending transaction is counted for the first time; an id equal to `txid` was just seen. */
  function SpendingCount(seen: set<string>, r: TxOutputRecord): nat {
    if HasSpend(r) && r.spentTxId !in seen && r.spentTxId != r.txid then 1 else 0
  }

  /** The ids a record makes seen. */
  function ItemIds(r: TxOutputRecord): set<string> {
    {r.txid} + (if HasSpend(r) then {r.spentTxId} else {})
  }

  /** Every counter moved by exactly the given amount. */
  predicate Moved(before: Ledger, after: Ledger, balance: int, received: int, sent: int,
                  unconfirmed: int, appearances: int, unconfirmedAppearances: int)
  {
    && after.balanceSat == before.balanceSat + balance
    && after.totalReceivedSat == before.totalReceivedSat + received
    && after.totalSentSat == before.totalSentSat + sent
    && after.unconfirmedBalanceSat == before.unconfirmedBalanceSat + unconfirmed
    && after.txApperances == before.txApperances + appearances
    && after.unconfirmedTxApperances == before.unconfirmedTxApperances + unconfirmedAppearances
  }

  /** The counter update of `_addTxItem`, given the founding and spending increments. */
  function Credit(l: Ledger, item: TxOutputRecord, add: nat, addSpend: nat): (r: Ledger)
    ensures r.seen == l.seen
    ensures r.Imbalance() == l.Imbalance()
    ensures r.Appearances() <= l.Appearances() + add + addSpend
    ensures var v := item.valueSat;
      && (UnconfirmedReceive(item) ==> Moved(l, r, 0, 0, 0, v, 0, add))
      && (ConfirmedUnspent(item) ==> Moved(l, r, v, v, 0, 0, add, 0))
      && (ConfirmedPendingSpend(item) ==> Moved(l, r, v, v, 0, -v, add, addSpend))
      && (ConfirmedSpent(item) ==> Moved(l, r, 0, v, v, 0, add + addSpend, 0))
  {
    var v := item.valueSat;
    if item.isConfirmed then
      var l1 := l.(txApperances := l.txApperances + add, totalReceivedSat := l.totalReceivedSat + v);
      if !HasSpend(item) then
        l1.(balanceSat := l1.balanceSat + v)
      else if !item.spentIsConfirmed then
        l1.(balanceSat := l1.balanceSat + v,
            unconfirmedBalanceSat := l1.unconfirmedBalanceSat - v,
            unconfirmedTxApperances := l1.unconfirmedTxApperances + addSpend)
      else
        l1.(totalSentSat := l1.totalSentSat + v, txApperances := l1.txApperances + addSpend)
    else
      l.(unconfirmedBalanceSat := l.unconfirmedBalanceSat + v,
         unconfirmedTxApperances := l.unconfirmedTxApperances + add)
  }

  /** The outcome of the dedup half of a step: new `seen`, new list, and the two increments. */
  datatype Marked = Marked(seen: set<string>, txList: Option<seq<TxEntry>>, add: nat, addSpend: nat)

  /**
   * The dedup half of `_addTxItem`: mark the founding id, then the spending
   * id, pushing an entry for each one not seen before.
   */
  function MarkSeen(a: Acc, item: TxOutputRecord, includeInfo: bool): (m: Marked)
    ensures m.add == FoundingCount(a.ledger.seen, item)
    ensures m.addSpend == SpendingCount(a.ledger.seen, item)
    ensures m.seen == a.ledger.seen + ItemIds(item)
    ensures m.txList.None? <==> a.txList.None?
    ensures a.txList.Some? ==>
      a.txList.value <= m.txList.value && |m.txList.value| == |a.txList.value| + m.add + m.addSpend
  {
    var seen := a.ledger.seen;
    // founding transaction
    var add: nat := if item.txid !in seen then 1 else 0;
    var seen1 := seen + {item.txid};
    var list1 := if add == 1 then Push(a.txList, FoundingEntry(item), includeInfo) else a.txList;
    // spending transaction
    var addSpend: nat := if HasSpend(item) && item.spentTxId !in seen1 then 1 else 0;
    var seen2 := if addSpend == 1 then seen1 + {item.spentTxId} else seen1;
    var list2 := if addSpend == 1 then Push(list1, SpendingEntry(item), includeInfo) else list1;
    Marked(seen2, list2, add, addSpend)
  }

  /**
   * One fold step. Dedup decides the history entries and the appearance
   * increments; the amounts are credited whether or not the ids were seen.
   */
  function ApplyItem(a: Acc, item: TxOutputRecord, includeInfo: bool): (r: Acc)
    ensures r.ledger.seen == a.ledger.seen + ItemIds(item)
    ensures r.ledger.Imbalance() == a.ledger.Imbalance()
    ensures r.ledger.Appearances() <= a.ledger.Appearances() + FoundingCount(a.ledger.seen, item) + SpendingCount(a.ledger.seen, item)
    ensures r.txList.None? <==> a.txList.None?
    ensures a.txList.Some? ==>
      a.txList.value <= r.txList.value && |r.txList.value| == |a.txList.value| + FoundingCount(a.ledger.seen, item) + SpendingCount(a.ledger.seen, item)
    ensures var v, f, s := item.valueSat, FoundingCount(a.ledger.seen, item), SpendingCount(a.ledger.seen, item);
      && (UnconfirmedReceive(item) ==> Moved(a.ledger, r.ledger, 0, 0, 0, v, 0, f))
      && (ConfirmedUnspent(item) ==> Moved(a.ledger, r.ledger, v, v, 0, 0, f, 0))
      && (ConfirmedPendingSpend(item) ==> Moved(a.ledger, r.ledger, v, v, 0, -v, f, s))
      && (ConfirmedSpent(item) ==> Moved(a.ledger, r.ledger, 0, v, v, 0, f + s, 0))
  {
    var m := MarkSeen(a, item, includeInfo);
    Acc(Credit(a.ledger, item, m.add, m.addSpend).(seen := m.seen), m.txList)
  }

  /** Adding one element grows a set by one exactly when the element is new. */
  lemma AddCardinality(s: set<string>, x: string)
    ensures |s + {x}| == |s| + (if x in s then 0 else 1)
  {
    if x in s {
      assert s + {x} == s;
    } else {
      assert s * {x} == {};
    }
  }

  /** Folds the records in input order, the last record applied last. */
  function FoldItems(a: Acc, items: seq<TxOutputRecord>, includeInfo: bool): (r: Acc)
    decreases |items|
    ensures r.ledger.Imbalance() == a.ledger.Imbalance()
    ensures a.ledger.seen <= r.ledger.seen
    ensures r.txList.None? <==> a.txList.None?
    ensures a.txList.Some? ==>
      a.txList.value <= r.txList.value && r.ledger.Appearances() - a.ledger.Appearances() <= |r.txList.value| - |a.txList.value|
  {
    if |items| == 0 then a
    else ApplyItem(FoldItems(a, items[..|items| - 1], includeInfo), items[|items| - 1], includeInfo)
  }

  // ---------------------------------------------------------------------
  // Reference definitions: the amounts as sums, the history as first occurrences.

  function Sum(items: seq<TxOutputRecord>, w: TxOutputRecord -> int): int
    decreases |items|
  {
    if |items| == 0 then 0 else Sum(items[..|items| - 1], w) + w(items[|items| - 1])
  }

  /** Confirmed outputs count as received. */
  function ReceivedWeight(r: TxOutputRecord): int {
    if r.isConfirmed then r.valueSat else 0
  }

  /** Confirmed outputs not spent by a confirmed transaction are held. */
  function BalanceWeight(r: TxOutputRecord): int {
    if ConfirmedUnspent(r) || ConfirmedPendingSpend(r) then r.valueSat else 0
  }

  /** Confirmed outputs spent by a confirmed transaction are sent. */
  function SentWeight(r: TxOutputRecord): int {
    if ConfirmedSpent(r) then r.valueSat else 0
  }

  /** Unconfirmed receipts add, confirmed outputs with a pending spend subtract. */
  function UnconfirmedWeight(r: TxOutputRecord): int {
    if UnconfirmedReceive(r) then r.valueSat
    else if ConfirmedPendingSpend(r) then -r.valueSat
    else 0
  }

  /** The ids a record mentions, the founding one first. */
  function ItemIdSeq(r: TxOutputRecord): seq<string> {
    [r.txid] + (if HasSpend(r) then [r.spentTxId] else [])
  }

  /** All ids the records mention, in input order, repetitions included. */
  function IdStream(items: seq<TxOutputRecord>): seq<string>
    decreases |items|
  {
    if |items| == 0 then [] else IdStream(items[..|items| - 1]) + ItemIdSeq(items[|items| - 1])
  }

  /** The ids of `ids` not in `seen`, each at its first occurrence. */
  function FirstOccurrences(seen: set<string>, ids: seq<string>): seq<string>
    decreases |ids|
  {
    if |ids| == 0 then []
    else
      var prev, x := ids[..|ids| - 1], ids[|ids| - 1];
      FirstOccurrences(seen, prev) + (if x in seen || x in prev then [] else [x])
  }

  function Elems(ids: seq<string>): set<string> {
    set x | x in ids
  }

  /** The entries a record would push if both its ids were new, the founding one first. */
  function EntrySeq(r: TxOutputRecord, includeInfo: bool): seq<TxEntry> {
    [Shown(FoundingEntry(r), includeInfo)] + (if HasSpend(r) then [Shown(SpendingEntry(r), includeInfo)] else [])
  }

  /** The candidate entries of all records, in input order. */
  function EntryStream(items: seq<TxOutputRecord>, includeInfo: bool): seq<TxEntry>
    decreases |items|
  {
    if |items| == 0 then [] else EntryStream(items[..|items| - 1], includeInfo) + EntrySeq(items[|items| - 1], includeInfo)
  }

  /** The entries of `es` whose id is neither in `seen` nor carried by an earlier entry. */
  function FirstEntries(seen: set<string>, es: seq<TxEntry>): seq<TxEntry>
    decreases |es|
  {
    if |es| == 0 then []
    else
      var prev, e := es[..|es| - 1], es[|es| - 1];
      FirstEntries(seen, prev) + (if e.id in seen || e.id in Ids(prev) then [] else [e])
  }

  // ---------------------------------------------------------------------
  // Properties of the fold.

  /**
   * The amount counters move by the sums over the records, repeated ids
   * included: dedup never suppresses an amount.
   */
  lemma {:induction false} FoldAmounts(a: Acc, items: seq<TxOutputRecord>, includeInfo: bool)
    ensures var r := FoldItems(a, items, includeInfo).ledger;
      && r.totalReceivedSat == a.ledger.totalReceivedSat + Sum(items, ReceivedWeight)
      && r.balanceSat == a.ledger.balanceSat + Sum(items, BalanceWeight)
      && r.totalSentSat == a.ledger.totalSentSat + Sum(items, SentWeight)
      && r.unconfirmedBalanceSat == a.ledger.unconfirmedBalanceSat + Sum(items, UnconfirmedWeight)
    decreases |items|
  {
    if |items| > 0 {
      FoldAmounts(a, items[..|items| - 1], includeInfo);
    }
  }

  /** A pass over a fresh address ends conserved, each amount counter equal to its sum over the records. */
  lemma PassFromEmpty(txList: Option<seq<TxEntry>>, items: seq<TxOutputRecord>, includeInfo: bool)
    ensures var r := FoldItems(Acc(EmptyLedger, txList), items, includeInfo).ledger;
      && r.Conserved()
      && r.totalReceivedSat == Sum(items, ReceivedWeight)
      && r.balanceSat == Sum(items, BalanceWeight)
      && r.totalSentSat == Sum(items, SentWeight)
      && r.unconfirmedBalanceSat == Sum(items, UnconfirmedWeight)
      && r.Appearances() <= |r.seen|
  {
    FoldAmounts(Acc(EmptyLedger, txList), items, includeInfo);
    FoldAppearancesBounded(Acc(EmptyLedger, txList), items, includeInfo);
  }

  lemma ElemsAppend(s: seq<string>, t: seq<string>)
    ensures Elems(s + t) == Elems(s) + Elems(t)
  {
    forall x | x in s + t ensures x in s || x in t {
    }
  }

  /** After the fold, exactly the ids the records mention have been added to `seen`. */
  lemma {:induction false} FoldSeen(a: Acc, items: seq<TxOutputRecord>, includeInfo: bool)
    ensures FoldItems(a, items, includeInfo).ledger.seen == a.ledger.seen + Elems(IdStream(items))
    decreases |items|
  {
    if |items| > 0 {
      var prefix, last := items[..|items| - 1], items[|items| - 1];
      FoldSeen(a, prefix, includeInfo);
      ElemsAppend(IdStream(prefix), ItemIdSeq(last));
      assert Elems(ItemIdSeq(last)) == ItemIds(last);
    }
  }

  lemma FirstOccurrencesSnoc(seen: set<string>, ids: seq<string>, x: string)
    ensures FirstOccurrences(seen, ids + [x]) == FirstOccurrences(seen, ids) + (if x in seen || x in ids then [] else [x])
  {
    assert (ids + [x])[..|ids|] == ids;
  }

  /** The ids one step appends to the history list. */
  lemma ApplyItemIds(a: Acc, item: TxOutputRecord, includeInfo: bool)
    requires a.txList.Some?
    ensures var r := ApplyItem(a, item, includeInfo);
      var seen := a.ledger.seen;
      && r.txList.Some?
      && Ids(r.txList.value) == Ids(a.txList.value)
           + (if item.txid in seen then [] else [item.txid])
           + (if !HasSpend(item) || item.spentTxId in seen || item.spentTxId == item.txid then [] else [item.spentTxId])
  {
    ApplyItemEntries(a, item, includeInfo);
  }

  /**
   * The entries one step appends: the founding summary when `txid` was
   * unseen, then the spending summary when there is a new spending id; each
   * as a bare id without `includeInfo`.
   */
  lemma ApplyItemEntries(a: Acc, item: TxOutputRecord, includeInfo: bool)
    requires a.txList.Some?
    ensures var r := ApplyItem(a, item, includeInfo);
      var seen := a.ledger.seen;
      && r.txList.Some?
      && r.txList.value == a.txList.value
           + (if item.txid in seen then [] else [Shown(FoundingEntry(item), includeInfo)])
           + (if !HasSpend(item) || item.spentTxId in seen || item.spentTxId == item.txid then []
              else [Shown(SpendingEntry(item), includeInfo)])
  {
  }

  /** The entry is the founding or the spending summary of one of the records, as `addTx` shows it. */
  predicate PushedFrom(e: TxEntry, items: seq<TxOutputRecord>, includeInfo: bool) {
    exists j :: 0 <= j < |items|
      && (e == Shown(FoundingEntry(items[j]), includeInfo) || e == Shown(SpendingEntry(items[j]), includeInfo))
  }

  lemma PushedFromPrefix(e: TxEntry, items: seq<TxOutputRecord>, n: nat, includeInfo: bool)
    requires n <= |items| && PushedFrom(e, items[..n], includeInfo)
    ensures PushedFrom(e, items, includeInfo)
  {
    var j :| 0 <= j < n
      && (e == Shown(FoundingEntry(items[..n][j]), includeInfo) || e == Shown(SpendingEntry(items[..n][j]), includeInfo));
    assert items[..n][j] == items[j];
  }

  /** The first occurrences contributed by the ids of one more record. */
  lemma FirstOccurrencesItem(seen: set<string>, s: seq<string>, item: TxOutputRecord)
    ensures FirstOccurrences(seen, s + ItemIdSeq(item)) == FirstOccurrences(seen, s)
      + (if item.txid in seen || item.txid in s then [] else [item.txid])
      + (if !HasSpend(item) || item.spentTxId in seen || item.spentTxId in s || item.spentTxId == item.txid
         then [] else [item.spentTxId])
  {
    var t := item.txid;
    FirstOccurrencesSnoc(seen, s, t);
    if HasSpend(item) {
      FirstOccurrencesSnoc(seen, s + [t], item.spentTxId);
      assert s + ItemIdSeq(item) == (s + [t]) + [item.spentTxId];
    } else {
      assert s + ItemIdSeq(item) == s + [t];
    }
  }

  lemma ConcatAssociates<T>(p: seq<T>, q: seq<T>, f: seq<T>, t: seq<T>)
    ensures (p + q) + f + t == p + (q + f + t)
  {
  }

  /**
   * The history list grows by the first occurrences of the ids the records
   * mention, in input order, the founding id of a record before its spending id.
   */
  lemma {:induction false} FoldHistory(a: Acc, items: seq<TxOutputRecord>, includeInfo: bool)
    requires a.txList.Some?
    ensures var r := FoldItems(a, items, includeInfo);
      r.txList.Some? && Ids(r.txList.value) == Ids(a.txList.value) + FirstOccurrences(a.ledger.seen, IdStream(items))
    decreases |items|
  {
    if |items| > 0 {
      var prefix, last := items[..|items| - 1], items[|items| - 1];
      FoldHistory(a, prefix, includeInfo);
      FoldSeen(a, prefix, includeInfo);
      ApplyItemIds(FoldItems(a, prefix, includeInfo), last, includeInfo);
      FirstOccurrencesItem(a.ledger.seen, IdStream(prefix), last);
      var seen := FoldItems(a, prefix, includeInfo).ledger.seen;
      assert (last.txid in seen) == (last.txid in a.ledger.seen || last.txid in IdStream(prefix));
      assert (last.spentTxId in seen) == (last.spentTxId in a.ledger.seen || last.spentTxId in IdStream(prefix));
      assert IdStream(items) == IdStream(prefix) + ItemIdSeq(last);
      var newFounding := if last.txid in seen then [] else [last.txid];
      var newSpending := if !HasSpend(last) || last.spentTxId in seen || last.spentTxId == last.txid then [] else [last.spentTxId];
      assert FirstOccurrences(a.ledger.seen, IdStream(items))
          == FirstOccurrences(a.ledger.seen, IdStream(prefix)) + newFounding + newSpending;
      assert Ids(FoldItems(a, items, includeInfo).txList.value)
          == Ids(FoldItems(a, prefix, includeInfo).txList.value) + newFounding + newSpending;
      assert Ids(FoldItems(a, prefix, includeInfo).txList.value)
          == Ids(a.txList.value) + FirstOccurrences(a.ledger.seen, IdStream(prefix));
      ConcatAssociates(Ids(a.txList.value), FirstOccurrences(a.ledger.seen, IdStream(prefix)), newFounding, newSpending);
    }
  }

  /** Every entry one step pushes is a summary of that record, bare exactly when `includeInfo` is false. */
  lemma ApplyItemPushes(a: Acc, item: TxOutputRecord, includeInfo: bool)
    requires a.txList.Some?
    ensures var r := ApplyItem(a, item, includeInfo).txList.value;
      forall k | |a.txList.value| <= k < |r| ::
        && r[k].TxId? == !includeInfo
        && (r[k] == Shown(FoundingEntry(item), includeInfo) || r[k] == Shown(SpendingEntry(item), includeInfo))
  {
    ApplyItemEntries(a, item, includeInfo);
  }

  lemma PushedFromLast(e: TxEntry, items: seq<TxOutputRecord>, includeInfo: bool)
    requires |items| > 0
    requires e == Shown(FoundingEntry(items[|items| - 1]), includeInfo)
          || e == Shown(SpendingEntry(items[|items| - 1]), includeInfo)
    ensures PushedFrom(e, items, includeInfo)
  {
  }

  /** One pushed entry of a fold, by induction on the records with the position fixed. */
  lemma {:induction false} FoldEntryAt(a: Acc, items: seq<TxOutputRecord>, includeInfo: bool, k: nat)
    requires a.txList.Some?
    requires |a.txList.value| <= k < |FoldItems(a, items, includeInfo).txList.value|
    ensures FoldItems(a, items, includeInfo).txList.value[k].TxId? == !includeInfo
    ensures PushedFrom(FoldItems(a, items, includeInfo).txList.value[k], items, includeInfo)
    decreases |items|
  {
    var n := |items| - 1;
    var e := FoldItems(a, items, includeInfo).txList.value[k];
    ApplyItemPushes(FoldItems(a, items[..n], includeInfo), items[n], includeInfo);
    if k < |FoldItems(a, items[..n], includeInfo).txList.value| {
      FoldEntryAt(a, items[..n], includeInfo, k);
      assert e == FoldItems(a, items[..n], includeInfo).txList.value[k];
      PushedFromPrefix(e, items, n, includeInfo);
    } else {
      PushedFromLast(e, items, includeInfo);
    }
  }

  /**
   * Every entry the fold pushes is the founding or the spending summary of
   * one of the records, with that record's own id and timestamps; it is a
   * bare id exactly when `includeInfo` is false.
   */
  lemma FoldEntries(a: Acc, items: seq<TxOutputRecord>, includeInfo: bool)
    requires a.txList.Some?
    ensures var r := FoldItems(a, items, includeInfo);
      forall k | |a.txList.value| <= k < |r.txList.value| ::
        r.txList.value[k].TxId? == !includeInfo && PushedFrom(r.txList.value[k], items, includeInfo)
  {
    forall k | |a.txList.value| <= k < |FoldItems(a, items, includeInfo).txList.value|
      ensures FoldItems(a, items, includeInfo).txList.value[k].TxId? == !includeInfo
      ensures PushedFrom(FoldItems(a, items, includeInfo).txList.value[k], items, includeInfo)
    {
      FoldEntryAt(a, items, includeInfo, k);
    }
  }

  lemma IdsAppend(s: seq<TxEntry>, t: seq<TxEntry>)
    ensures Ids(s + t) == Ids(s) + Ids(t)
  {
  }

  /** The ids of the candidate entries are the id stream. */
  lemma {:induction false} IdsEntryStream(items: seq<TxOutputRecord>, includeInfo: bool)
    ensures Ids(EntryStream(items, includeInfo)) == IdStream(items)
    decreases |items|
  {
    if |items| > 0 {
      var n := |items| - 1;
      IdsEntryStream(items[..n], includeInfo);
      IdsAppend(EntryStream(items[..n], includeInfo), EntrySeq(items[n], includeInfo));
      assert Ids(EntrySeq(items[n], includeInfo)) == ItemIdSeq(items[n]);
    }
  }

  lemma FirstEntriesSnoc(seen: set<string>, es: seq<TxEntry>, e: TxEntry)
    ensures FirstEntries(seen, es + [e]) == FirstEntries(seen, es) + (if e.id in seen || e.id in Ids(es) then [] else [e])
  {
    assert (es + [e])[..|es|] == es;
  }

  /** The first entries contributed by the candidates of one more record. */
  lemma FirstEntriesItem(seen: set<string>, s: seq<TxEntry>, item: TxOutputRecord, includeInfo: bool)
    ensures FirstEntries(seen, s + EntrySeq(item, includeInfo)) == FirstEntries(seen, s)
      + (if item.txid in seen || item.txid in Ids(s) then [] else [Shown(FoundingEntry(item), includeInfo)])
      + (if !HasSpend(item) || item.spentTxId in seen || item.spentTxId in Ids(s) || item.spentTxId == item.txid
         then [] else [Shown(SpendingEntry(item), includeInfo)])
  {
    var f := Shown(FoundingEntry(item), includeInfo);
    FirstEntriesSnoc(seen, s, f);
    if HasSpend(item) {
      var g := Shown(SpendingEntry(item), includeInfo);
      FirstEntriesSnoc(seen, s + [f], g);
      IdsAppend(s, [f]);
      assert Ids([f]) == [item.txid];
      assert (g.id in Ids(s + [f])) == (item.spentTxId in Ids(s) || item.spentTxId == item.txid);
      assert s + EntrySeq(item, includeInfo) == (s + [f]) + [g];
    } else {
      assert s + EntrySeq(item, includeInfo) == s + [f];
    }
  }

  /**
   * The history list a fold builds, entry by entry: the old list followed by
   * the candidate entries of the records, in input order, keeping each id's
   * first one only. So an id gets the summary of the first record that
   * mentions it, founding or spending as that record mentions it.
   */
  lemma {:induction false} FoldEntryHistory(a: Acc, items: seq<TxOutputRecord>, includeInfo: bool)
    requires a.txList.Some?
    ensures var r := FoldItems(a, items, includeInfo);
      r.txList.Some? && r.txList.value == a.txList.value + FirstEntries(a.ledger.seen, EntryStream(items, includeInfo))
    decreases |items|
  {
    if |items| > 0 {
      var n := |items| - 1;
      var last := items[n];
      FoldEntryHistory(a, items[..n], includeInfo);
      FoldSeen(a, items[..n], includeInfo);
      IdsEntryStream(items[..n], includeInfo);
      ApplyItemEntries(FoldItems(a, items[..n], includeInfo), last, includeInfo);
      FirstEntriesItem(a.ledger.seen, EntryStream(items[..n], includeInfo), last, includeInfo);
      var seen := FoldItems(a, items[..n], includeInfo).ledger.seen;
      var prevIds := Ids(EntryStream(items[..n], includeInfo));
      assert (last.txid in seen) == (last.txid in a.ledger.seen || last.txid in prevIds);
      assert (last.spentTxId in seen) == (last.spentTxId in a.ledger.seen || last.spentTxId in prevIds);
      assert EntryStream(items, includeInfo) == EntryStream(items[..n], includeInfo) + EntrySeq(last, includeInfo);
      var newFounding := if last.txid in seen then [] else [Shown(FoundingEntry(last), includeInfo)];
      var newSpending := if !HasSpend(last) || last.spentTxId in seen || last.spentTxId == last.txid then []
                         else [Shown(SpendingEntry(last), includeInfo)];
      assert FoldItems(a, items, includeInfo).txList.value
          == FoldItems(a, items[..n], includeInfo).txList.value + newFounding + newSpending;
      ConcatAssociates(a.txList.value, FirstEntries(a.ledger.seen, EntryStream(items[..n], includeInfo)), newFounding, newSpending);
    }
  }

  /**
   * An unconfirmed record with a new founding and a new spending id pushes
   * two entries but counts a single unconfirmed appearance.
   */
  lemma UnconfirmedSpendPushesTwoCountsOne(a: Acc, item: TxOutputRecord, includeInfo: bool)
    requires a.txList.Some? && !item.isConfirmed && HasSpend(item)
    requires item.txid !in a.ledger.seen && item.spentTxId !in a.ledger.seen && item.spentTxId != item.txid
    ensures var r := ApplyItem(a, item, includeInfo);
      && |r.txList.value| == |a.txList.value| + 2
      && r.ledger.unconfirmedTxApperances == a.ledger.unconfirmedTxApperances + 1
      && r.ledger.txApperances == a.ledger.txApperances
  {
  }

  /** Each step adds to `seen` exactly the ids it counts for the first time. */
  lemma ApplyItemSeenGrowth(a: Acc, item: TxOutputRecord, includeInfo: bool)
    ensures |ApplyItem(a, item, includeInfo).ledger.seen|
         == |a.ledger.seen| + FoundingCount(a.ledger.seen, item) + SpendingCount(a.ledger.seen, item)
  {
    AddCardinality(a.ledger.seen, item.txid);
    AddCardinality(a.ledger.seen + {item.txid}, item.spentTxId);
    if HasSpend(item) && item.spentTxId !in a.ledger.seen + {item.txid} {
      assert ApplyItem(a, item, includeInfo).ledger.seen == a.ledger.seen + {item.txid} + {item.spentTxId};
    } else {
      assert ApplyItem(a, item, includeInfo).ledger.seen == a.ledger.seen + {item.txid};
    }
  }

  /**
   * Every appearance counted is an id newly seen: across a fold the
   * appearance counters grow by at most the number of ids added to `seen`.
   */
  lemma {:induction false} FoldAppearancesBounded(a: Acc, items: seq<TxOutputRecord>, includeInfo: bool)
    ensures var r := FoldItems(a, items, includeInfo).ledger;
      r.Appearances() - a.ledger.Appearances() <= |r.seen| - |a.ledger.seen|
    decreases |items|
  {
    if |items| > 0 {
      var prefix, last := items[..|items| - 1], items[|items| - 1];
      FoldAppearancesBounded(a, prefix, includeInfo);
      ApplyItemSeenGrowth(FoldItems(a, prefix, includeInfo), last, includeInfo);
    }
  }

  /** Records whose ids are all seen change neither `seen`, nor appearances, nor the list. */
  lemma {:induction false} FoldSeenItems(b: Acc, items: seq<TxOutputRecord>, includeInfo: bool)
    requires Elems(IdStream(items)) <= b.ledger.seen
    ensures var r := FoldItems(b, items, includeInfo);
      && r.ledger.seen == b.ledger.seen
      && r.ledger.txApperances == b.ledger.txApperances
      && r.ledger.unconfirmedTxApperances == b.ledger.unconfirmedTxApperances
      && r.txList == b.txList
    decreases |items|
  {
    if |items| > 0 {
      var prefix, last := items[..|items| - 1], items[|items| - 1];
      assert IdStream(items) == IdStream(prefix) + ItemIdSeq(last);
      assert Elems(IdStream(prefix)) <= Elems(IdStream(items));
      FoldSeenItems(b, prefix, includeInfo);
      assert last.txid in IdStream(items);
      assert HasSpend(last) ==> last.spentTxId in IdStream(items);
    }
  }

  /**
   * Folding the same records a second time recounts every amount but no
   * appearance and no history entry.
   */
  lemma RefoldRecountsAmountsOnly(a: Acc, items: seq<TxOutputRecord>, includeInfo: bool)
    ensures var once := FoldItems(a, items, includeInfo);
      var twice := FoldItems(once, items, includeInfo);
      && twice.ledger.seen == once.ledger.seen
      && twice.ledger.txApperances == once.ledger.txApperances
      && twice.ledger.unconfirmedTxApperances == once.ledger.unconfirmedTxApperances
      && twice.txList == once.txList
      && twice.ledger.totalReceivedSat - once.ledger.totalReceivedSat == once.ledger.totalReceivedSat - a.ledger.totalReceivedSat
      && twice.ledger.balanceSat - once.ledger.balanceSat == once.ledger.balanceSat - a.ledger.balanceSat
      && twice.ledger.totalSentSat - once.ledger.totalSentSat == once.ledger.totalSentSat - a.ledger.totalSentSat
      && twice.ledger.unconfirmedBalanceSat - once.ledger.unconfirmedBalanceSat == once.ledger.unconfirmedBalanceSat - a.ledger.unconfirmedBalanceSat
  {
    var once := FoldItems(a, items, includeInfo);
    FoldSeen(a, items, includeInfo);
    FoldSeenItems(once, items, includeInfo);
    FoldAmounts(a, items, includeInfo);
    FoldAmounts(once, items, includeInfo);
  }

  /**
   * Appearance counts depend on the order of the records: an unconfirmed
   * output of transaction `a` spent by an unconfirmed transaction `b` marks
   * `b` seen without counting it, so `b`'s own output, folded afterwards, is
   * not counted either; folded in the other order, both are counted.
   */
  lemma AppearancesDependOnOrder(start: Acc, a: string, b: string, spentByB: TxOutputRecord, outputOfB: TxOutputRecord)
    requires a != b && b != "" && a !in start.ledger.seen && b !in start.ledger.seen
    requires spentByB.txid == a && spentByB.spentTxId == b && !spentByB.isConfirmed
    requires outputOfB.txid == b && outputOfB.spentTxId == "" && !outputOfB.isConfirmed
    ensures FoldItems(start, [spentByB, outputOfB], false).ledger.unconfirmedTxApperances
         == start.ledger.unconfirmedTxApperances + 1
    ensures FoldItems(start, [outputOfB, spentByB], false).ledger.unconfirmedTxApperances
         == start.ledger.unconfirmedTxApperances + 2
  {
    assert [spentByB, outputOfB][..1] == [spentByB];
    assert [outputOfB, spentByB][..1] == [outputOfB];
    // spentByB first: b is marked seen by the spend and never counted
    var a1 := ApplyItem(start, spentByB, false);
    assert FoldItems(start, [spentByB], false) == a1;
    assert FoldItems(start, [spentByB, outputOfB], false) == ApplyItem(a1, outputOfB, false);
    // outputOfB first: both transactions are counted
    var b1 := ApplyItem(start, outputOfB, false);
    assert FoldItems(start, [outputOfB], false) == b1;
    assert FoldItems(start, [outputOfB, spentByB], false) == ApplyItem(b1, spentByB, false);
  }
}

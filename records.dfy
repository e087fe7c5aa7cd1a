/**
 * The records an address aggregation pass works on: the transaction-output
 * records the transaction index returns for an address, and the entries of
 * the address's transaction history.
 */
module TxRecords {

  /**
   * One output that ever touched the address, as handed over after the
   * confirmation annotation. A string the source tests for truthiness
   * (`spentTxId`, `scriptPubKey`) is "" when it is absent, empty or null;
   * JavaScript treats all three alike.
   */
  datatype TxOutputRecord = TxOutputRecord(
    txid: string,
    ts: int,
    firstSeenTs: int,
    valueSat: int,
    index: int,
    spentTxId: string,
    spentTs: int,
    isConfirmed: bool,
    spentIsConfirmed: bool,
    scriptPubKey: string,
    confirmations: int,
    isConfirmedCached: bool)

  /** The output has been consumed by some transaction (`txItem.spentTxId` is truthy). */
  predicate HasSpend(r: TxOutputRecord) {
    r.spentTxId != ""
  }

  /**
   * An entry of the history list: a bare transaction id, the full summary of
   * a founding transaction, or the summary of a spending transaction.
   */
  datatype TxEntry =
    | TxId(id: string)
    | FoundingInfo(id: string, ts: int, firstSeenTs: int)
    | SpendingInfo(id: string, ts: int)

  /** The summary pushed for the transaction that created the output. */
  function FoundingEntry(r: TxOutputRecord): TxEntry {
    FoundingInfo(r.txid, r.ts, r.firstSeenTs)
  }

  /** The summary pushed for the transaction that spent the output. */
  function SpendingEntry(r: TxOutputRecord): TxEntry {
    SpendingInfo(r.spentTxId, r.spentTs)
  }

  /** The transaction ids of a history list, in order. */
  function Ids(es: seq<TxEntry>): seq<string> {
    seq(|es|, k requires 0 <= k < |es| => es[k].id)
  }
}

# Address ledger aggregation, modelled in Dafny

This project models the per-address ledger aggregator of a block-chain
explorer API (`app/models/Address.js`). An address object holds six integer
counters:

- `balanceSat`, `totalReceivedSat`, `totalSentSat`, `unconfirmedBalanceSat`;
- `txApperances`, `unconfirmedTxApperances`.

It also holds a per-instance `seen` set of transaction ids, a `transactions`
history list and an `unspent` list. `update` fetches the address's output
records and then takes one of two branches:

- the unspent-only branch builds the `unspent` list;
- the full-ledger branch folds every record, in fetch order, through
  `_addTxItem`.

`_addTxItem` dedups ids through `seen`, may append a founding entry and a
spending entry to the history list, and updates the counters through a
four-way branch on the record's confirmation and spending state.

Files and modules:

- `wrappers.dfy` (`Wrappers`): `Option`, standing for JavaScript `null`.
- `records.dfy` (`TxRecords`): the output record and the history-list entry.
- `accumulator.dfy` (`Accumulator`): the fold on values.
  - `MarkSeen` is the dedup half of `_addTxItem`.
  - `Credit` is the counter half.
  - `ApplyItem` is one whole step.
  - `FoldItems` is the in-order fold.
  - Reference definitions follow: the amounts as sums over the records
    (`Sum` with one weight per counter), and the history as the first
    occurrences of the ids the records mention (`FirstOccurrences` of
    `IdStream`), and entry by entry as the first candidate entry per id
    (`FirstEntries` of `EntryStream`).
  - Lemmas connect the fold to those references.
- `unspent.dfy` (`Unspent`): the unspent branch, written stage by stage as
  the source runs it. A single-pass reference listing (`UnspentListing`) is
  proved equal to it.
- `address.dfy` (`Address`): the class `AddressState` with the source's
  fields, its constructor, the methods `AddTxItem` (split into `MarkItem` and
  `CreditItem`), `FoldAll` and `Update`, and the snapshot `GetObj`.
  - The object invariant `Valid()` is `totalReceivedSat == balanceSat + totalSentSat`.
  - Every method preserves it.
  - Each method's new state is tied to the value-level functions above.

Collaborators are parameters of `Update`. Each is a function:

- `fromAddr(addrStr, opts)`: fetch, with `ignoreCache` already defaulted.
- `fillConfirmations`: returns the annotated records, or an error.
- `cacheConfirmations`: returns an error or nothing.
- `fillScriptPubKey`: gives the `scriptPubKey` each record holds after the
  backfill.

The configuration values `ignoreCache` and `safeConfirmations` come in as a
`Config` value.

Facts about the code that the model makes explicit:

- A record whose ids were already seen still moves every amount counter.
  Only the appearance counters and the history list are deduped
  (`RefoldRecountsAmountsOnly`).
- The amount sums (`FoldAmounts`, `PassFromEmpty`) hold for any record
  sequence, with or without repeated `txid` values.
- For a confirmed output with a confirmed spend, `txApperances` grows by both
  the founding increment (line 137) and the spending increment (line 150).
- Appearance counts depend on record order. An unconfirmed output spent by
  an unconfirmed transaction marks the spender seen without counting it
  (`AppearancesDependOnOrder`).
- One record can push more history entries than it counts appearances: an
  unconfirmed record with a new `txid` and a new `spentTxId` pushes two
  entries and counts one unconfirmed appearance (lines 116-134, 152-155;
  `UnconfirmedSpendPushesTwoCountsOne`).

## Model

| member | source | states |
|---|---|---|
| Accumulator.Push | app/models/Address.js:101-108 | without a list nothing is pushed and the list stays `null`; otherwise the old list is a prefix of the new one, which has one more entry carrying the pushed id: the full summary with `includeInfo` and the bare id without it |
| Accumulator.MarkSeen | app/models/Address.js:113-135 | the founding increment is 1 exactly when `txid` was unseen; the spending increment is 1 exactly when a `spentTxId` is present, unseen and different from `txid`; `seen` grows by exactly the record's ids; the list stays `null` or grows by one entry per increment, keeping its old entries as a prefix |
| Accumulator.Credit | app/models/Address.js:136-155 | the four-way branch as exact counter deltas; it never changes `totalReceivedSat - balanceSat - totalSentSat` and adds at most `add + addSpend` appearances |
| Accumulator.ApplyItem | app/models/Address.js:100-156 | one `_addTxItem` step: `seen` becomes old `seen` plus the record's ids; conservation is preserved; the list grows by exactly the new founding and spending ids, and the appearances grow by at most the entries pushed; the branch table holds in all four states, with amounts credited even when both ids were already seen |
| Accumulator.FoldItems | app/models/Address.js:207-209 | folding records in order preserves the conservation gap; `seen` only grows; a `null` list stays `null`; otherwise the list keeps its old entries as a prefix and gains at least as many entries as appearances counted |
| Accumulator.FoldAmounts | app/models/Address.js:136-155 | after any fold, each of the four amount counters has moved by the sum of its per-record weight (received, held, sent, unconfirmed); repeated ids included |
| Accumulator.PassFromEmpty | app/models/Address.js:18-25 | from the constructor's zero counters a full pass ends conserved (`totalReceivedSat == balanceSat + totalSentSat`), each of the four amount counters equal to its sum over the records, and no more appearances than ids seen |
| Accumulator.FoldSeen | app/models/Address.js:115-135 | after a fold, `seen` is the old `seen` plus exactly the ids the records mention |
| Accumulator.ApplyItemIds | app/models/Address.js:116-134 | the id projection of `ApplyItemEntries`, used by `FoldHistory`: one step appends the founding id when it was unseen, then the spending id when it is present, unseen and not the founding id |
| Accumulator.ApplyItemEntries | app/models/Address.js:101-134 | one step appends exactly the founding summary `{txid, ts, firstSeenTs}` when `txid` was unseen, then the spending summary `{spentTxId, spentTs}` when the spending id is present, unseen and not `txid`; each one reduced to its bare id without `includeInfo` |
| Accumulator.FoldHistory | app/models/Address.js:115-135 | the ids of the history list after a fold are the old ones followed by the first occurrences, in input order, of the ids the records mention that were not already seen, each record's founding id before its spending id |
| Accumulator.FoldEntries | app/models/Address.js:101-134 | every entry a fold pushes is the founding or the spending summary of one of the records, with that record's own id and timestamps, and it is a bare id exactly when `includeInfo` is false; which record supplies it is fixed by `FoldEntryHistory` |
| Accumulator.FoldEntryHistory | app/models/Address.js:101-135 | the history list after a fold is exactly the old list followed by the records' candidate entries in input order (founding summary, then spending summary when there is a spend), keeping an entry only when its id is not already seen and no earlier candidate carries it; so each id gets the summary, founding or spending, of the first record that mentions it |
| Accumulator.UnconfirmedSpendPushesTwoCountsOne | app/models/Address.js:116-155 | an unconfirmed record with a new `txid` and a new, different `spentTxId` pushes two history entries and adds one unconfirmed appearance and no confirmed one |
| Accumulator.ApplyItemSeenGrowth | app/models/Address.js:113-135 | one step adds to `seen` exactly as many ids as it counts as new founding and spending appearances |
| Accumulator.FoldAppearancesBounded | app/models/Address.js:110-155 | across a fold the appearance counters grow by at most the number of ids newly added to `seen` |
| Accumulator.FoldSeenItems | app/models/Address.js:115-135 | records whose ids are all in `seen` leave `seen`, both appearance counters and the list unchanged |
| Accumulator.RefoldRecountsAmountsOnly | app/models/Address.js:136-155 | folding the same records twice leaves `seen`, the appearance counters and the list as after the first fold, while every amount counter moves a second time by the same amount |
| Accumulator.AppearancesDependOnOrder | app/models/Address.js:127-155 | with two unconfirmed records, an output of `a` spent by `b` and an output of `b`, the order `[spent, output]` counts one unconfirmed appearance and the order `[output, spent]` counts two |
| Unspent.KeepUnspent | app/models/Address.js:186-188 | a record is kept exactly when it is in the input and has no `spentTxId`; the result is no longer than the input |
| Unspent.Backfill | app/models/Address.js:189 | the same records in the same order, each with `scriptPubKey` replaced by what the index fills in for it |
| Unspent.ToUnspentOutputs | app/models/Address.js:192-202 | one unspent output per record, in order, each built field by field from its record |
| Unspent.DropMissingScript | app/models/Address.js:192-203 | an output is kept exactly when it is in the input and its `scriptPubKey` is truthy; the result is no longer than the input |
| Unspent.BuildUnspentInOrder | app/models/Address.js:185-203 | the filter, backfill, map and filter pipeline equals the single-pass listing: in input order, one entry per record with no `spentTxId` and a truthy backfilled `scriptPubKey` |
| Unspent.BuildUnspentMembers | app/models/Address.js:186-203 | an unspent output is listed if and only if some record has no `spentTxId` and a truthy `scriptPubKey`; it carries the address, `txid`, `vout = index`, `ts`, the script, the value, `confirmations = safeConfirmations` when the count came from the cache and the live count otherwise, and the cache flag |
| Unspent.BuildUnspent | app/models/Address.js:185-203 | the list is no longer than the fetched records, and every entry carries the address and a non-empty `scriptPubKey` |
| Address.Stages | app/models/Address.js:176-184 | the fetch, the confirmation fill and the cache run in that order; the first error ends the chain and is passed on, and success carries the records as the fill annotated them |
| Address.WithDefaults | app/models/Address.js:168-169 | an `ignoreCache` the caller gave is kept, a missing one is taken from the configuration, and the other options pass through |
| Address.TxListFor | app/models/Address.js:172 | no history list exactly when `txLimit` is exactly 0; otherwise an empty list |
| Address.AddressState.constructor | app/models/Address.js:17-30 | all counters 0, `seen` empty, both lists empty, the invariant established |
| Address.AddressState.MarkItem | app/models/Address.js:113-135 | only `seen` changes, so the invariant is kept; the new `seen`, the list and the two increments are those of `MarkSeen` |
| Address.AddressState.CreditItem | app/models/Address.js:136-155 | only the six counters change, as `Credit` says; the invariant is kept |
| Address.AddressState.AddTxItem | app/models/Address.js:100-156 | the new counters, `seen` and returned list are `ApplyItem` of the old ones; the invariant is kept; address and lists are untouched |
| Address.AddressState.FoldAll | app/models/Address.js:207-209 | the loop leaves counters, `seen` and list equal to `FoldItems` over the records in order; the invariant is kept |
| Address.AddressState.Update | app/models/Address.js:163-217 | an empty address returns with nothing changed; a stage error is passed on with nothing changed; with `onlyUnspent` only `unspent` changes, to `BuildUnspent`; otherwise the ledger becomes `FoldItems` from the old one, `transactions` becomes the new list unless `txLimit` is 0, and `unspent` is untouched |
| Address.AddressState.GetObj | app/models/Address.js:82-98 | the snapshot carries the address, the six counters and the history as they are, and under the invariant it is itself conserved |

## Left out

- Address parsing and validation in the constructor (lines 32-37) call into the `Globaltokencore` library. The constructor takes an already validated address string.
- The display-scale getters and setters (lines 39-78) and the `amount` field of an unspent output (line 199) divide by the library constant `COIN` in floating point. Only the integer `*Sat` fields are modelled, and an unspent output carries `amountSat`. The `balance` and `totalReceived` setters assign to their own property, which makes them recursive; they are not modelled.
- The transaction and block indexes (`fromAddr`, `fillConfirmations`, `cacheConfirmations`, `fillScriptPubKey`) are database I/O behind callbacks. They are function parameters of `Update`; how `txLimit` bounds the fetch is theirs. Both fill stages mutate the records in place. In the model, `fillConfirmations` returns the annotated records, and `fillScriptPubKey` is a function from a record to the script the index fills in for it. The error passed to `fillScriptPubKey`'s callback is ignored, as in the source.
- `update` writes the defaulted `ignoreCache` into the caller's options object. The model hands the completed options to `fromAddr`, but it does not show the caller's object changing.
- The `async` and `soop` wiring, `module.exports` and the unused `CONCURRENCY` constant (lines 3-15, 219) are left out.
- JavaScript truthiness is collapsed: an absent, `null` or empty `spentTxId` or `scriptPubKey` is `""`, and the option and confirmation flags are booleans.
- `seen` is a plain object in the source, so an id such as `toString` reads as already seen through the prototype. The model's `seen` is a set, and this is not modelled.
- Amounts are unbounded integers. JavaScript numbers lose precision above 2^53, and that is not modelled.
- The source shares arrays by reference: `txList` is pushed in place, and `getObj` returns the `transactions` array itself. The model passes these as values, so aliasing is not modelled.

# flashblocks-base: block ingestion and feed comparison, in Dafny

The `Home` page of flashblocks-base listens to two feeds of Base Sepolia
blocks. The fast feed sends Flashblocks payloads. The reference feed is an
`eth_subscribe("newHeads")` JSON-RPC subscription on a public node. Every
message is one step of a reducer over the page state:

- a message counter per feed;
- a bounded history per feed: newest first, at most five records, one per
  block number;
- `blockTimings`: for each block number, the local arrival time seen by each
  feed.

From that state the page derives, on each render, a merged list of the five
highest block numbers with each feed's record side by side, and statistics of
which feed delivered first.

This project models that core and proves its properties:

| file | module | what it holds |
|---|---|---|
| `wrappers.dfy` | `Wrappers` | `Option` |
| `parse_int.dfy` | `JsParseInt` | JavaScript `parseInt(s, 16)`, the `0x…` quantity encoding, and the round trip between them |
| `blocks.dfy` | `Blocks` | decoded payloads of both feeds, the block record, field extraction with its `\|\|` fallbacks, reference-feed message classification |
| `history.dfy` | `History` | the per-feed history updater (skip a known number, else prepend and cut to five) |
| `timings.dfy` | `Timings` | the `blockTimings` upsert, the ±50 ms verdict, and the statistics loop |
| `merged_view.dfy` | `MergedView` | the merged list: concatenate, sort, group with `reduce`, cut to five |
| `feed.dfy` | `Feed` | the invariant tying one feed's history to its counter and to `blockTimings` |
| `page.dfy` | `Page` | class `Home`, with the page state as fields and one method per message handler |

The extraction functions and the state-updater closures are pure in the
source, so they are functions here. The statistics `forEach` and the
`reduce`, which mutate their accumulator, are methods with loops. Each such
method states what it computes: set cardinalities for the statistics, and
`IsMergedView` for the merged list. The page state is a class, and each
handler is a method that applies all of that message's state updates.

The comparison sign follows the code. When the fast feed reports block 100
at time T and the reference feed at T + 80 ms, the code computes
`diff = flash - base = -80`. That is below -50, so the fast feed counts as
faster (app/page.js:217-219). `Timings.EightyMillisecondsLaterScenario`
proves this verdict.

Two behaviours of the code are modelled as written:

- A second delivery of a number the history already holds overwrites that
  feed's arrival time in `blockTimings`. The history keeps the record of the
  first delivery.
- Every record whose number is `'Unknown'` gets the same history key. While a
  history holds an `'Unknown'` record, no other `'Unknown'` record enters it.
  Once that record is evicted, another one can enter.

## Model

| member | source | states |
|---|---|---|
| JsParseInt.ParseInt16 | app/page.js:37-42 | `parseInt(s, 16)` is NaN exactly when no hex digit follows the white space, the sign and the `0x` prefix |
| JsParseInt.TrimStart | app/page.js:37 | the text parsed is what follows the leading white space: only white space is dropped, and the rest does not start with white space |
| JsParseInt.HexRunLength | app/page.js:37 | the digits read are the longest run of hex digits |
| JsParseInt.ParseEncodedQuantity | app/page.js:143 | white space, then an optional minus, then `0x` and hex digits, then text that is not a hex digit: the parse gives the encoded number with its sign |
| JsParseInt.ParseSpelledNumber | app/page.js:37-42 | any spelling `parseInt` reads in full: white space, an optional `+` or `-`, an optional `0x`/`0X`, a non-empty run of hex digits in either case and with any leading zeros, and text that does not continue the run, parses to the run's value, negated after a minus |
| JsParseInt.ParseQuantityRoundTrip | app/page.js:143-148 | parsing a `0x…` quantity gives back the number it encodes |
| JsParseInt.ParseWithoutDigits | app/page.js:143 | text with no hex digit where the digits start parses to NaN |
| JsParseInt.ParseUndefinedIsNaN | app/page.js:37 | `parseInt(undefined, 16)` is NaN |
| Blocks.NumberOrUnknown | app/page.js:143 | the number is the parse when that is an integer other than 0, and `'Unknown'` otherwise |
| Blocks.FlashNumber | app/page.js:37 | a fast-feed number is never 0; a truthy `metadata.block_number` is taken as it is; otherwise the number is the base-16 parse of `base.block_number` when that is a non-zero integer, and `'Unknown'` when it is NaN or 0 |
| Blocks.FlashNumberFromBase | app/page.js:37 | without a truthy `metadata.block_number`, the number is the base-16 `base.block_number`, and `'Unknown'` when that is 0 |
| Blocks.FlashBlockInfo | app/page.js:36-45 | a fast-feed record is tagged `flash`, is stamped with the arrival time, and has the fast-feed number. Its timestamp is the base-16 `base.timestamp` when that parses to a non-zero integer, and `floor(now / 1000)` when it is NaN or 0. Its hash is a non-empty `diff.block_hash`, else `'Unknown'`. Its transaction count is the length of `diff.transactions`, else 0. Gas used and base fee are the base-16 parse of a non-empty `diff.gas_used` and `base.base_fee_per_gas`, NaN included, else `'Unknown'` |
| Blocks.BaseBlockInfo | app/page.js:142-151 | a reference record is tagged `base` and is stamped with the arrival time. Its number is the base-16 `number` when that is a non-zero integer, else `'Unknown'`, and never 0. Its timestamp, hash, transaction count, gas used and base fee come from the header's fields with the same fallbacks as a fast-feed record |
| Blocks.BaseBlockInfoRoundTrip | app/page.js:142-151 | extracting the header a node sends for a block gives back that block |
| Blocks.FlashBlockInfoRoundTrip | app/page.js:36-45 | extracting the fast-feed payload for a block gives back that block |
| Blocks.BaseBlockInfoDefaults | app/page.js:142-151 | a header with no field present gives the defaults: number, hash and both quantities `'Unknown'`, 0 transactions, and `floor(now / 1000)` as timestamp |
| Blocks.FlashBlockInfoDefaults | app/page.js:36-45 | a payload with no field present gives the same defaults |
| Blocks.Classify | app/page.js:129-139 | the subscribe acknowledgement is exactly a truthy `result` without `params`; a block header is present exactly when `params.result` is; the header is `params.result` |
| History.Insert | app/page.js:59-65 | a block whose number is present leaves the history unchanged; otherwise the block comes first, followed by the old history's prefix in order, and the length is `min(old + 1, 5)` |
| History.InsertKeepsWellFormed | app/page.js:59-65 | insertion keeps at most five records with pairwise distinct numbers, and the block's number is then present |
| History.InsertIdempotent | app/page.js:59-63 | delivering the same block twice has the effect of delivering it once |
| History.InsertEvictsOldest | app/page.js:64 | on a full history, a new number pushes out exactly the oldest record |
| History.InsertAllWellFormed | app/page.js:59-65 | any run of insertions keeps a well-formed history well-formed |
| History.FromEmptyWellFormed | app/page.js:9-10 | any run of insertions from the empty history gives at most five records with pairwise distinct numbers |
| Timings.Other | app/page.js:54 | the other feed differs from the arriving one |
| Timings.RecordArrival | app/page.js:48-57 | the number gains an entry whose arriving-feed slot is the arrival time; the other feed's slot for that number and every other number's entry are unchanged |
| Timings.VerdictOf | app/page.js:217-224 | fast feed faster exactly when `flash + 50 < base`, reference faster exactly when `base + 50 < flash`, equal exactly when the two are within 50 ms |
| Timings.ComputeTimingStats | app/page.js:207-226 | `total` is the number of entries where both times are present and non-zero; each counter is the number of such entries with its verdict; the three counters add up to `total` |
| Timings.ComparedStep | app/page.js:215-216 | visiting one more entry adds one to the compared count exactly when both its times are truthy |
| Timings.JudgedStep | app/page.js:217-224 | visiting one more entry adds one to a verdict's count exactly when it is compared with that verdict |
| Timings.CompletingPairIsCompared | app/page.js:154-163 | the second feed's report of a number the first feed reported adds exactly that number to the compared entries |
| Timings.EightyMillisecondsLaterScenario | app/page.js:217-219 | the reference feed arriving 80 ms after the fast feed counts as fast feed faster |
| MergedView.NewEntry | app/page.js:194-197 | a new entry has the record's number and the record in its feed's slot only |
| MergedView.WithBlock | app/page.js:200 | the record goes into its feed's slot; the number and the other slot are unchanged |
| MergedView.InsertDesc | app/page.js:189 | one insertion step of the sort: the result has one more record, every one with an integer number (content and order: InsertDescPermutes, InsertDescSorted) |
| MergedView.SortByNumberDesc | app/page.js:189 | the sort from the highest number down keeps the length and every record numbered (order and permutation: SortByNumberDescCorrect) |
| MergedView.InsertDescPermutes | app/page.js:189 | inserting a record into the sorted list adds exactly that record |
| MergedView.InsertDescSorted | app/page.js:189 | inserting a record into a list sorted from the highest number down keeps it sorted |
| MergedView.SortByNumberDescCorrect | app/page.js:189 | the sort orders from the highest number down and is a permutation of its input |
| MergedView.FindIndex | app/page.js:191 | `findIndex` gives the first entry with the number, or -1 exactly when no entry has it |
| MergedView.Group | app/page.js:190-202 | one `reduce` callback keeps the grouping invariant for one more sorted record |
| MergedView.GroupByNumber | app/page.js:190-203 | the `reduce` gives one entry per number, in strictly descending order, each slot filled from the records, and every record shown in its feed's slot |
| MergedView.NothingGrouped | app/page.js:203 | the empty accumulator groups no record |
| MergedView.ReduceStep | app/page.js:191-201 | the push branch and the update branch both keep the grouping invariant |
| MergedView.PushStep | app/page.js:192-197 | pushing a new number keeps the entries strictly descending and shows the new record |
| MergedView.UpdateStep | app/page.js:198-201 | filling the slot of a number already grouped keeps the grouping invariant |
| MergedView.OnlyLastMatches | app/page.js:191 | in sorted input, the entry found for a known number is the last one pushed |
| MergedView.UpdateKeepsSlots | app/page.js:200 | filling the last entry's slot keeps every slot filled from the records |
| MergedView.UpdateKeepsShown | app/page.js:200 | filling the last entry's slot keeps every earlier record shown and shows the new one |
| MergedView.CutKeepsView | app/page.js:204 | cutting the grouped list to five gives the merged view |
| MergedView.CutKeepsSlots | app/page.js:204 | the cut keeps every slot filled from the records |
| MergedView.CutKeepsShown | app/page.js:204 | after the cut, each record is shown or crowded out by five higher numbers |
| MergedView.MergeBlocks | app/page.js:188-204 | `allBlocks` has at most five entries with strictly descending numbers; every slot holds a record from the histories with the entry's number and that slot's feed; each record is shown unless five higher numbers fill the view |
| MergedView.SlotsMatchHistories | app/page.js:188-204 | an entry's fast slot is filled whenever the fast history has a record with the entry's number; likewise for the reference slot |
| MergedView.SlotsFromHistories | app/page.js:188-204 | a filled fast slot holds a record of the fast history, and a filled reference slot a record of the reference history |
| MergedView.ShownAtItsNumber | app/page.js:191 | a shown record is shown at the one entry with its number |
| Feed.IngestKeepsConsistent | app/page.js:48-65 | storing a feed's own new record in `blockTimings` and in its history keeps that feed's history consistent |
| Feed.OtherFeedKeepsConsistent | app/page.js:154-163 | a record of the other feed keeps this feed's history consistent |
| Page.Home.constructor | app/page.js:9-17 | the page starts with empty histories, an empty timing map and zero counters |
| Page.Home.OnFlashMessage | app/page.js:24-69 | every message adds one to the fast counter; an undecodable one changes nothing else; a payload's record is stored in `blockTimings` and inserted into the fast history; the reference feed's state is unchanged |
| Page.Home.OnBaseMessage | app/page.js:115-177 | every message adds one to the reference counter; an undecodable message, the subscribe acknowledgement and a message without a header change nothing else; a header's record is stored in `blockTimings` and inserted into the reference history; the fast feed's state is unchanged |
| Page.Home.CountMessage | app/page.js:26 | the arriving feed's counter goes up by one; the other counter, both histories and `blockTimings` are unchanged |
| Page.Home.Ingest | app/page.js:48-65 | the timing upsert and the history updater for one record, touching only that record's feed |
| Page.Home.AllBlocks | app/page.js:188-204 | the page's merged view of its two histories: each filled slot holds a record of its feed's history, and a slot is filled whenever its feed's history has the entry's number |
| Page.Home.TimingStatistics | app/page.js:207-226 | the page's statistics are the counts of compared entries of `blockTimings` by verdict, and the three verdict counts add up to `total` |

## Left out

- WebSocket connection management is not modelled: the hooks, the open, close and error handlers, the reconnect policy and the attempt counter (app/page.js:20-23, 70-114, 178-185). It is network I/O inside a third-party hook.
- The delayed `eth_subscribe` send (app/page.js:84-99) is not modelled. It is timer- and I/O-driven.
- Blob-to-text decoding (app/page.js:30-32, 122-124) is not modelled, nor the reordering of messages it can cause. It is asynchronous host behaviour. Messages are taken in the order their handlers apply them.
- `JSON.parse` is not modelled. A handler receives the decoded message, or `None` when parsing throws or the message is `null`. On `null`, the property access throws inside the same `try`, so only the counter changes.
- `Date.now()` is not modelled. Each handler takes one `now` that stands for both of its clock reads (the timestamp fallback and `receivedAt`).
- React's scheduling of state updates is not modelled. Each handler applies all of its updates in one step.
- Rendering is not modelled (app/page.js:228-333): the two counters, both histories with the date formatting of their timestamps, and the connection badges. This revision of the page computes `allBlocks` and `timingStats` (app/page.js:188-226) without displaying them; the model proves what they hold all the same. components/NavBar.js and app/layout.js are not part of this model: they are presentation only.
- Numbers are exact integers; the source's double-precision rounding is not modelled. Block numbers are compared with `===` (app/page.js:61, 169, 191), used as `blockTimings` keys (app/page.js:52, 158) and subtracted in the sort (app/page.js:189); rounding would merge distinct numbers only above 2^53, far beyond any block number the feeds report. Timestamps and the gas fields are only tested for truthiness and displayed. `-0` is modelled as 0; the page treats the two alike, since both are falsy and both display as `0`.
- Optional payload fields are `None` when absent or falsy. A hex field that holds a non-string JSON value is not modelled. A `metadata.block_number` that is not an integer is not modelled either.
- MergedView.MergeBlocks: requires every record to have an integer block number. With `'Unknown'`, `b.number - a.number` is NaN, the comparator is inconsistent, and the order of the sort is implementation-defined (app/page.js:189).
- Page.Home.AllBlocks: requires the same, for the same reason.
- JsParseInt.ParseInt16: the characters in the white-space set are listed explicitly. Unicode category tables are not modelled.

/** The block record the page builds from each feed message, the already
    decoded payloads of both feeds, and the two extraction rules
    (app/page.js:36-45 for the fast feed, app/page.js:142-151 for the
    reference feed).

    JavaScript reads these payloads with optional chaining (`a?.b`) and falls
    back with `||`, so an absent field, `null` and any other falsy value lead
    to the same default. An `Option` field below is `None` for all of those:
    `Some(x)` only ever holds a value that is present. */
module Blocks {
  import opened Wrappers
  import opened JsParseInt

  /** The `source` tag of a record: `'flash'` or `'base'`. */
  datatype Source = Flash | Base

  /** A block number: an integer, or the `'Unknown'` sentinel string. */
  datatype BlockNumber = Num(n: int) | UnknownNumber

  /** `gasUsed` and `baseFeePerGas`: the result of `parseInt(…, 16)` (which
      may be NaN) when the field is present, else the `'Unknown'` sentinel. */
  datatype Quantity = Parsed(p: ParseResult) | UnknownQuantity

  /** The `blockInfo` object of the page. */
  datatype Block = Block(
    number: BlockNumber,
    hash: string,
    timestamp: int,
    transactions: nat,
    gasUsed: Quantity,
    baseFeePerGas: Quantity,
    source: Source,
    receivedAt: int)

  /** How many elements `slice(0, limit)` keeps of a list of length `a`; both
      the histories and the merged list are cut this way. */
  function Min(a: nat, limit: nat): nat {
    if a < limit then a else limit
  }

  /** The text the page shows for a missing hash. */
  const UNKNOWN_TEXT: string := "Unknown"

  /** A JSON value, for the one field (`result` of a JSON-RPC message) whose
      type the page does not fix. Numbers are integers here. */
  datatype Json =
    | Null
    | Bool(b: bool)
    | Number(x: int)
    | String(s: string)
    | Array(items: seq<Json>)
    | Object(fields: map<string, Json>)

  /** JavaScript truthiness of a field that may be `undefined` (`None`). */
  predicate Truthy(v: Option<Json>) {
    match v
    case None => false
    case Some(Null) => false
    case Some(Bool(b)) => b
    case Some(Number(x)) => x != 0
    case Some(String(s)) => s != ""
    case Some(Array(_)) => true
    case Some(Object(_)) => true
  }

  // ---------------------------------------------------------------------
  // Fast feed payload: { metadata: { block_number }, diff: { block_hash,
  // gas_used, transactions }, base: { block_number, timestamp,
  // base_fee_per_gas } }. Only fields are read, through optional chaining
  // (`data.diff?.gas_used`), so an absent section reads exactly like a
  // section none of whose fields is present; the model uses the latter.

  datatype Metadata = Metadata(blockNumber: Option<int>)
  datatype Diff = Diff(blockHash: Option<string>, gasUsed: Option<string>, transactions: Option<seq<string>>)
  datatype BaseSection = BaseSection(blockNumber: Option<string>, timestamp: Option<string>, baseFeePerGas: Option<string>)
  datatype FlashPayload = FlashPayload(metadata: Metadata, diff: Diff, base: BaseSection)

  // ---------------------------------------------------------------------
  // Reference feed payload: a JSON-RPC 2.0 message. A notification of the
  // `eth_subscribe` "newHeads" subscription carries the header under
  // `params.result`; the response to the subscribe request carries the
  // subscription id under `result` and has no `params`.

  datatype BlockHeader = BlockHeader(
    number: Option<string>,
    hash: Option<string>,
    timestamp: Option<string>,
    transactions: Option<seq<string>>,
    gasUsed: Option<string>,
    baseFeePerGas: Option<string>)

  /** `params`; its `result` is `None` when absent or falsy. */
  datatype RpcParams = RpcParams(result: Option<BlockHeader>)

  /** `params` is `None` when absent or falsy. */
  datatype RpcMessage = RpcMessage(result: Option<Json>, params: Option<RpcParams>)

  // ---------------------------------------------------------------------
  // The `||` fallbacks.

  /** `parseInt(x, 16)` where `x` may be `undefined`: `String(undefined)` is
      the text that gets parsed then. */
  function ParseField(x: Option<string>): ParseResult {
    ParseInt16(if x.Some? then x.value else UNDEFINED_TEXT)
  }

  /** `parseInt(x, 16) || 'Unknown'`: NaN and 0 are falsy. */
  function NumberOrUnknown(p: ParseResult): (r: BlockNumber)
    ensures r.Num? <==> p.Int? && p.value != 0
    ensures r.Num? ==> r.n == p.value
  {
    if p.Int? && p.value != 0 then Num(p.value) else UnknownNumber
  }

  /** `parseInt(x, 16) || Math.floor(now / 1000)`. Dafny's `/` on `int` with
      a positive divisor rounds down, as `Math.floor` does. */
  function TimestampOr(p: ParseResult, now: int): int {
    if p.Int? && p.value != 0 then p.value else now / 1000
  }

  /** `x ? parseInt(x, 16) : 'Unknown'`: the empty string is falsy. */
  function QuantityOf(x: Option<string>): Quantity {
    if x.Some? && x.value != "" then Parsed(ParseInt16(x.value)) else UnknownQuantity
  }

  /** `x || 'Unknown'` for a hash. */
  function HashOr(x: Option<string>): string {
    if x.Some? && x.value != "" then x.value else UNKNOWN_TEXT
  }

  /** `x?.length || 0` for a transaction list. */
  function CountOf(x: Option<seq<string>>): nat {
    if x.Some? then |x.value| else 0
  }

  // ---------------------------------------------------------------------
  // Extraction.

  /** The block number of a fast-feed payload: a truthy
      `metadata.block_number` as it is, else `base.block_number` in base 16,
      else `'Unknown'`. */
  function FlashNumber(data: FlashPayload): (r: BlockNumber)
    ensures r != Num(0)
    ensures var meta := data.metadata.blockNumber;
            && (meta.Some? && meta.value != 0 ==> r == Num(meta.value))
            && (meta.None? || meta.value == 0 ==> r == NumberOrUnknown(ParseField(data.base.blockNumber)))
  {
    var meta := data.metadata.blockNumber;
    if meta.Some? && meta.value != 0 then Num(meta.value)
    else NumberOrUnknown(ParseField(data.base.blockNumber))
  }

  /** The record built from a fast-feed message received at `now`. */
  function FlashBlockInfo(data: FlashPayload, now: int): (r: Block)
    ensures r.source == Flash && r.receivedAt == now
    ensures r.number == FlashNumber(data)
    ensures var ts := ParseField(data.base.timestamp);
            && (ts.Int? && ts.value != 0 ==> r.timestamp == ts.value)
            && (ts.NaN? || ts == Int(0) ==> r.timestamp == now / 1000)
    ensures var h := data.diff.blockHash;
            && (h.Some? && h.value != "" ==> r.hash == h.value)
            && (h.None? || h.value == "" ==> r.hash == UNKNOWN_TEXT)
    ensures var txs := data.diff.transactions;
            && (txs.Some? ==> r.transactions == |txs.value|)
            && (txs.None? ==> r.transactions == 0)
    ensures var g := data.diff.gasUsed;
            && (g.Some? && g.value != "" ==> r.gasUsed == Parsed(ParseInt16(g.value)))
            && (g.None? || g.value == "" ==> r.gasUsed == UnknownQuantity)
    ensures var f := data.base.baseFeePerGas;
            && (f.Some? && f.value != "" ==> r.baseFeePerGas == Parsed(ParseInt16(f.value)))
            && (f.None? || f.value == "" ==> r.baseFeePerGas == UnknownQuantity)
  {
    var diff := data.diff;
    var base := data.base;
    Block(
      number := FlashNumber(data),
      hash := HashOr(diff.blockHash),
      timestamp := TimestampOr(ParseField(base.timestamp), now),
      transactions := CountOf(diff.transactions),
      gasUsed := QuantityOf(diff.gasUsed),
      baseFeePerGas := QuantityOf(base.baseFeePerGas),
      source := Flash,
      receivedAt := now)
  }

  /** The record built from a reference-feed block header received at `now`. */
  function BaseBlockInfo(header: BlockHeader, now: int): (r: Block)
    ensures r.source == Base && r.receivedAt == now
    ensures r.number == NumberOrUnknown(ParseField(header.number)) && r.number != Num(0)
    ensures var ts := ParseField(header.timestamp);
            && (ts.Int? && ts.value != 0 ==> r.timestamp == ts.value)
            && (ts.NaN? || ts == Int(0) ==> r.timestamp == now / 1000)
    ensures var h := header.hash;
            && (h.Some? && h.value != "" ==> r.hash == h.value)
            && (h.None? || h.value == "" ==> r.hash == UNKNOWN_TEXT)
    ensures var txs := header.transactions;
            && (txs.Some? ==> r.transactions == |txs.value|)
            && (txs.None? ==> r.transactions == 0)
    ensures var g := header.gasUsed;
            && (g.Some? && g.value != "" ==> r.gasUsed == Parsed(ParseInt16(g.value)))
            && (g.None? || g.value == "" ==> r.gasUsed == UnknownQuantity)
    ensures var f := header.baseFeePerGas;
            && (f.Some? && f.value != "" ==> r.baseFeePerGas == Parsed(ParseInt16(f.value)))
            && (f.None? || f.value == "" ==> r.baseFeePerGas == UnknownQuantity)
  {
    Block(
      number := NumberOrUnknown(ParseField(header.number)),
      hash := HashOr(header.hash),
      timestamp := TimestampOr(ParseField(header.timestamp), now),
      transactions := CountOf(header.transactions),
      gasUsed := QuantityOf(header.gasUsed),
      baseFeePerGas := QuantityOf(header.baseFeePerGas),
      source := Base,
      receivedAt := now)
  }

  // ---------------------------------------------------------------------
  // What the extraction recovers from well-formed payloads, and its defaults.

  /** A record every field of which the feeds can carry as such: an integer
      block number that is not 0, a non-empty hash, a timestamp that is not 0
      and two non-negative quantities. */
  predicate Encodable(b: Block) {
    && b.number.Num? && b.number.n > 0
    && b.hash != ""
    && b.timestamp > 0
    && b.gasUsed.Parsed? && b.gasUsed.p.Int? && b.gasUsed.p.value >= 0
    && b.baseFeePerGas.Parsed? && b.baseFeePerGas.p.Int? && b.baseFeePerGas.p.value >= 0
  }

  /** The `newHeads` header a node sends for `b`, quantities as `0x…`. */
  function EncodeHeader(b: Block, txs: seq<string>): BlockHeader
    requires Encodable(b)
  {
    BlockHeader(
      number := Some(EncodeQuantity(b.number.n)),
      hash := Some(b.hash),
      timestamp := Some(EncodeQuantity(b.timestamp)),
      transactions := Some(txs),
      gasUsed := Some(EncodeQuantity(b.gasUsed.p.value)),
      baseFeePerGas := Some(EncodeQuantity(b.baseFeePerGas.p.value)))
  }

  /** The fast-feed payload for `b`: the number in `metadata` as a JSON
      number, the rest in `diff` and `base`. */
  function EncodeFlashPayload(b: Block, txs: seq<string>): FlashPayload
    requires Encodable(b)
  {
    FlashPayload(
      metadata := Metadata(Some(b.number.n)),
      diff := Diff(Some(b.hash), Some(EncodeQuantity(b.gasUsed.p.value)), Some(txs)),
      base := BaseSection(Some(EncodeQuantity(b.number.n)), Some(EncodeQuantity(b.timestamp)),
                          Some(EncodeQuantity(b.baseFeePerGas.p.value))))
  }

  /** Extracting the header a node sends for a reference-feed block gives back
      that block, stamped with the time it arrives. */
  lemma BaseBlockInfoRoundTrip(b: Block, txs: seq<string>)
    requires Encodable(b) && b.source == Base && |txs| == b.transactions
    ensures BaseBlockInfo(EncodeHeader(b, txs), b.receivedAt) == b
  {
    var h := EncodeHeader(b, txs);
    var r := BaseBlockInfo(h, b.receivedAt);
    ParseFieldOfQuantity(b.number.n);
    assert r.number == b.number;
    ParseFieldOfQuantity(b.timestamp);
    assert r.timestamp == b.timestamp;
    QuantityOfEncoded(b.gasUsed.p.value);
    QuantityOfEncoded(b.baseFeePerGas.p.value);
  }

  /** The same for the fast feed. */
  lemma FlashBlockInfoRoundTrip(b: Block, txs: seq<string>)
    requires Encodable(b) && b.source == Flash && |txs| == b.transactions
    ensures FlashBlockInfo(EncodeFlashPayload(b, txs), b.receivedAt) == b
  {
    var data := EncodeFlashPayload(b, txs);
    var r := FlashBlockInfo(data, b.receivedAt);
    assert r.number == b.number;
    ParseFieldOfQuantity(b.timestamp);
    assert r.timestamp == b.timestamp;
    QuantityOfEncoded(b.gasUsed.p.value);
    QuantityOfEncoded(b.baseFeePerGas.p.value);
  }

  lemma ParseFieldOfQuantity(n: nat)
    ensures ParseField(Some(EncodeQuantity(n))) == Int(n)
  {
    ParseQuantityRoundTrip(n);
  }

  lemma QuantityOfEncoded(n: nat)
    ensures QuantityOf(Some(EncodeQuantity(n))) == Parsed(Int(n))
  {
    ParseQuantityRoundTrip(n);
  }

  /** Without a truthy `metadata.block_number`, the fast feed's number is the
      base-16 `base.block_number`. */
  lemma FlashNumberFromBase(data: FlashPayload, n: nat)
    requires data.metadata.blockNumber.None? || data.metadata.blockNumber.value == 0
    requires data.base.blockNumber == Some(EncodeQuantity(n))
    ensures FlashNumber(data) == if n == 0 then UnknownNumber else Num(n)
  {
    ParseFieldOfQuantity(n);
  }

  /** A header none of whose fields is present gives every default: number
      and gas fields `'Unknown'`, hash `'Unknown'`, no transactions, and the
      local time in seconds as timestamp. */
  lemma BaseBlockInfoDefaults(now: int)
    ensures BaseBlockInfo(BlockHeader(None, None, None, None, None, None), now)
            == Block(UnknownNumber, UNKNOWN_TEXT, now / 1000, 0, UnknownQuantity, UnknownQuantity, Base, now)
  {
    ParseUndefinedIsNaN();
  }

  /** A fast-feed payload with no field present (a JSON value that is not an
      object decodes to this) gives every default too. */
  lemma FlashBlockInfoDefaults(now: int)
    ensures FlashBlockInfo(FlashPayload(Metadata(None), Diff(None, None, None), BaseSection(None, None, None)), now)
            == Block(UnknownNumber, UNKNOWN_TEXT, now / 1000, 0, UnknownQuantity, UnknownQuantity, Flash, now)
  {
    ParseUndefinedIsNaN();
  }

  // ---------------------------------------------------------------------
  // Reference-feed classification (app/page.js:129-139).

  datatype RpcKind = Ack | NonBlock | BlockData(header: BlockHeader)

  /** A message with a truthy `result` and no `params` is the response to the
      subscribe request (a JSON-RPC 2.0 response object); one without a
      truthy `params.result` carries no block; anything else is a header. */
  function Classify(msg: RpcMessage): (k: RpcKind)
    ensures k == Ack <==> Truthy(msg.result) && msg.params.None?
    ensures k.BlockData? <==> msg.params.Some? && msg.params.value.result.Some?
    ensures k.BlockData? ==> k.header == msg.params.value.result.value
  {
    if Truthy(msg.result) && msg.params.None? then Ack
    else if msg.params.None? || msg.params.value.result.None? then NonBlock
    else BlockData(msg.params.value.result.value)
  }
}

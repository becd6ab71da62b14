/** The state of the `Home` page component (app/page.js:8-17) and what its
    two message handlers do to it (app/page.js:24-69 for the fast feed,
    115-177 for the reference feed), plus the two values the page derives
    from that state on each render (app/page.js:188-226).

    React batches the state updaters of one handler; each handler is
    modelled as one method that applies all of them. The decoded message is
    a parameter (`None` when `JSON.parse` throws or the message is `null`),
    and so is the clock reading `now`. */
module Page {
  import opened Wrappers
  import opened Blocks
  import History
  import Timings
  import MergedView
  import Feed

  class Home {
    var flashBlocks: seq<Block>
    var baseBlocks: seq<Block>
    var blockTimings: Timings.TimingMap
    var flashMessagesCount: nat
    var baseMessagesCount: nat

    /** Each feed's history is consistent with its counter and with
        `blockTimings`. */
    ghost predicate Valid()
      reads this
    {
      && Feed.Consistent(flashBlocks, Flash, flashMessagesCount, blockTimings)
      && Feed.Consistent(baseBlocks, Base, baseMessagesCount, blockTimings)
    }

    /** The initial `useState` values. */
    constructor()
      ensures Valid()
      ensures flashBlocks == [] && baseBlocks == [] && blockTimings == map[]
      ensures flashMessagesCount == 0 && baseMessagesCount == 0
    {
      flashBlocks := [];
      baseBlocks := [];
      blockTimings := map[];
      flashMessagesCount := 0;
      baseMessagesCount := 0;
    }

    /** The fast feed's `onMessage`: the counter always goes up; a decoded
        payload becomes a record whose arrival is stored and which enters the
        fast history. */
    method OnFlashMessage(data: Option<FlashPayload>, now: int)
      requires Valid()
      modifies this
      ensures Valid()
      ensures flashMessagesCount == old(flashMessagesCount) + 1
      ensures baseMessagesCount == old(baseMessagesCount) && baseBlocks == old(baseBlocks)
      ensures data.None? ==> flashBlocks == old(flashBlocks) && blockTimings == old(blockTimings)
      ensures data.Some? ==>
                var b := FlashBlockInfo(data.value, now);
                && blockTimings == Timings.RecordArrival(old(blockTimings), b.number, Flash, now)
                && flashBlocks == History.Insert(old(flashBlocks), b)
    {
      CountMessage(Flash);
      if data.Some? {
        Ingest(FlashBlockInfo(data.value, now));
      }
    }

    /** The reference feed's `onMessage`: the counter always goes up; the
        subscription acknowledgement and messages without a block header
        change nothing else; a block header becomes a record whose arrival
        is stored and which enters the reference history. */
    method OnBaseMessage(data: Option<RpcMessage>, now: int)
      requires Valid()
      modifies this
      ensures Valid()
      ensures baseMessagesCount == old(baseMessagesCount) + 1
      ensures flashMessagesCount == old(flashMessagesCount) && flashBlocks == old(flashBlocks)
      ensures data.None? || !Classify(data.value).BlockData? ==>
                baseBlocks == old(baseBlocks) && blockTimings == old(blockTimings)
      ensures data.Some? && Classify(data.value).BlockData? ==>
                var b := BaseBlockInfo(Classify(data.value).header, now);
                && blockTimings == Timings.RecordArrival(old(blockTimings), b.number, Base, now)
                && baseBlocks == History.Insert(old(baseBlocks), b)
    {
      CountMessage(Base);
      if data.Some? {
        var kind := Classify(data.value);
        if kind.BlockData? {
          Ingest(BaseBlockInfo(kind.header, now));
        }
      }
    }

    /** The counter updater both handlers run first, on every message. */
    method CountMessage(source: Source)
      requires Valid()
      modifies this
      ensures Valid()
      ensures flashMessagesCount == old(flashMessagesCount) + (if source == Flash then 1 else 0)
      ensures baseMessagesCount == old(baseMessagesCount) + (if source == Base then 1 else 0)
      ensures flashBlocks == old(flashBlocks) && baseBlocks == old(baseBlocks) && blockTimings == old(blockTimings)
    {
      if source == Flash {
        flashMessagesCount := flashMessagesCount + 1;
      } else {
        baseMessagesCount := baseMessagesCount + 1;
      }
    }

    /** The two updaters both handlers run on a new record: its arrival time
        goes into its feed's slot of `blockTimings`, and the record into its
        feed's history. */
    method Ingest(block: Block)
      requires Valid()
      requires block.source == Flash ==> |flashBlocks| < flashMessagesCount
      requires block.source == Base ==> |baseBlocks| < baseMessagesCount
      modifies this
      ensures Valid()
      ensures flashMessagesCount == old(flashMessagesCount) && baseMessagesCount == old(baseMessagesCount)
      ensures blockTimings == Timings.RecordArrival(old(blockTimings), block.number, block.source, block.receivedAt)
      ensures block.source == Flash ==>
                flashBlocks == History.Insert(old(flashBlocks), block) && baseBlocks == old(baseBlocks)
      ensures block.source == Base ==>
                baseBlocks == History.Insert(old(baseBlocks), block) && flashBlocks == old(flashBlocks)
    {
      if block.source == Flash {
        Feed.IngestKeepsConsistent(flashBlocks, flashMessagesCount, blockTimings, block);
        Feed.OtherFeedKeepsConsistent(baseBlocks, Base, baseMessagesCount, blockTimings, block.number, block.receivedAt);
        flashBlocks := History.Insert(flashBlocks, block);
      } else {
        Feed.IngestKeepsConsistent(baseBlocks, baseMessagesCount, blockTimings, block);
        Feed.OtherFeedKeepsConsistent(flashBlocks, Flash, flashMessagesCount, blockTimings, block.number, block.receivedAt);
        baseBlocks := History.Insert(baseBlocks, block);
      }
      blockTimings := Timings.RecordArrival(blockTimings, block.number, block.source, block.receivedAt);
    }

    /** `allBlocks` for the current histories: each filled slot holds a
        record of that feed's history, and an entry's slot is filled whenever
        that feed's history has the entry's number. */
    method AllBlocks() returns (view: seq<MergedView.Entry>)
      requires Valid()
      requires MergedView.AllNumbered(flashBlocks + baseBlocks)
      ensures MergedView.IsMergedView(flashBlocks + baseBlocks, view)
      ensures forall i :: 0 <= i < |view| && view[i].flash.Some? ==> view[i].flash.value in flashBlocks
      ensures forall i :: 0 <= i < |view| && view[i].base.Some? ==> view[i].base.value in baseBlocks
      ensures forall i, b :: 0 <= i < |view| && b in flashBlocks && view[i].number == b.number ==> view[i].flash.Some?
      ensures forall i, b :: 0 <= i < |view| && b in baseBlocks && view[i].number == b.number ==> view[i].base.Some?
    {
      view := MergedView.MergeBlocks(flashBlocks, baseBlocks);
      forall i | 0 <= i < |view|
        ensures view[i].flash.Some? ==> view[i].flash.value in flashBlocks
        ensures view[i].base.Some? ==> view[i].base.value in baseBlocks
      {
        MergedView.SlotsFromHistories(flashBlocks, baseBlocks, view, i);
      }
      forall i, b: Block | 0 <= i < |view| && view[i].number == b.number
        ensures b in flashBlocks ==> view[i].flash.Some?
        ensures b in baseBlocks ==> view[i].base.Some?
      {
        MergedView.SlotsMatchHistories(flashBlocks, baseBlocks, view, i, b);
      }
    }

    /** `timingStats` for the current `blockTimings`. */
    method TimingStatistics() returns (stats: Timings.TimingStats)
      ensures stats.total == |Timings.Compared(blockTimings)|
      ensures stats.flashFaster == |Timings.Judged(blockTimings, Timings.FlashFaster)|
      ensures stats.baseFaster == |Timings.Judged(blockTimings, Timings.BaseFaster)|
      ensures stats.equal == |Timings.Judged(blockTimings, Timings.Equal)|
      ensures stats.flashFaster + stats.baseFaster + stats.equal == stats.total
    {
      stats := Timings.ComputeTimingStats(blockTimings);
    }
  }
}

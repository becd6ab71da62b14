/** What ties one feed's history to the message counter and to
    `blockTimings` on the page (app/page.js:26, 47-65, 117, 153-173): the
    history is well-formed, only holds that feed's records, has no more
    records than messages arrived, and every number in it has that feed's
    arrival time recorded. */
module Feed {
  import opened Blocks
  import History
  import Timings

  predicate Consistent(history: seq<Block>, source: Source, count: nat, timings: Timings.TimingMap) {
    && History.WellFormed(history)
    && |history| <= count
    && (forall i :: 0 <= i < |history| ==> history[i].source == source)
    && (forall i :: 0 <= i < |history| ==> Timings.Recorded(timings, history[i].number, source))
  }

  /** The feed's own new record: its arrival goes into `blockTimings` and the
      record into the history, after the counter counted its message. */
  lemma IngestKeepsConsistent(history: seq<Block>, count: nat, timings: Timings.TimingMap, block: Block)
    requires Consistent(history, block.source, count, timings) && |history| < count
    ensures Consistent(History.Insert(history, block), block.source, count,
                       Timings.RecordArrival(timings, block.number, block.source, block.receivedAt))
  {
  }

  /** A record of the other feed only adds to `blockTimings`. */
  lemma OtherFeedKeepsConsistent(history: seq<Block>, source: Source, count: nat, timings: Timings.TimingMap,
                                 number: BlockNumber, at: int)
    requires Consistent(history, source, count, timings)
    ensures Consistent(history, source, count, Timings.RecordArrival(timings, number, Timings.Other(source), at))
  {
  }
}

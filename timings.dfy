/** The per-block-number arrival times (`blockTimings`, app/page.js:15,
    48-57, 154-163) and the timing statistics computed from them on each
    render (app/page.js:207-226). */
module Timings {
  import opened Wrappers
  import opened Blocks

  /** One entry of `blockTimings`: the local arrival time in milliseconds
      reported by each feed, `None` until that feed reports the number. */
  datatype Timing = Timing(flash: Option<int>, base: Option<int>)

  /** `blockTimings`. JavaScript turns the key into a string; an integer and
      `'Unknown'` never collide, so the key is the `BlockNumber` itself. */
  type TimingMap = map<BlockNumber, Timing>

  function Slot(t: Timing, source: Source): Option<int> {
    match source
    case Flash => t.flash
    case Base => t.base
  }

  function Other(source: Source): (r: Source)
    ensures r != source
  {
    match source
    case Flash => Base
    case Base => Flash
  }

  /** `source` has reported `number`. */
  predicate Recorded(timings: TimingMap, number: BlockNumber, source: Source) {
    number in timings && Slot(timings[number], source).Some?
  }

  /** `{ ...prev, [number]: { ...prev[number], [source]: at } }`: spreading
      the missing entry gives an empty object. */
  function RecordArrival(timings: TimingMap, number: BlockNumber, source: Source, at: int): (r: TimingMap)
    ensures r.Keys == timings.Keys + {number}
    ensures Slot(r[number], source) == Some(at)
    ensures Slot(r[number], Other(source))
            == if number in timings then Slot(timings[number], Other(source)) else None
    ensures forall k :: k in timings && k != number ==> r[k] == timings[k]
  {
    var prev := if number in timings then timings[number] else Timing(None, None);
    var entry := match source
      case Flash => prev.(flash := Some(at))
      case Base => prev.(base := Some(at));
    timings[number := entry]
  }

  // ---------------------------------------------------------------------
  // Timing statistics.

  /** The band, in milliseconds, within which both feeds count as equal. */
  const THRESHOLD_MS: int := 50

  /** Truthiness of an arrival time: absent and 0 are falsy. */
  predicate Arrived(at: Option<int>) {
    at.Some? && at.value != 0
  }

  /** `timing.flash && timing.base`: the only entries that are compared. */
  predicate BothArrived(t: Timing) {
    Arrived(t.flash) && Arrived(t.base)
  }

  datatype Verdict = FlashFaster | BaseFaster | Equal

  /** The class of `diff = flash - base`: below -50 the fast feed was first,
      above 50 the reference feed, anything in between counts as equal. */
  function VerdictOf(t: Timing): (v: Verdict)
    requires BothArrived(t)
    ensures v == FlashFaster <==> t.flash.value + THRESHOLD_MS < t.base.value
    ensures v == BaseFaster <==> t.base.value + THRESHOLD_MS < t.flash.value
    ensures v == Equal <==> -THRESHOLD_MS <= t.flash.value - t.base.value <= THRESHOLD_MS
  {
    var diff := t.flash.value - t.base.value;
    if diff < -THRESHOLD_MS then FlashFaster
    else if diff > THRESHOLD_MS then BaseFaster
    else Equal
  }

  /** The `timingStats` object. */
  datatype TimingStats = TimingStats(flashFaster: nat, baseFaster: nat, equal: nat, total: nat)

  /** The block numbers among `keys` whose entry is compared. */
  ghost function ComparedIn(timings: TimingMap, keys: set<BlockNumber>): set<BlockNumber> {
    set k | k in keys && k in timings && BothArrived(timings[k])
  }

  /** The block numbers among `keys` whose entry is compared with verdict `v`. */
  ghost function JudgedIn(timings: TimingMap, keys: set<BlockNumber>, v: Verdict): set<BlockNumber> {
    set k | k in keys && k in timings && BothArrived(timings[k]) && VerdictOf(timings[k]) == v
  }

  ghost function Compared(timings: TimingMap): set<BlockNumber> {
    ComparedIn(timings, timings.Keys)
  }

  ghost function Judged(timings: TimingMap, v: Verdict): set<BlockNumber> {
    JudgedIn(timings, timings.Keys, v)
  }

  /** The `forEach` over `Object.values(blockTimings)`: every entry where both
      feeds have reported is counted once in `total` and once under its
      verdict. The entries are visited in some order; the counts do not
      depend on it. */
  method ComputeTimingStats(timings: TimingMap) returns (stats: TimingStats)
    ensures stats.total == |Compared(timings)|
    ensures stats.flashFaster == |Judged(timings, FlashFaster)|
    ensures stats.baseFaster == |Judged(timings, BaseFaster)|
    ensures stats.equal == |Judged(timings, Equal)|
    ensures stats.flashFaster + stats.baseFaster + stats.equal == stats.total
  {
    stats := TimingStats(0, 0, 0, 0);
    var todo := timings.Keys;
    ghost var done: set<BlockNumber> := {};
    while todo != {}
      invariant todo + done == timings.Keys && todo !! done
      invariant stats.total == |ComparedIn(timings, done)|
      invariant stats.flashFaster == |JudgedIn(timings, done, FlashFaster)|
      invariant stats.baseFaster == |JudgedIn(timings, done, BaseFaster)|
      invariant stats.equal == |JudgedIn(timings, done, Equal)|
      invariant stats.flashFaster + stats.baseFaster + stats.equal == stats.total
      decreases todo
    {
      var k :| k in todo;
      var timing := timings[k];
      ComparedStep(timings, done, k);
      JudgedStep(timings, done, k, FlashFaster);
      JudgedStep(timings, done, k, BaseFaster);
      JudgedStep(timings, done, k, Equal);
      if timing.flash.Some? && timing.flash.value != 0 && timing.base.Some? && timing.base.value != 0 {
        stats := stats.(total := stats.total + 1);
        var diff := timing.flash.value - timing.base.value;
        if diff < -THRESHOLD_MS {
          stats := stats.(flashFaster := stats.flashFaster + 1);
        } else if diff > THRESHOLD_MS {
          stats := stats.(baseFaster := stats.baseFaster + 1);
        } else {
          stats := stats.(equal := stats.equal + 1);
        }
      }
      todo := todo - {k};
      done := done + {k};
    }
    assert done == timings.Keys;
  }

  /** Visiting one more key adds it to the compared set exactly when both
      feeds have reported it. */
  lemma ComparedStep(timings: TimingMap, done: set<BlockNumber>, k: BlockNumber)
    requires k in timings && k !in done
    ensures |ComparedIn(timings, done + {k})|
            == |ComparedIn(timings, done)| + (if BothArrived(timings[k]) then 1 else 0)
  {
    if BothArrived(timings[k]) {
      assert ComparedIn(timings, done + {k}) == ComparedIn(timings, done) + {k};
    } else {
      assert ComparedIn(timings, done + {k}) == ComparedIn(timings, done);
    }
  }

  /** ... and to the set of verdict `v` exactly when it is compared with
      that verdict. */
  lemma JudgedStep(timings: TimingMap, done: set<BlockNumber>, k: BlockNumber, v: Verdict)
    requires k in timings && k !in done
    ensures |JudgedIn(timings, done + {k}, v)|
            == |JudgedIn(timings, done, v)|
               + (if BothArrived(timings[k]) && VerdictOf(timings[k]) == v then 1 else 0)
  {
    if BothArrived(timings[k]) && VerdictOf(timings[k]) == v {
      assert JudgedIn(timings, done + {k}, v) == JudgedIn(timings, done, v) + {k};
    } else {
      assert JudgedIn(timings, done + {k}, v) == JudgedIn(timings, done, v);
    }
  }

  /** The second feed's report of a number whose first report is in the map
      (at a truthy time) makes that number one more compared entry; nothing
      else enters or leaves the compared set. */
  lemma CompletingPairIsCompared(timings: TimingMap, number: BlockNumber, source: Source, at: int)
    requires number in timings && !BothArrived(timings[number])
    requires Arrived(Slot(timings[number], Other(source))) && at != 0
    ensures Compared(RecordArrival(timings, number, source, at)) == Compared(timings) + {number}
  {
  }

  /** The fast feed reporting block 100 at time T and the reference feed at
      T + 80 ms: `diff` is -80, below the band, so the fast feed was faster. */
  lemma EightyMillisecondsLaterScenario(t: int)
    requires t != 0 && t + 80 != 0
    ensures var m := RecordArrival(RecordArrival(map[], Num(100), Flash, t), Num(100), Base, t + 80);
            BothArrived(m[Num(100)]) && VerdictOf(m[Num(100)]) == FlashFaster
  {
  }
}

/** The merged comparison list `allBlocks` the page computes on each render
    (app/page.js:188-204): both histories concatenated, sorted by block number
    from the highest down, grouped into one entry per number holding each
    feed's record, and cut to five entries.

    `b.number - a.number` is NaN when either number is `'Unknown'`, which makes
    the comparator inconsistent and the order implementation-defined; the view
    is modelled for integer block numbers only. */
module MergedView {
  import opened Wrappers
  import opened Blocks

  /** How many entries the view keeps. */
  const VIEW_LIMIT: nat := 5

  /** One element of `allBlocks`: `{ number, flash?: block, base?: block }`. */
  datatype Entry = Entry(number: BlockNumber, flash: Option<Block>, base: Option<Block>)

  function SlotOf(e: Entry, source: Source): Option<Block> {
    match source
    case Flash => e.flash
    case Base => e.base
  }

  /** `{ number: block.number, [block.source]: block }`. */
  function NewEntry(b: Block): (e: Entry)
    ensures e.number == b.number && SlotOf(e, b.source) == Some(b)
    ensures forall s :: s != b.source ==> SlotOf(e, s) == None
  {
    match b.source
    case Flash => Entry(b.number, Some(b), None)
    case Base => Entry(b.number, None, Some(b))
  }

  /** `acc[existingIndex][block.source] = block`. */
  function WithBlock(e: Entry, b: Block): (r: Entry)
    ensures r.number == e.number && SlotOf(r, b.source) == Some(b)
    ensures forall s :: s != b.source ==> SlotOf(r, s) == SlotOf(e, s)
  {
    match b.source
    case Flash => e.(flash := Some(b))
    case Base => e.(base := Some(b))
  }

  predicate AllNumbered(s: seq<Block>) {
    forall i :: 0 <= i < |s| ==> s[i].number.Num?
  }

  predicate SortedDesc(s: seq<Block>)
    requires AllNumbered(s)
  {
    forall i, j :: 0 <= i < j < |s| ==> s[i].number.n >= s[j].number.n
  }

  // ---------------------------------------------------------------------
  // `sort((a, b) => b.number - a.number)`: a stable sort, highest number
  // first. Stability is not relied on below.

  function InsertDesc(b: Block, s: seq<Block>): (r: seq<Block>)
    requires b.number.Num? && AllNumbered(s)
    ensures AllNumbered(r)
    ensures |r| == |s| + 1
  {
    if s == [] || b.number.n >= s[0].number.n then [b] + s
    else [s[0]] + InsertDesc(b, s[1..])
  }

  function SortByNumberDesc(s: seq<Block>): (r: seq<Block>)
    requires AllNumbered(s)
    ensures AllNumbered(r)
    ensures |r| == |s|
  {
    if s == [] then [] else InsertDesc(s[0], SortByNumberDesc(s[1..]))
  }

  lemma {:induction false} InsertDescPermutes(b: Block, s: seq<Block>)
    requires b.number.Num? && AllNumbered(s)
    ensures multiset(InsertDesc(b, s)) == multiset(s) + multiset{b}
  {
    if s != [] && b.number.n < s[0].number.n {
      assert s == [s[0]] + s[1..];
      InsertDescPermutes(b, s[1..]);
    }
  }

  lemma {:induction false} InsertDescSorted(b: Block, s: seq<Block>)
    requires b.number.Num? && AllNumbered(s) && SortedDesc(s)
    ensures SortedDesc(InsertDesc(b, s))
  {
    if s != [] && b.number.n < s[0].number.n {
      var rest := InsertDesc(b, s[1..]);
      InsertDescSorted(b, s[1..]);
      InsertDescPermutes(b, s[1..]);
      forall k | 0 <= k < |rest| ensures rest[k].number.n <= s[0].number.n {
        assert rest[k] in multiset(rest);
        if rest[k] != b {
          assert rest[k] in s[1..];
        }
      }
    }
  }

  /** The sort puts the highest number first and only reorders. */
  lemma {:induction false} SortByNumberDescCorrect(s: seq<Block>)
    requires AllNumbered(s)
    ensures SortedDesc(SortByNumberDesc(s))
    ensures multiset(SortByNumberDesc(s)) == multiset(s)
  {
    if s != [] {
      assert s == [s[0]] + s[1..];
      SortByNumberDescCorrect(s[1..]);
      InsertDescSorted(s[0], SortByNumberDesc(s[1..]));
      InsertDescPermutes(s[0], SortByNumberDesc(s[1..]));
    }
  }

  // ---------------------------------------------------------------------
  // What the view is.

  ghost predicate StrictlyDesc(view: seq<Entry>) {
    && (forall i :: 0 <= i < |view| ==> view[i].number.Num?)
    && (forall i, j :: 0 <= i < j < |view| ==> view[i].number.n > view[j].number.n)
  }

  /** A filled slot holds a record of `blocks` from that slot's feed with the
      entry's number, and the entry is not empty. */
  ghost predicate EntryFrom(blocks: seq<Block>, e: Entry) {
    && (e.flash.Some? || e.base.Some?)
    && (e.flash.Some? ==> e.flash.value in blocks && e.flash.value.source == Flash && e.flash.value.number == e.number)
    && (e.base.Some? ==> e.base.value in blocks && e.base.value.source == Base && e.base.value.number == e.number)
  }

  ghost predicate SlotsFrom(blocks: seq<Block>, view: seq<Entry>) {
    forall i :: 0 <= i < |view| ==> EntryFrom(blocks, view[i])
  }

  /** The entry of `view` at `i` has `b`'s number and a record in `b`'s slot. */
  ghost predicate ShowsAt(view: seq<Entry>, i: int, b: Block) {
    0 <= i < |view| && view[i].number == b.number && SlotOf(view[i], b.source).Some?
  }

  ghost predicate Shows(view: seq<Entry>, b: Block) {
    exists i :: ShowsAt(view, i, b)
  }

  /** `b` has no place in a full view: five higher numbers fill it. */
  ghost predicate CrowdedOut(view: seq<Entry>, b: Block) {
    |view| == VIEW_LIMIT && StrictlyDesc(view) && b.number.Num? && b.number.n < view[VIEW_LIMIT - 1].number.n
  }

  /** The merged view of `blocks`: at most five entries with distinct numbers
      from the highest down, slots filled from `blocks`, and every record of
      `blocks` shown in its feed's slot unless five higher numbers fill the
      view. */
  ghost predicate IsMergedView(blocks: seq<Block>, view: seq<Entry>) {
    && |view| <= VIEW_LIMIT
    && StrictlyDesc(view)
    && SlotsFrom(blocks, view)
    && forall b :: b in blocks ==> Shows(view, b) || CrowdedOut(view, b)
  }

  // ---------------------------------------------------------------------
  // The computation.

  /** `acc.findIndex(item => item.number === number)`. */
  method FindIndex(acc: seq<Entry>, number: BlockNumber) returns (index: int)
    ensures -1 <= index < |acc|
    ensures index == -1 <==> forall i :: 0 <= i < |acc| ==> acc[i].number != number
    ensures index >= 0 ==> acc[index].number == number
    ensures forall i :: 0 <= i < index ==> acc[i].number != number
  {
    index := 0;
    while index < |acc|
      invariant 0 <= index <= |acc|
      invariant forall i :: 0 <= i < index ==> acc[i].number != number
    {
      if acc[index].number == number {
        return;
      }
      index := index + 1;
    }
    index := -1;
  }

  /** The invariant of the `reduce`: `acc` groups the first `i` sorted records. */
  ghost predicate Merges(sorted: seq<Block>, i: nat, acc: seq<Entry>) {
    && i <= |sorted|
    && StrictlyDesc(acc)
    && SlotsFrom(sorted, acc)
    && (forall j {:trigger Shows(acc, sorted[j])} :: 0 <= j < i ==> Shows(acc, sorted[j]))
    && (i == 0 <==> |acc| == 0)
    && (i > 0 ==> acc[|acc| - 1].number == sorted[i - 1].number)
  }

  /** `allBlocks`: concatenate, sort, group with `reduce`, keep five. */
  method MergeBlocks(flashBlocks: seq<Block>, baseBlocks: seq<Block>) returns (view: seq<Entry>)
    requires AllNumbered(flashBlocks + baseBlocks)
    ensures IsMergedView(flashBlocks + baseBlocks, view)
  {
    var all := flashBlocks + baseBlocks;
    var sorted := SortByNumberDesc(all);
    SortByNumberDescCorrect(all);
    var acc := GroupByNumber(sorted);
    view := acc[..Min(|acc|, VIEW_LIMIT)];
    CutKeepsView(all, sorted, acc, view);
  }

  /** The `reduce` over the sorted records, starting from the empty list. */
  method GroupByNumber(sorted: seq<Block>) returns (acc: seq<Entry>)
    requires AllNumbered(sorted) && SortedDesc(sorted)
    ensures Merges(sorted, |sorted|, acc)
  {
    acc := [];
    var i := 0;
    NothingGrouped(sorted);
    while i < |sorted|
      invariant Merges(sorted, i, acc)
    {
      acc := Group(sorted, i, acc);
      i := i + 1;
    }
  }

  /** The `reduce` starts from the empty list. */
  lemma NothingGrouped(sorted: seq<Block>)
    ensures Merges(sorted, 0, [])
  {
  }

  /** The `reduce` callback for the `i`-th sorted record: `findIndex` on the
      entry's number, then a new entry or this record in the found entry's
      slot for its feed. */
  method Group(sorted: seq<Block>, i: nat, acc: seq<Entry>) returns (acc': seq<Entry>)
    requires AllNumbered(sorted) && SortedDesc(sorted) && i < |sorted|
    requires Merges(sorted, i, acc)
    ensures Merges(sorted, i + 1, acc')
  {
    var block := sorted[i];
    var existing := FindIndex(acc, block.number);
    if existing == -1 {
      acc' := acc + [NewEntry(block)];
    } else {
      acc' := acc[existing := WithBlock(acc[existing], block)];
    }
    ReduceStep(sorted, i, acc, existing, acc');
  }

  /** One step of the `reduce` keeps its invariant: a number not yet grouped
      is pushed as a new last entry, a grouped one can only be the last
      entry and gets this record in its feed's slot. */
  lemma ReduceStep(sorted: seq<Block>, i: nat, acc: seq<Entry>, existing: int, acc': seq<Entry>)
    requires AllNumbered(sorted) && SortedDesc(sorted) && i < |sorted|
    requires Merges(sorted, i, acc)
    requires -1 <= existing < |acc|
    requires existing == -1 <==> forall k :: 0 <= k < |acc| ==> acc[k].number != sorted[i].number
    requires existing >= 0 ==> acc[existing].number == sorted[i].number
    requires acc' == if existing == -1 then acc + [NewEntry(sorted[i])]
                     else acc[existing := WithBlock(acc[existing], sorted[i])]
    ensures Merges(sorted, i + 1, acc')
  {
    if existing == -1 {
      PushStep(sorted, i, acc, acc');
    } else {
      UpdateStep(sorted, i, acc, existing, acc');
    }
  }

  lemma PushStep(sorted: seq<Block>, i: nat, acc: seq<Entry>, acc': seq<Entry>)
    requires AllNumbered(sorted) && SortedDesc(sorted) && i < |sorted|
    requires Merges(sorted, i, acc)
    requires forall k :: 0 <= k < |acc| ==> acc[k].number != sorted[i].number
    requires acc' == acc + [NewEntry(sorted[i])]
    ensures Merges(sorted, i + 1, acc')
  {
    var block := sorted[i];
    var last := |acc|;
    assert acc'[last] == NewEntry(block);
    forall k | 0 <= k < last ensures acc'[k] == acc[k] && acc[k].number.n > block.number.n {
      if 0 < i {
        assert acc[last - 1].number == sorted[i - 1].number;
        assert acc[k].number.n >= acc[last - 1].number.n;
      }
    }
    assert StrictlyDesc(acc');
    assert EntryFrom(sorted, acc'[last]);
    assert SlotsFrom(sorted, acc');
    forall j | 0 <= j < i + 1 ensures Shows(acc', sorted[j]) {
      if j < i {
        assert Shows(acc, sorted[j]);
        var k :| ShowsAt(acc, k, sorted[j]);
        assert ShowsAt(acc', k, sorted[j]);
      } else {
        assert ShowsAt(acc', last, sorted[j]);
      }
    }
  }

  lemma UpdateStep(sorted: seq<Block>, i: nat, acc: seq<Entry>, existing: nat, acc': seq<Entry>)
    requires AllNumbered(sorted) && SortedDesc(sorted) && i < |sorted|
    requires Merges(sorted, i, acc)
    requires existing < |acc| && acc[existing].number == sorted[i].number
    requires acc' == acc[existing := WithBlock(acc[existing], sorted[i])]
    ensures Merges(sorted, i + 1, acc')
  {
    OnlyLastMatches(sorted, i, acc, existing);
    assert forall k :: 0 <= k < |acc'| ==> acc'[k].number == acc[k].number;
    UpdateKeepsSlots(sorted, i, acc, existing, acc');
    UpdateKeepsShown(sorted, i, acc, existing, acc');
  }

  /** The sorted order puts equal numbers side by side, so the entry the
      `findIndex` finds is the last one pushed. */
  lemma OnlyLastMatches(sorted: seq<Block>, i: nat, acc: seq<Entry>, existing: nat)
    requires AllNumbered(sorted) && SortedDesc(sorted) && i < |sorted|
    requires Merges(sorted, i, acc)
    requires existing < |acc| && acc[existing].number == sorted[i].number
    ensures existing == |acc| - 1
  {
  }

  lemma UpdateKeepsSlots(sorted: seq<Block>, i: nat, acc: seq<Entry>, existing: nat, acc': seq<Entry>)
    requires i < |sorted| && SlotsFrom(sorted, acc)
    requires existing < |acc| && acc[existing].number == sorted[i].number
    requires acc' == acc[existing := WithBlock(acc[existing], sorted[i])]
    ensures SlotsFrom(sorted, acc')
  {
  }

  lemma UpdateKeepsShown(sorted: seq<Block>, i: nat, acc: seq<Entry>, existing: nat, acc': seq<Entry>)
    requires i < |sorted| && forall j :: 0 <= j < i ==> Shows(acc, sorted[j])
    requires existing < |acc| && acc[existing].number == sorted[i].number
    requires acc' == acc[existing := WithBlock(acc[existing], sorted[i])]
    ensures forall j :: 0 <= j < i + 1 ==> Shows(acc', sorted[j])
  {
    forall j | 0 <= j < i + 1 ensures Shows(acc', sorted[j]) {
      if j < i {
        assert Shows(acc, sorted[j]);
        var k :| ShowsAt(acc, k, sorted[j]);
        if k != existing {
          assert acc'[k] == acc[k];
        } else if sorted[j].source != sorted[i].source {
          assert SlotOf(acc'[k], sorted[j].source) == SlotOf(acc[k], sorted[j].source);
        }
        assert ShowsAt(acc', k, sorted[j]);
      } else {
        assert ShowsAt(acc', existing, sorted[j]);
      }
    }
  }

  /** Keeping the first five entries of the full grouping gives the view. */
  lemma CutKeepsView(all: seq<Block>, sorted: seq<Block>, acc: seq<Entry>, view: seq<Entry>)
    requires multiset(sorted) == multiset(all)
    requires Merges(sorted, |sorted|, acc)
    requires view == acc[..Min(|acc|, VIEW_LIMIT)]
    ensures IsMergedView(all, view)
  {
    assert StrictlyDesc(view);
    CutKeepsSlots(all, sorted, acc, view);
    CutKeepsShown(all, sorted, acc, view);
  }

  lemma CutKeepsSlots(all: seq<Block>, sorted: seq<Block>, acc: seq<Entry>, view: seq<Entry>)
    requires multiset(sorted) == multiset(all)
    requires SlotsFrom(sorted, acc)
    requires |view| <= |acc| && view == acc[..|view|]
    ensures SlotsFrom(all, view)
  {
    forall k | 0 <= k < |view| ensures EntryFrom(all, view[k]) {
      assert view[k] == acc[k] && EntryFrom(sorted, acc[k]);
      var e := acc[k];
      if e.flash.Some? {
        assert e.flash.value in multiset(sorted);
      }
      if e.base.Some? {
        assert e.base.value in multiset(sorted);
      }
    }
  }

  lemma CutKeepsShown(all: seq<Block>, sorted: seq<Block>, acc: seq<Entry>, view: seq<Entry>)
    requires multiset(sorted) == multiset(all)
    requires StrictlyDesc(acc) && forall j :: 0 <= j < |sorted| ==> Shows(acc, sorted[j])
    requires view == acc[..Min(|acc|, VIEW_LIMIT)]
    ensures forall b :: b in all ==> Shows(view, b) || CrowdedOut(view, b)
  {
    forall b | b in all ensures Shows(view, b) || CrowdedOut(view, b) {
      assert b in multiset(sorted);
      var j :| 0 <= j < |sorted| && sorted[j] == b;
      assert Shows(acc, sorted[j]);
      var k :| ShowsAt(acc, k, b);
      if k < |view| {
        assert ShowsAt(view, k, b);
      } else {
        assert acc[VIEW_LIMIT - 1].number.n > acc[k].number.n;
        assert StrictlyDesc(view);
      }
    }
  }

  /** With histories as the page keeps them (each record tagged with its own
      feed), an entry's fast-feed slot is filled whenever the fast history has
      a record with the entry's number; likewise for the reference feed. */
  lemma SlotsMatchHistories(flashBlocks: seq<Block>, baseBlocks: seq<Block>, view: seq<Entry>, i: int, b: Block)
    requires IsMergedView(flashBlocks + baseBlocks, view)
    requires forall k :: 0 <= k < |flashBlocks| ==> flashBlocks[k].source == Flash
    requires forall k :: 0 <= k < |baseBlocks| ==> baseBlocks[k].source == Base
    requires 0 <= i < |view| && view[i].number == b.number
    ensures b in flashBlocks ==> view[i].flash.Some?
    ensures b in baseBlocks ==> view[i].base.Some?
  {
    if b in flashBlocks + baseBlocks {
      ShownAtItsNumber(view, i, b);
    }
  }

  /** ... and a filled fast-feed slot holds a record of the fast history,
      a filled reference slot one of the reference history. */
  lemma SlotsFromHistories(flashBlocks: seq<Block>, baseBlocks: seq<Block>, view: seq<Entry>, i: int)
    requires IsMergedView(flashBlocks + baseBlocks, view)
    requires forall k :: 0 <= k < |flashBlocks| ==> flashBlocks[k].source == Flash
    requires forall k :: 0 <= k < |baseBlocks| ==> baseBlocks[k].source == Base
    requires 0 <= i < |view|
    ensures view[i].flash.Some? ==> view[i].flash.value in flashBlocks
    ensures view[i].base.Some? ==> view[i].base.value in baseBlocks
  {
    assert EntryFrom(flashBlocks + baseBlocks, view[i]);
  }

  /** In a view that shows `b` and has an entry with `b`'s number, that entry
      is the one that shows it. */
  lemma ShownAtItsNumber(view: seq<Entry>, i: int, b: Block)
    requires StrictlyDesc(view) && 0 <= i < |view| && view[i].number == b.number
    requires Shows(view, b) || CrowdedOut(view, b)
    ensures ShowsAt(view, i, b)
  {
  }
}

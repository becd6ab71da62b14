/** Each feed's bounded block history (`flashBlocks`, `baseBlocks`): newest
    first, at most five records, one record per block number
    (app/page.js:9-10, 59-65, 167-173). */
module History {
  import opened Blocks

  /** The length the page cuts each history to. */
  const HISTORY_LIMIT: nat := 5

  /** `history.some(block => block.number === number)`. `===` tells an
      integer from the `'Unknown'` string and two integers apart by value,
      which is equality of `BlockNumber`. */
  predicate HasNumber(history: seq<Block>, number: BlockNumber) {
    exists i :: 0 <= i < |history| && history[i].number == number
  }

  /** At most `HISTORY_LIMIT` records with pairwise distinct numbers. */
  predicate WellFormed(history: seq<Block>) {
    && |history| <= HISTORY_LIMIT
    && forall i, j :: 0 <= i < j < |history| ==> history[i].number != history[j].number
  }

  /** The state updater of either feed: a block whose number is already in
      the history is skipped; any other block goes in front and the list is
      cut to `HISTORY_LIMIT`. */
  function Insert(history: seq<Block>, block: Block): (r: seq<Block>)
    ensures HasNumber(history, block.number) ==> r == history
    ensures !HasNumber(history, block.number) ==>
              && |r| == Min(|history| + 1, HISTORY_LIMIT)
              && r[0] == block
              && r[1..] == history[..|r| - 1]
  {
    if HasNumber(history, block.number) then history
    else
      var grown := [block] + history;
      grown[..Min(|grown|, HISTORY_LIMIT)]
  }

  /** Insertion keeps a history well-formed, and its block's number is then
      in the history. */
  lemma InsertKeepsWellFormed(history: seq<Block>, block: Block)
    requires WellFormed(history)
    ensures WellFormed(Insert(history, block))
    ensures HasNumber(Insert(history, block), block.number)
  {
  }

  /** Delivering the same block a second time changes nothing. */
  lemma InsertIdempotent(history: seq<Block>, block: Block)
    ensures Insert(Insert(history, block), block) == Insert(history, block)
  {
  }

  /** On a full history, a new number pushes out exactly the oldest record. */
  lemma InsertEvictsOldest(history: seq<Block>, block: Block)
    requires |history| == HISTORY_LIMIT && !HasNumber(history, block.number)
    ensures Insert(history, block) == [block] + history[..HISTORY_LIMIT - 1]
  {
  }

  /** The histories the page reaches: insertions, one per message, starting
      from the empty list. */
  function InsertAll(history: seq<Block>, blocks: seq<Block>): seq<Block>
    decreases |blocks|
  {
    if blocks == [] then history
    else InsertAll(Insert(history, blocks[0]), blocks[1..])
  }

  /** Any run of insertions keeps a well-formed history well-formed. */
  lemma {:induction false} InsertAllWellFormed(history: seq<Block>, blocks: seq<Block>)
    requires WellFormed(history)
    ensures WellFormed(InsertAll(history, blocks))
    decreases |blocks|
  {
    if blocks != [] {
      InsertKeepsWellFormed(history, blocks[0]);
      InsertAllWellFormed(Insert(history, blocks[0]), blocks[1..]);
    }
  }

  /** Any run of insertions from the empty history leaves at most five
      records with pairwise distinct numbers. */
  lemma FromEmptyWellFormed(blocks: seq<Block>)
    ensures WellFormed(InsertAll([], blocks))
  {
    InsertAllWellFormed([], blocks);
  }
}

/** Canonical form: whatever was inserted and rolled back, the index is the replay of the surviving blocks. */
module Replay {
  import opened Wire
  import opened Storage

  /** The height the cursor stands at; -1 when nothing is indexed. */
  function Top(d: Database): int {
    if d.cursor.None? then -1 else d.cursor.value
  }

  /** What every committed database satisfies. */
  ghost predicate Good(d: Database) {
    Below(d.index, Top(d)) && Valid(d.index)
  }

  ghost predicate Ascending(blocks: seq<Block>) {
    forall i, j :: 0 <= i < j < |blocks| ==> blocks[i].height < blocks[j].height
  }

  ghost predicate Above(blocks: seq<Block>, h: int) {
    forall i :: 0 <= i < |blocks| ==> blocks[i].height > h
  }

  ghost predicate Within(blocks: seq<Block>, h: int) {
    forall i :: 0 <= i < |blocks| ==> blocks[i].height <= h
  }

  // ------------------------------------------------------- single insertions

  lemma InsertGood(d: Database, b: Block, p: Projections)
    requires Good(d) && InsertBlock(d, b, p).Ok?
    ensures var d' := InsertBlock(d, b, p).value;
      && Good(d') && Top(d') == (if Top(d) < b.height then b.height else Top(d))
      && d'.index == InsertIndex(d.index, b, p)
      && d'.index.history.blocks == StoreHeader(d.index.history.blocks, b)
      && d'.hooks == d.hooks
  {
    hide InsertIndex, Below, Valid;
    var H := if Top(d) < b.height then b.height else Top(d);
    RaiseBelow(d.index, Top(d), H);
    InsertIndexBelow(d.index, b, p, H);
  }

  lemma RaiseBelow(x: Index, h: int, H: int)
    requires Below(x, h) && h <= H
    ensures Below(x, H)
  {}

  lemma EmptyGood()
    ensures Good(EMPTY)
  {}

  lemma RollbackGood(d: Database, H: int)
    requires Good(d) && H >= -1
    ensures Good(Rollback(d, H)) && Top(Rollback(d, H)) == H
  {
    hide KeepIndex, Below, Valid;
    KeepBelow(d.index, Top(d), H);
  }

  /**
   * Rolling back undoes an insertion exactly - rows, cursor and hooks - if and only if the block
   * did not newly flag a surviving block as disputed: that flag is the one thing `rollback_to`
   * does not take back.
   */
  lemma RollbackUndoesInsert(d: Database, b: Block, p: Projections, H: int)
    requires Good(d) && InsertBlock(d, b, p).Ok? && H < b.height
    ensures Rollback(InsertBlock(d, b, p).value, H) == Rollback(d, H)
      <==> forall h :: h in Disputes(b) && h in d.index.history.blocks && h <= H ==> h in d.disputed
  {
    hide InsertIndex, KeepIndex, Below;
    var d' := InsertBlock(d, b, p).value;
    InsertGood(d, b, p);
    InsertIndexKeep(d.index, b, p, H);
    var s, s' := Rollback(d, H).disputed, Rollback(d', H).disputed;
    if s' == s {
      forall h | h in Disputes(b) && h in d.index.history.blocks && h <= H
        ensures h in d.disputed
      {
        assert h in d'.disputed;
        assert h in s';
      }
    }
  }

  /** The flag left behind: block 1 disputes block 0, then is rolled back. */
  lemma DisputeSurvivesRollback(p: Projections) returns (d: Database, b: Block)
    ensures Good(d) && InsertBlock(d, b, p).Ok? && b.height == Top(d) + 1
    ensures Rollback(InsertBlock(d, b, p).value, Top(d)).disputed != d.disputed
  {
    hide InsertIndex, KeepIndex, Below, Valid;
    var genesis := Block(0, "a", "", 0, None, 0, [], None);
    var effects := BlockEffects([], [], [], [], [], None, [], [], [], [], [], [], [], [0]);
    b := Block(1, "bb", "a", 0, None, 0, [], Some(effects));
    d := InsertBlock(EMPTY, genesis, p).value;
    EmptyGood();
    InsertGood(EMPTY, genesis, p);
    InsertGood(d, b, p);
    assert effects.disputedBlocks[0] == 0 && 0 in Disputes(b);
    assert 0 in Rollback(InsertBlock(d, b, p).value, Top(d)).disputed;
  }

  // ------------------------------------------------------------ transactions

  lemma InsertAllAppend(d: Database, xs: seq<Block>, ys: seq<Block>, p: Projections)
    ensures InsertAll(d, xs + ys, p) ==
      match InsertAll(d, xs, p) { case Err(e) => Err(e) case Ok(d') => InsertAll(d', ys, p) }
    decreases |ys|
  {
    if ys == [] {
      assert xs + ys == xs;
    } else {
      assert (xs + ys)[..|xs + ys| - 1] == xs + ys[..|ys| - 1];
      InsertAllAppend(d, xs, ys[..|ys| - 1], p);
    }
  }

  /** A transaction's rows depend only on the rows it starts from. */
  lemma InsertAllSameIndex(d: Database, e: Database, blocks: seq<Block>, p: Projections)
    requires d.index == e.index
    ensures InsertAll(d, blocks, p).Ok? <==> InsertAll(e, blocks, p).Ok?
    ensures InsertAll(d, blocks, p).Ok? ==> InsertAll(d, blocks, p).value.index == InsertAll(e, blocks, p).value.index
  {
    hide InsertIndex;
  }

  lemma InsertAllGood(d: Database, blocks: seq<Block>, p: Projections)
    requires Good(d) && Ascending(blocks) && Above(blocks, Top(d)) && InsertAll(d, blocks, p).Ok?
    ensures var d' := InsertAll(d, blocks, p).value;
      && Good(d') && Top(d') == (if blocks == [] then Top(d) else blocks[|blocks| - 1].height)
      && d'.hooks == d.hooks
      && d'.index.history.blocks.Keys == d.index.history.blocks.Keys + (set i | 0 <= i < |blocks| :: blocks[i].height as int)
  {
    hide InsertIndex, KeepIndex, Below, Valid;
    if blocks != [] {
      var front, last := blocks[..|blocks| - 1], blocks[|blocks| - 1];
      InsertAllGood(d, front, p);
      InsertGood(InsertAll(d, front, p).value, last, p);
      assert forall i :: 0 <= i < |front| ==> blocks[i] == front[i];
    }
  }

  // ---------------------------------------------------------- canonical form

  datatype Op = Insert(blocks: seq<Block>) | RollbackTo(height: int)

  function Apply(d: Database, op: Op, p: Projections): Result<Database> {
    match op
    case Insert(blocks) => InsertAll(d, blocks, p)
    case RollbackTo(h) => Ok(Rollback(d, h))
  }

  function RunOps(ops: seq<Op>, p: Projections): Result<Database> {
    if ops == [] then Ok(EMPTY)
    else match RunOps(ops[..|ops| - 1], p)
      case Err(e) => Err(e)
      case Ok(d) => Apply(d, ops[|ops| - 1], p)
  }

  /** Blocks come in ascending order above the cursor; a rollback goes to -1 or higher. */
  ghost predicate Allowed(d: Database, op: Op) {
    match op
    case Insert(blocks) => Ascending(blocks) && Above(blocks, Top(d))
    case RollbackTo(h) => h >= -1
  }

  ghost predicate AllowedRun(ops: seq<Op>, p: Projections) {
    ops == [] ||
    (AllowedRun(ops[..|ops| - 1], p)
     && (RunOps(ops[..|ops| - 1], p).Ok? ==> Allowed(RunOps(ops[..|ops| - 1], p).value, ops[|ops| - 1])))
  }

  /** Every rollback goes below genesis or to a height that is stored when it happens. */
  ghost predicate TargetsStored(ops: seq<Op>, p: Projections) {
    ops == [] ||
    (TargetsStored(ops[..|ops| - 1], p)
     && (RunOps(ops[..|ops| - 1], p).Ok? && ops[|ops| - 1].RollbackTo? ==>
           var h := ops[|ops| - 1].height;
           h < 0 || h in RunOps(ops[..|ops| - 1], p).value.index.history.blocks))
  }

  /** The blocks up to `H` of an ascending list. */
  function Upto(blocks: seq<Block>, H: int): (r: seq<Block>)
    ensures r <= blocks && (r == [] || r[|r| - 1].height <= H)
    ensures |r| < |blocks| ==> blocks[|r|].height > H
  {
    if blocks == [] || blocks[|blocks| - 1].height <= H then blocks else Upto(blocks[..|blocks| - 1], H)
  }

  function Survivors(ops: seq<Op>): seq<Block> {
    if ops == [] then []
    else
      var live := Survivors(ops[..|ops| - 1]);
      match ops[|ops| - 1]
      case Insert(blocks) => live + blocks
      case RollbackTo(h) => Upto(live, h)
  }

  lemma {:induction false} ReplayKeep(live: seq<Block>, H: int, p: Projections)
    requires Ascending(live) && InsertAll(EMPTY, live, p).Ok? && H >= -1
    ensures var r := InsertAll(EMPTY, Upto(live, H), p);
      r.Ok? && r.value.index == KeepIndex(InsertAll(EMPTY, live, p).value.index, H)
  {
    hide InsertIndex, KeepIndex, Below, Valid;
    EmptyGood();
    var d := InsertAll(EMPTY, live, p).value;
    InsertAllGood(EMPTY, live, p);
    if live == [] || live[|live| - 1].height <= H {
      RaiseBelow(d.index, Top(d), H);
      KeepAll(d.index, H);
    } else {
      var front, last := live[..|live| - 1], live[|live| - 1];
      var d' := InsertAll(EMPTY, front, p).value;
      InsertAllGood(EMPTY, front, p);
      InsertIndexKeep(d'.index, last, p, H);
      ReplayKeep(front, H, p);
    }
  }

  /** `d` holds what inserting `live` into an empty index would have written. */
  ghost predicate Replays(d: Database, live: seq<Block>, p: Projections) {
    && Good(d) && Ascending(live) && Within(live, Top(d))
    && InsertAll(EMPTY, live, p).Ok? && InsertAll(EMPTY, live, p).value.index == d.index
  }

  ghost predicate SameCursor(d: Database, live: seq<Block>, p: Projections) {
    InsertAll(EMPTY, live, p).Ok? && InsertAll(EMPTY, live, p).value.cursor == d.cursor
  }

  lemma AppendAscends(live: seq<Block>, blocks: seq<Block>, top: int, top': int)
    requires Ascending(live) && Within(live, top) && Ascending(blocks) && Above(blocks, top)
    requires top' == if blocks == [] then top else blocks[|blocks| - 1].height
    ensures Ascending(live + blocks) && Within(live + blocks, top')
  {}

  lemma ReplaysAre(d: Database, live: seq<Block>, p: Projections)
    ensures Replays(d, live, p) <==> (
      && Good(d) && Ascending(live) && Within(live, Top(d))
      && InsertAll(EMPTY, live, p).Ok? && InsertAll(EMPTY, live, p).value.index == d.index)
  {}

  lemma InsertReplays(d: Database, live: seq<Block>, blocks: seq<Block>, p: Projections)
    requires Replays(d, live, p) && Ascending(blocks) && Above(blocks, Top(d)) && InsertAll(d, blocks, p).Ok?
    ensures var d' := InsertAll(d, blocks, p).value;
      Replays(d', live + blocks, p) && (SameCursor(d, live, p) ==> SameCursor(d', live + blocks, p))
  {
    hide InsertAll, Good, Replays, Ascending, Within, Above, Top;
    var d' := InsertAll(d, blocks, p).value;
    ReplaysAre(d, live, p);
    ReplaysAre(d', live + blocks, p);
    InsertAllSameIndex(d, InsertAll(EMPTY, live, p).value, blocks, p);
    InsertAllAppend(EMPTY, live, blocks, p);
    InsertAllGood(d, blocks, p);
    AppendAscends(live, blocks, Top(d), Top(d'));
    CursorAfter(d, blocks, p);
    CursorOf(live, p);
    CursorOf(live + blocks, p);
  }

  /** The same for one block. */
  lemma ExtendReplays(d: Database, live: seq<Block>, b: Block, p: Projections)
    requires Replays(d, live, p) && b.height > Top(d) && InsertBlock(d, b, p).Ok?
    ensures InsertAll(d, [b], p) == InsertBlock(d, b, p)
    ensures Replays(InsertBlock(d, b, p).value, live + [b], p)
  {
    hide InsertBlock, Replays, Top;
    assert [b][..0] == [] && InsertAll(d, [], p) == Ok(d);
    InsertReplays(d, live, [b], p);
  }

  lemma RollbackReplays(d: Database, live: seq<Block>, H: int, p: Projections)
    requires Replays(d, live, p) && H >= -1
    ensures Replays(Rollback(d, H), Upto(live, H), p)
    ensures SameCursor(Rollback(d, H), Upto(live, H), p) <==> H < 0 || H in d.index.history.blocks
  {
    hide InsertIndex, KeepIndex, Below, Valid;
    RollbackGood(d, H);
    ReplayKeep(live, H, p);
    RollbackCursor(d, live, H, p);
  }

  /**
   * The canonical form. After any mix of transactions and rollbacks, every table is what
   * inserting the surviving blocks alone into an empty index would have written, even though
   * first-wins keys without a height may have swallowed actions along the way. The cursor is
   * the replay's too, as long as rollbacks go to stored heights or below genesis.
   */
  lemma {:induction false} CanonicalForm(ops: seq<Op>, p: Projections)
    requires AllowedRun(ops, p) && RunOps(ops, p).Ok?
    ensures Replays(RunOps(ops, p).value, Survivors(ops), p)
    ensures TargetsStored(ops, p) ==> SameCursor(RunOps(ops, p).value, Survivors(ops), p)
  {
    hide InsertIndex, KeepIndex, Below, Valid, Replays, SameCursor, InsertBlock, Rollback;
    if ops == [] {
      EmptyReplays(p);
    } else {
      var front, op := ops[..|ops| - 1], ops[|ops| - 1];
      CanonicalForm(front, p);
      var d := RunOps(front, p).value;
      match op {
        case Insert(blocks) => InsertReplays(d, Survivors(front), blocks, p);
        case RollbackTo(h) => RollbackReplays(d, Survivors(front), h, p);
      }
    }
  }

  lemma EmptyReplays(p: Projections)
    ensures Replays(EMPTY, [], p) && SameCursor(EMPTY, [], p)
  {
    EmptyGood();
  }

  lemma CursorOf(live: seq<Block>, p: Projections)
    requires Ascending(live) && InsertAll(EMPTY, live, p).Ok?
    ensures InsertAll(EMPTY, live, p).value.cursor == if live == [] then None else Some(live[|live| - 1].height)
  {
    hide InsertIndex, KeepIndex, Below, Valid;
    EmptyGood();
    CursorAfter(EMPTY, live, p);
  }

  lemma CursorAfter(d: Database, blocks: seq<Block>, p: Projections)
    requires Good(d) && Ascending(blocks) && Above(blocks, Top(d)) && InsertAll(d, blocks, p).Ok?
    ensures InsertAll(d, blocks, p).value.cursor == if blocks == [] then d.cursor else Some(blocks[|blocks| - 1].height)
  {
    hide InsertIndex, KeepIndex, Below, Valid;
    InsertAllGood(d, blocks, p);
    if blocks != [] {
      InsertAllGood(d, blocks[..|blocks| - 1], p);
    }
  }

  /** The cursor after a rollback is the replay's cursor exactly when the target is stored or below genesis. */
  lemma RollbackCursor(d: Database, live: seq<Block>, H: int, p: Projections)
    requires Good(d) && Ascending(live) && H >= -1
    requires InsertAll(EMPTY, live, p).Ok? && InsertAll(EMPTY, live, p).value.index == d.index
    ensures InsertAll(EMPTY, Upto(live, H), p).Ok?
    ensures Rollback(d, H).cursor == InsertAll(EMPTY, Upto(live, H), p).value.cursor
      <==> H < 0 || H in d.index.history.blocks
  {
    hide InsertIndex, KeepIndex, Below, Valid;
    EmptyGood();
    var kept := Upto(live, H);
    ReplayKeep(live, H, p);
    CursorOf(kept, p);
    InsertAllGood(EMPTY, live, p);
    UptoHolds(live, H);
  }

  lemma UptoHolds(live: seq<Block>, H: int)
    requires Ascending(live)
    ensures (exists i :: 0 <= i < |live| && live[i].height == H)
      <==> Upto(live, H) != [] && Upto(live, H)[|Upto(live, H)| - 1].height == H
  {
    var kept := Upto(live, H);
    if i :| 0 <= i < |live| && live[i].height == H {
      assert kept[i] == live[i] && kept[|kept| - 1] == live[|kept| - 1];
    }
  }
}

/** Exactly which runs acknowledge everything up to the hook's cursor, whatever commits and whatever is rolled back. */
module Exact {
  import opened Wire
  import opened Storage
  import opened Store
  import opened Replay
  import opened Rows
  import opened RangeRead
  import opened Broadcast
  import Webhooks
  import opened Dispatch
  import opened Sessions

  /**
   * Recording the block passes nothing over: what is stored above the hook's own cursor up to the
   * block, other than what was just posted of it, was acknowledged.
   */
  ghost predicate NothingPassed(w: World, start: int, hook: Hook, p: Projections)
    requires AtBlock(w) && Housed(w.db.index.history) && hook.id in w.db.hooks
  {
    var row := w.phase.page[w.phase.i];
    forall g, q ::
      && start < g && w.db.hooks[hook.id] < g <= row.height && 0 <= q < |OwedAt(w.db, g, hook, p)|
      && !(g == row.height && q < |Deliveries(hook, row, p)|) ==>
      AckedAt(w.acked, g, HashAt(w.db, g), q)
  }

  /** What the commit adds at or below the hook's cursor was acknowledged before. */
  ghost predicate NothingAdded(w: World, e: Database, start: int, hook: Hook, p: Projections)
    requires Housed(w.db.index.history) && Housed(e.index.history)
  {
    hook.id in w.db.hooks ==>
      forall g, q :: start < g <= w.db.hooks[hook.id] && |OwedAt(w.db, g, hook, p)| <= q < |OwedAt(e, g, hook, p)| ==>
        AckedAt(w.acked, g, HashAt(e, g), q)
  }

  /** The two ways a move can leave something behind the hook's cursor, and neither happens. */
  ghost predicate Clean(w: World, m: Move, start: int, hook: Hook, p: Projections)
    requires Readable(w.db) && Enabled(w, m, hook, p)
  {
    ReadableHouses(w.db);
    match m
    case Record =>
      var row := w.phase.page[w.phase.i];
      Webhooks.Lands(w.db, hook.id, row.height, row.hash) ==> NothingPassed(w, start, hook, p)
    case Insert(blocks) =>
      InsertAllReads(w.db, blocks, p);
      ReadableHouses(InsertAll(w.db, blocks, p).value);
      NothingAdded(w, InsertAll(w.db, blocks, p).value, start, hook, p)
    case _ => true
  }

  ghost predicate PhaseAcked(w: World, hook: Hook, p: Projections) {
    AtBlock(w) ==>
      w.phase.j <= |Deliveries(hook, w.phase.page[w.phase.i], p)| && PostedUpto(w.acked, w.phase.page[w.phase.i], w.phase.j)
  }

  /** The block about to be recorded was posted in full: what is done up to it is what it does not pass over. */
  lemma LandedExact(w: World, start: int, hook: Hook, p: Projections)
    requires AtBlock(w) && Housed(w.db.index.history) && HookDone(w, start, hook, p)
    requires PostedUpto(w.acked, w.phase.page[w.phase.i], |Deliveries(hook, w.phase.page[w.phase.i], p)|)
    requires var row := w.phase.page[w.phase.i]; Webhooks.Lands(w.db, hook.id, row.height, row.hash)
    ensures Done(w, w.phase.page[w.phase.i].height, start, hook, p) <==> NothingPassed(w, start, hook, p)
  {
    hide Deliveries, OwedAt, AckedAt, Housed;
    var row := w.phase.page[w.phase.i];
    if NothingPassed(w, start, hook, p) {
      forall g, q | start < g <= row.height && 0 <= q < |OwedAt(w.db, g, hook, p)|
        ensures AckedAt(w.acked, g, HashAt(w.db, g), q)
      {
        if g > w.db.hooks[hook.id] && g == row.height && q < |Deliveries(hook, row, p)| {
          assert AckedAt(w.acked, row.height, Some(row.hash), q);
        }
      }
    }
  }

  lemma RecordExact(w: World, start: int, hook: Hook, p: Projections)
    requires Readable(w.db) && Housed(w.db.index.history) && HookDone(w, start, hook, p) && PhaseAcked(w, hook, p)
    requires Enabled(w, Record, hook, p)
    ensures var v := Next(w, Record, hook, p);
      Readable(v.db) && Housed(v.db.index.history) && (HookDone(v, start, hook, p) <==> Clean(w, Record, start, hook, p))
  {
    hide Readable, Deliveries, Done, Housed, HashAt, NothingPassed, PostedUpto;
    var row := w.phase.page[w.phase.i];
    var e := Webhooks.Delivered(w.db, hook.id, row.height, row.hash);
    HooksOnly(w.db, e.hooks);
    ReadableHouses(e);
    SameHooksDone(w, Next(w, Record, hook, p), start, hook, p);
    if Webhooks.Lands(w.db, hook.id, row.height, row.hash) { LandedExact(w, start, hook, p); }
  }

  lemma SameHooksDone(w: World, v: World, start: int, hook: Hook, p: Projections)
    requires Housed(w.db.index.history) && v.db == w.db.(hooks := v.db.hooks) && v.acked == w.acked
    ensures Housed(v.db.index.history) && forall c :: Done(v, c, start, hook, p) <==> Done(w, c, start, hook, p)
  {
    hide OwedAt, AckedAt, HashAt;
    forall g ensures OwedAt(v.db, g, hook, p) == OwedAt(w.db, g, hook, p) && HashAt(v.db, g) == HashAt(w.db, g) {
      SameHooksOwed(w.db, v.db.hooks, g, hook, p);
    }
    forall c ensures Done(v, c, start, hook, p) <==> Done(w, c, start, hook, p) {}
  }

  lemma SameHooksOwed(d: Database, hooks: map<nat, int>, g: int, hook: Hook, p: Projections)
    requires Housed(d.index.history)
    ensures Housed(d.(hooks := hooks).index.history) && OwedAt(d.(hooks := hooks), g, hook, p) == OwedAt(d, g, hook, p)
    ensures HashAt(d.(hooks := hooks), g) == HashAt(d, g)
  {
    hide Deliveries, GetBlock;
    SameHooksRead(d, hooks);
  }

  lemma InsertExact(w: World, blocks: seq<Block>, start: int, hook: Hook, p: Projections)
    requires Readable(w.db) && Housed(w.db.index.history) && HookDone(w, start, hook, p)
    requires Enabled(w, Move.Insert(blocks), hook, p)
    ensures var v := Next(w, Move.Insert(blocks), hook, p);
      && Readable(v.db) && Housed(v.db.index.history)
      && (HookDone(v, start, hook, p) <==> Clean(w, Move.Insert(blocks), start, hook, p))
  {
    hide Readable, Deliveries, AckedAt, Housed, InsertAll, HashAt, OwedAt;
    var e := InsertAll(w.db, blocks, p).value;
    InsertAllReads(w.db, blocks, p);
    ReadableHouses(e);
    if hook.id in w.db.hooks && NothingAdded(w, e, start, hook, p) {
      forall g, q | start < g <= w.db.hooks[hook.id] && 0 <= q < |OwedAt(e, g, hook, p)|
        ensures AckedAt(w.acked, g, HashAt(e, g), q)
      {
        if q < |OwedAt(w.db, g, hook, p)| { OwedIsStored(w.db, g, hook, p); }
      }
    }
  }

  lemma RollExact(w: World, H: int, start: int, hook: Hook, p: Projections)
    requires Readable(w.db) && Housed(w.db.index.history) && HookDone(w, start, hook, p) && H >= -1
    ensures var e := Rollback(w.db, H);
      Readable(e) && Housed(e.index.history) && HookDone(w.(db := e), start, hook, p)
  {
    hide GetBlock, Housed, Good, OwnSignatures, DroppedHoused, Done, KeepIndex;
    var e := Rollback(w.db, H);
    RollbackReadable(w.db, H);
    forall g ensures Content(GetBlock(e, g)) == if g <= H then Content(GetBlock(w.db, g)) else None { RollbackReads(w.db, H, g); }
    if hook.id in w.db.hooks {
      var c := w.db.hooks[hook.id];
      assert ReadsUpto(w.db, e, start, if c > H then H else c);
      DoneStays(w, e, c, if c > H then H else c, start, hook, p);
    }
  }

  /** One move: everything up to the hook's cursor is acknowledged after it if and only if the move is clean. */
  lemma MoveExact(w: World, m: Move, start: int, hook: Hook, p: Projections)
    requires Readable(w.db) && Housed(w.db.index.history) && HookDone(w, start, hook, p) && PhaseAcked(w, hook, p)
    requires Enabled(w, m, hook, p)
    ensures var v := Next(w, m, hook, p);
      && Readable(v.db) && Housed(v.db.index.history) && PhaseAcked(v, hook, p)
      && (HookDone(v, start, hook, p) <==> Clean(w, m, start, hook, p))
  {
    hide Readable, Deliveries, Done, Housed, InsertAll, Rollback, PostedUpto, Page;
    NextAcked(w, m, hook, p);
    match m {
      case Record => RecordExact(w, start, hook, p);
      case Insert(blocks) => InsertExact(w, blocks, start, hook, p);
      case RollTo(H) => RollExact(w, H, start, hook, p);
      case _ => SameDone(w, Next(w, m, hook, p), start, hook, p);
    }
  }

  lemma NextAcked(w: World, m: Move, hook: Hook, p: Projections)
    requires Housed(w.db.index.history) && PhaseAcked(w, hook, p) && Enabled(w, m, hook, p)
    ensures PhaseAcked(Next(w, m, hook, p), hook, p)
  {
    hide Deliveries, Housed, InsertAll, Rollback, AckedAt, Page;
    if m.Post? && m.accepted {
      var row := w.phase.page[w.phase.i];
      PostedOneMore(w.acked, row, w.phase.j, Deliveries(hook, row, p)[w.phase.j]);
    }
  }

  ghost predicate CleanRun(w: World, moves: seq<Move>, start: int, hook: Hook, p: Projections) {
    moves == [] ||
    (CleanRun(w, moves[..|moves| - 1], start, hook, p)
     && var v := Run(w, moves[..|moves| - 1], hook, p);
        Readable(v.db) && Enabled(v, moves[|moves| - 1], hook, p) ==> Clean(v, moves[|moves| - 1], start, hook, p))
  }

  ghost predicate DoneIn(v: World, start: int, hook: Hook, p: Projections) {
    Housed(v.db.index.history) && HookDone(v, start, hook, p)
  }

  /** After every move of the run everything up to the hook's cursor was acknowledged. */
  ghost predicate AlwaysDone(w: World, moves: seq<Move>, start: int, hook: Hook, p: Projections) {
    forall n :: 0 <= n <= |moves| ==> DoneIn(Run(w, moves[..n], hook, p), start, hook, p)
  }

  /**
   * Exactly when nothing is skipped. Over every run of dispatcher, commits at any heights and
   * rollbacks to any, finality or not: everything up to the hook's cursor is acknowledged all along
   * if and only if every move is clean - no record passes over a stored block something of which
   * was not acknowledged, and no commit adds something to owe at or below the hook's cursor.
   */
  lemma {:induction false} ExactDelivery(w: World, moves: seq<Move>, start: int, hook: Hook, p: Projections)
    requires Readable(w.db) && DoneIn(w, start, hook, p) && PhaseAcked(w, hook, p)
    ensures AlwaysDone(w, moves, start, hook, p) <==> CleanRun(w, moves, start, hook, p)
    ensures CleanRun(w, moves, start, hook, p) ==> var v := Run(w, moves, hook, p);
      Readable(v.db) && DoneIn(v, start, hook, p) && PhaseAcked(v, hook, p)
  {
    hide Readable, Next, Enabled, HookDone, Clean, PhaseAcked, Housed;
    if moves == [] {
      assert forall n :: 0 <= n <= |moves| ==> moves[..n] == [];
      RunNone(w, hook, p);
    } else {
      var last := |moves| - 1;
      var front, m := moves[..last], moves[last];
      ExactDelivery(w, front, start, hook, p);
      assert forall n :: 0 <= n <= last ==> front[..n] == moves[..n];
      assert moves[..|moves|] == moves;
      assert AlwaysDone(w, moves, start, hook, p) <==>
        AlwaysDone(w, front, start, hook, p) && DoneIn(Run(w, moves, hook, p), start, hook, p);
      if CleanRun(w, front, start, hook, p) {
        var v := Run(w, front, hook, p);
        if Enabled(v, m, hook, p) { MoveExact(v, m, start, hook, p); }
      }
    }
  }

  // ------------------------------------------------------------ a filled hole

  /**
   * What a commit below the hook's cursor costs, told from the block before it is committed: a
   * block that fills a height not stored, between the registration and the cursor, and nothing of
   * which was acknowledged earlier, leaves everything acknowledged if and only if the hook wants
   * nothing of it.
   */
  lemma HoleFilled(w: World, b: Block, start: int, hook: Hook, p: Projections)
    requires Readable(w.db) && DoneIn(w, start, hook, p) && InsertBlock(w.db, b, p).Ok?
    requires hook.id in w.db.hooks && start < b.height <= w.db.hooks[hook.id] && b.height !in w.db.index.history.blocks
    requires FreshIdentities(w.db.index.history, b) && DistinctSignatures(b)
    requires forall k :: 0 <= k < |w.acked| ==> !(w.acked[k].height == b.height && w.acked[k].hash == b.hash)
    ensures DoneIn(w.(db := InsertBlock(w.db, b, p).value), start, hook, p) <==> Deliveries(hook, RowFromWire(b), p) == []
  {
    hide Good, OwnSignatures, DroppedHoused, Housed, GetBlock, InsertIndex, HookDone, NothingAdded, Deliveries;
    hide FreshIdentities, DistinctSignatures;
    var e := InsertBlock(w.db, b, p).value;
    InsertOne(w.db, b, p);
    InsertReadable(w.db, b, p);
    InsertExact(w, [b], start, hook, p);
    FilledOwes(w.db, b, hook, p);
    AddedIs(w, b, start, hook, p);
  }

  lemma AddedIs(w: World, b: Block, start: int, hook: Hook, p: Projections)
    requires Readable(w.db) && InsertBlock(w.db, b, p).Ok?
    requires hook.id in w.db.hooks && start < b.height <= w.db.hooks[hook.id] && b.height !in w.db.index.history.blocks
    requires forall k :: 0 <= k < |w.acked| ==> !(w.acked[k].height == b.height && w.acked[k].hash == b.hash)
    ensures var e := InsertBlock(w.db, b, p).value;
      Housed(w.db.index.history) && Housed(e.index.history)
      && (NothingAdded(w, e, start, hook, p) <==> OwedAt(e, b.height, hook, p) == [])
  {
    hide Good, OwnSignatures, DroppedHoused, Housed, GetBlock, InsertIndex, OwedAt;
    var e := InsertBlock(w.db, b, p).value;
    InsertReadable(w.db, b, p);
    NothingOwed(w.db, b.height, hook, p);
    assert HashAt(e, b.height) == Some(b.hash);
    forall g | g != b.height ensures OwedAt(e, g, hook, p) == OwedAt(w.db, g, hook, p) {
      InsertReads(w.db, b, p, g);
      ContentOwed(w.db, e, g, hook, p);
    }
    assert forall q :: !AckedAt(w.acked, b.height, HashAt(e, b.height), q);
    assert NothingAdded(w, e, start, hook, p) && OwedAt(e, b.height, hook, p) != [] ==>
      AckedAt(w.acked, b.height, HashAt(e, b.height), 0);
  }

  lemma FilledOwes(d: Database, b: Block, hook: Hook, p: Projections)
    requires Readable(d) && InsertBlock(d, b, p).Ok? && b.height !in d.index.history.blocks
    requires FreshIdentities(d.index.history, b) && DistinctSignatures(b)
    ensures var e := InsertBlock(d, b, p).value;
      Housed(e.index.history) && (OwedAt(e, b.height, hook, p) == [] <==> Deliveries(hook, RowFromWire(b), p) == [])
  {
    hide Good, OwnSignatures, DroppedHoused, Housed, GetBlock, InsertBlock, Deliveries, FreshIdentities, DistinctSignatures;
    BroadcastAgrees(d, b, p);
    var row, wire := GetBlock(InsertBlock(d, b, p).value, b.height).value, RowFromWire(b);
    SameWanted(hook, row, wire, p);
  }

  lemma SameWanted(hook: Hook, a: BlockRow, b: BlockRow, p: Projections)
    requires a.actions == b.actions && multiset(a.dropped) == multiset(b.dropped) && a.timestamp == b.timestamp
    ensures Deliveries(hook, a, p) == [] <==> Deliveries(hook, b, p) == []
  {
    hide Deliveries, Involves;
    assert forall v :: v in a.dropped <==> v in multiset(a.dropped);
    forall x ensures x in Deliveries(hook, a, p) <==> x in Deliveries(hook, b, p) {
      DeliveriesAreWanted(hook, a, p, x);
      DeliveriesAreWanted(hook, b, p, x);
    }
    if Deliveries(hook, a, p) != [] { assert Deliveries(hook, a, p)[0] in Deliveries(hook, b, p); }
    if Deliveries(hook, b, p) != [] { assert Deliveries(hook, b, p)[0] in Deliveries(hook, a, p); }
  }
}

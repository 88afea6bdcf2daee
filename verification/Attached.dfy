/** Where the loop commits: above its cursor, until a fork takes it back to a height that is not stored. */
module Attached {
  import opened Wire
  import opened Storage
  import opened Store
  import opened TipRules
  import opened Indexer
  import Replay
  import Pipeline

  /** The tip is the block the cursor stands on; with no tip there is no cursor. */
  predicate OnCursor(s: Loop) {
    match s.tip
    case None => s.db.cursor.None?
    case Some(t) => s.db.cursor == Some(t.height)
  }

  /** The arrival is a fork back to a height that is not stored. */
  predicate OverHole(s: Loop, a: Arrival, depth: nat) {
    match ActionOf(s, a, depth)
    case Fork(h) => h >= 0 && h !in s.db.index.history.blocks
    case _ => false
  }

  predicate Accepts(s: Loop, a: Arrival, depth: nat) {
    ActionOf(s, a, depth).Extend? || ActionOf(s, a, depth).Gap?
  }

  /** A loop as a process starts it is attached if and only if the block its cursor names is stored. */
  lemma StartAttached(d: Database)
    ensures OnCursor(Loop(DurableTip(d), None, d, [], [])) <==> d.cursor.None? || d.cursor.value in d.index.history.blocks
  {}

  /** Attached, the loop commits above its cursor only, and stays attached unless it forks over a hole. */
  lemma StepAttached(s: Loop, a: Arrival, depth: nat, p: Projections)
    requires OnCursor(s) && Step(s, a, depth, p).Ok?
    ensures Accepts(s, a, depth) ==> a.block.height > Replay.Top(s.db)
    ensures OnCursor(Step(s, a, depth, p).value) <==> !OverHole(s, a, depth)
  {
    hide InsertIndex, KeepIndex, HashesMatch;
    if OverHole(s, a, depth) || ActionOf(s, a, depth).Fork? {
      RollbackStores(s.db, s.tip.value.height - 1);
    }
  }

  lemma RollbackStores(d: Database, H: int)
    ensures H in Rollback(d, H).index.history.blocks <==> H in d.index.history.blocks
  {
    hide KeepState;
  }

  /** No obeyed fork of the run goes back to a height that is not stored. */
  ghost predicate NoHole(s: Loop, arrivals: seq<Arrival>, depth: nat, p: Projections) {
    arrivals == [] ||
    (NoHole(s, arrivals[..|arrivals| - 1], depth, p)
     && (Steps(s, arrivals[..|arrivals| - 1], depth, p).Ok? ==>
           !OverHole(Steps(s, arrivals[..|arrivals| - 1], depth, p).value, arrivals[|arrivals| - 1], depth)))
  }

  /** Over a run, the loop is attached after every arrival if and only if no fork went over a hole. */
  ghost predicate AlwaysAttached(s: Loop, arrivals: seq<Arrival>, depth: nat, p: Projections) {
    forall n :: 0 <= n <= |arrivals| && Steps(s, arrivals[..n], depth, p).Ok? ==> OnCursor(Steps(s, arrivals[..n], depth, p).value)
  }

  lemma {:induction false} RunAttached(s: Loop, arrivals: seq<Arrival>, depth: nat, p: Projections)
    requires OnCursor(s) && Steps(s, arrivals, depth, p).Ok?
    ensures AlwaysAttached(s, arrivals, depth, p) <==> NoHole(s, arrivals, depth, p)
  {
    hide Step, OnCursor, OverHole;
    if arrivals == [] {
      assert forall n :: 0 <= n <= |arrivals| ==> arrivals[..n] == [];
    } else {
      var last := |arrivals| - 1;
      var front := arrivals[..last];
      RunAttached(s, front, depth, p);
      assert forall n :: 0 <= n <= last ==> front[..n] == arrivals[..n];
      assert arrivals[..|arrivals|] == arrivals;
      if AlwaysAttached(s, front, depth, p) {
        assert front[..last] == front;
        StepAttached(Steps(s, front, depth, p).value, arrivals[last], depth, p);
      }
    }
  }

  // ---------------------------------------------------------- canonical form

  const FRESH: Loop := Loop(None, None, EMPTY, [], [])

  /** What a run does to the database: a transaction for each accepted block, a rollback for each obeyed fork. */
  function OpsOf(arrivals: seq<Arrival>, depth: nat, p: Projections): seq<Replay.Op> {
    if arrivals == [] then []
    else
      var front, a := arrivals[..|arrivals| - 1], arrivals[|arrivals| - 1];
      OpsOf(front, depth, p) + match Steps(FRESH, front, depth, p)
        case Err(_) => []
        case Ok(s) => OpOf(s, a, depth)
  }

  function OpOf(s: Loop, a: Arrival, depth: nat): seq<Replay.Op> {
    match ActionOf(s, a, depth)
    case Extend => [Replay.Insert([a.block])]
    case Gap => [Replay.Insert([a.block])]
    case Fork(h) => [Replay.RollbackTo(h)]
    case _ => []
  }

  /** The blocks a run keeps: an accepted block is put on top, an obeyed fork takes off those above its target. */
  function Kept(arrivals: seq<Arrival>, depth: nat, p: Projections): seq<Block> {
    if arrivals == [] then []
    else
      var kept, a := Kept(arrivals[..|arrivals| - 1], depth, p), arrivals[|arrivals| - 1];
      match Steps(FRESH, arrivals[..|arrivals| - 1], depth, p)
      case Err(_) => kept
      case Ok(s) => (
        match ActionOf(s, a, depth)
        case Extend => kept + [a.block]
        case Gap => kept + [a.block]
        case Fork(h) => Replay.Upto(kept, h)
        case _ => kept)
  }

  lemma {:induction false} KeptSurvive(arrivals: seq<Arrival>, depth: nat, p: Projections)
    ensures Kept(arrivals, depth, p) == Replay.Survivors(OpsOf(arrivals, depth, p))
  {
    hide ActionOf, Steps, Replay.Upto;
    if arrivals != [] {
      var front, a := arrivals[..|arrivals| - 1], arrivals[|arrivals| - 1];
      KeptSurvive(front, depth, p);
      var ops := OpsOf(front, depth, p);
      match Steps(FRESH, front, depth, p) {
        case Err(_) => assert ops + [] == ops;
        case Ok(s) =>
          var op := OpOf(s, a, depth);
          assert op == [] ==> ops + op == ops;
          assert op != [] ==> (ops + op)[..|ops|] == ops;
      }
    }
  }

  predicate TipStored(s: Loop) { s.tip.Some? ==> s.tip.value.height >= 0 }

  /** One arrival is the operations it stands for, and they are such as the canonical form asks for. */
  lemma StepOps(s: Loop, a: Arrival, depth: nat, p: Projections)
    requires OnCursor(s) && TipStored(s) && Step(s, a, depth, p).Ok? && !OverHole(s, a, depth)
    ensures var op, t := OpOf(s, a, depth), Step(s, a, depth, p).value;
      && OnCursor(t) && TipStored(t) && |op| <= 1 && (op == [] ==> t.db == s.db)
      && (op != [] ==> Replay.Allowed(s.db, op[0]) && Replay.Apply(s.db, op[0], p) == Ok(t.db))
      && (op != [] && op[0].RollbackTo? ==> op[0].height < 0 || op[0].height in s.db.index.history.blocks)
  {
    hide InsertBlock, Rollback, HashesMatch;
    StepAttached(s, a, depth, p);
    assert [a.block][..0] == [] && InsertAll(s.db, [], p) == Ok(s.db);
    assert InsertAll(s.db, [a.block], p) == InsertBlock(s.db, a.block, p);
  }

  lemma {:induction false} RunIsOps(arrivals: seq<Arrival>, depth: nat, p: Projections)
    requires Steps(FRESH, arrivals, depth, p).Ok? && NoHole(FRESH, arrivals, depth, p)
    ensures OnCursor(Steps(FRESH, arrivals, depth, p).value) && TipStored(Steps(FRESH, arrivals, depth, p).value)
    ensures var ops := OpsOf(arrivals, depth, p);
      && Replay.AllowedRun(ops, p) && Replay.TargetsStored(ops, p)
      && Replay.RunOps(ops, p) == Ok(Steps(FRESH, arrivals, depth, p).value.db)
  {
    hide Step, OnCursor, OverHole, TipStored, OpOf, Replay.Allowed, Replay.Apply;
    if arrivals == [] {
      FreshAttached();
    } else {
      var front, a := arrivals[..|arrivals| - 1], arrivals[|arrivals| - 1];
      RunIsOps(front, depth, p);
      var s, ops := Steps(FRESH, front, depth, p).value, OpsOf(front, depth, p);
      StepOps(s, a, depth, p);
      var op := OpOf(s, a, depth);
      if op == [] {
        assert ops + op == ops;
      } else {
        assert (ops + op)[..|ops + op| - 1] == ops && (ops + op)[|ops + op| - 1] == op[0];
      }
    }
  }

  lemma FreshAttached()
    ensures OnCursor(FRESH) && TipStored(FRESH)
  {}

  /**
   * The loop's own canonical form. From an empty index, after any arrivals - extensions, gaps,
   * stale blocks, forks obeyed and refused - of which no obeyed fork goes over a hole, tables and
   * cursor are what inserting the kept blocks alone into an empty index would have written.
   */
  lemma LoopIsCanonical(arrivals: seq<Arrival>, depth: nat, p: Projections)
    requires Steps(FRESH, arrivals, depth, p).Ok? && NoHole(FRESH, arrivals, depth, p)
    ensures var d, kept := Steps(FRESH, arrivals, depth, p).value.db, Kept(arrivals, depth, p);
      Replay.Replays(d, kept, p) && Replay.SameCursor(d, kept, p)
  {
    hide Replay.Replays, Replay.SameCursor, Replay.Survivors, Replay.AllowedRun, Replay.TargetsStored, Replay.RunOps, Steps, NoHole, Kept, OpsOf;
    RunIsOps(arrivals, depth, p);
    KeptSurvive(arrivals, depth, p);
    Replay.CanonicalForm(OpsOf(arrivals, depth, p), p);
  }

  /**
   * After a fork over a hole there is no tip but there is a cursor, so the next block to arrive is
   * accepted whatever its height and parent; one at or below the cursor is committed there, and the
   * cursor does not move.
   */
  lemma ForkOverHole(s: Loop, a: Arrival, b: Arrival, depth: nat, p: Projections)
    requires OnCursor(s) && OverHole(s, a, depth)
    ensures var s1, c := Step(s, a, depth, p).value, s.tip.value.height - 1;
      && s1.tip.None? && s1.db.cursor == Some(c) && ActionOf(s1, b, depth) == Extend
      && (Step(s1, b, depth, p).Ok? ==>
            var s2 := Step(s1, b, depth, p).value;
            && b.block.height in s2.db.index.history.blocks && s2.tip == Some(Tip(b.block.height, b.block.hash))
            && (s2.db.cursor == Some(c) <==> b.block.height <= c))
  {
    hide InsertHistory, InsertState, ProjectCreations, KeepState, HashesMatch;
    if Step(Step(s, a, depth, p).value, b, depth, p).Ok? {
      InsertGrows(Step(s, a, depth, p).value.db.index, b.block, p);
      InsertHistoryGrows(Step(s, a, depth, p).value.db.index.history, b.block, p);
    }
  }

  /** On a linked chain taken in step no commit is at or below the cursor. */
  lemma LinkedCommitsAbove(s: Pipeline.Sys, finalized: Option<int>, depth: nat)
    requires Pipeline.LinkedChain(s.loop) && Pipeline.InStep(s) && s.queue != []
    requires Accepts(s.loop, Arrival(s.queue[0], finalized), depth)
    ensures s.queue[0].height > Replay.Top(s.loop.db)
  {
    hide HashesMatch, Replay.Good;
  }

  /** So over every calm run of source and indexer, from a linked chain on, every commit is above the cursor. */
  lemma CalmRunsCommitAbove(s: Pipeline.Sys, moves: seq<Pipeline.Move>, finalized: Option<int>, depth: nat, p: Projections)
    requires Pipeline.Started(s) && Pipeline.CalmRun(s, moves, depth, p) && Pipeline.Exec(s, moves, depth, p).Ok?
    ensures var v := Pipeline.Exec(s, moves, depth, p).value;
      v.queue != [] && Accepts(v.loop, Arrival(v.queue[0], finalized), depth) ==> v.queue[0].height > Replay.Top(v.loop.db)
  {
    hide Pipeline.LinkedChain, Pipeline.InStep, Accepts, Pipeline.Exec, Pipeline.CalmRun, Pipeline.Started;
    Pipeline.StaysLinked(s, moves, depth, p);
    var v := Pipeline.Exec(s, moves, depth, p).value;
    if v.queue != [] && Accepts(v.loop, Arrival(v.queue[0], finalized), depth) { LinkedCommitsAbove(v, finalized, depth); }
  }
}

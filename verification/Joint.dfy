/** The indexing loop and the dispatcher on one database: delivery stated of the loop's own commits and rollbacks. */
module Joint {
  import opened Wire
  import opened Storage
  import opened Store
  import opened TipRules
  import opened Indexer
  import opened Replay
  import opened RangeRead
  import opened Broadcast
  import opened Dispatch
  import opened Sessions
  import opened Attached
  import Safety

  /** The loop's memory beside the database, the dispatcher and the finality reported. */
  datatype Joint = Joint(tip: Option<Tip>, rewoundFrom: Option<int>, world: World)

  datatype Event = Arrive(block: Block) | Act(move: Move)

  /** The loop as it stands; what it sent and the rewinds it asked for do not matter here. */
  function LoopOf(j: Joint): Loop {
    Loop(j.tip, j.rewoundFrom, j.world.db, [], [])
  }

  function ArrivalOf(j: Joint, b: Block): Arrival {
    Arrival(b, j.world.finalized)
  }

  /** The dispatcher's and the node's own moves: commits and rollbacks are the loop's. */
  ghost predicate Happens(j: Joint, e: Event, depth: nat, hook: Hook, p: Projections) {
    match e
    case Arrive(b) => Step(LoopOf(j), ArrivalOf(j, b), depth, p).Ok?
    case Act(m) => !m.Insert? && !m.RollTo? && Enabled(j.world, m, hook, p) && Housed(j.world.db.index.history)
  }

  ghost function After(j: Joint, e: Event, depth: nat, hook: Hook, p: Projections): Joint
    requires Happens(j, e, depth, hook, p)
  {
    match e
    case Arrive(b) =>
      var s := Step(LoopOf(j), ArrivalOf(j, b), depth, p).value;
      Joint(s.tip, s.rewoundFrom, j.world.(db := s.db))
    case Act(m) => j.(world := Next(j.world, m, hook, p))
  }

  ghost function Together(j: Joint, events: seq<Event>, depth: nat, hook: Hook, p: Projections): Joint {
    if events == [] then j
    else
      var v, e := Together(j, events[..|events| - 1], depth, hook, p), events[|events| - 1];
      if Happens(v, e, depth, hook, p) then After(v, e, depth, hook, p) else v
  }

  /** What an arrival does to the database, as the dispatcher sees it. */
  function MovesOf(j: Joint, e: Event, depth: nat): seq<Move> {
    match e
    case Arrive(b) => (
      match ActionOf(LoopOf(j), ArrivalOf(j, b), depth)
      case Extend => [Move.Insert([b])]
      case Gap => [Move.Insert([b])]
      case Fork(h) => [Move.RollTo(h)]
      case _ => [])
    case Act(m) => [m]
  }

  predicate TipOk(j: Joint) {
    j.tip.Some? ==> j.tip.value.height >= 0
  }

  /** Each event of the two is one move of the dispatcher's world, or none. */
  lemma EventIsMove(j: Joint, e: Event, depth: nat, hook: Hook, p: Projections)
    requires Happens(j, e, depth, hook, p) && TipOk(j)
    ensures TipOk(After(j, e, depth, hook, p))
    ensures var moves, w := MovesOf(j, e, depth), After(j, e, depth, hook, p).world;
      |moves| <= 1 && (if moves == [] then w == j.world
                       else Enabled(j.world, moves[0], hook, p)
                            && (Housed(j.world.db.index.history) ==> w == Next(j.world, moves[0], hook, p)))
  {
    hide InsertBlock, Rollback, Classify, Housed, HashAt;
    match e {
      case Arrive(b) =>
        InsertOne(j.world.db, b, p);
        ForkAboveFinality(j.tip, b.height, b.parentHash, j.rewoundFrom, depth, j.world.finalized);
        ForkIsOneBack(j.tip, b.height, b.parentHash, j.rewoundFrom, depth, j.world.finalized);
        TipAtIs(Rollback(j.world.db, if j.tip.Some? then j.tip.value.height - 1 else 0), if j.tip.Some? then j.tip.value.height - 1 else 0);
      case Act(m) =>
    }
  }

  lemma ForkIsOneBack(tip: Option<Tip>, height: int, parentHash: string, rewoundFrom: Option<int>, depth: nat, finalized: Option<int>)
    ensures var action := Classify(tip, height, parentHash, rewoundFrom, depth, finalized);
      action.Fork? ==> tip.Some? && action.rollbackTo == tip.value.height - 1
  {}

  lemma TipAtIs(d: Database, h: int)
    ensures TipAt(d, h).Some? ==> TipAt(d, h).value.height == h
  {}

  /** No fork the loop obeys in the run goes back to a height that is not stored. */
  ghost predicate NoHoleIn(j: Joint, events: seq<Event>, depth: nat, hook: Hook, p: Projections) {
    events == [] ||
    (NoHoleIn(j, events[..|events| - 1], depth, hook, p)
     && var v, e := Together(j, events[..|events| - 1], depth, hook, p), events[|events| - 1];
        e.Arrive? ==> !OverHole(LoopOf(v), ArrivalOf(v, e.block), depth))
  }

  /** While it is worked on, the hook's cursor in the dispatcher is indexed, or asks for nothing new. */
  ghost predicate PhaseIndexed(w: World, start: int, hook: Hook) {
    && Top(w.db) >= -1
    && (hook.id in w.db.hooks ==> w.db.hooks[hook.id] <= Top(w.db))
    && (!w.phase.Idle? ==> w.phase.cursor <= start || w.phase.cursor <= Top(w.db))
  }

  lemma MovePhaseIndexed(w: World, m: Move, start: int, hook: Hook, p: Projections)
    requires PostedInv(w, start, hook) && PhaseIndexed(w, start, hook) && Enabled(w, m, hook, p)
    ensures Housed(w.db.index.history) && PhaseIndexed(Next(w, m, hook, p), start, hook)
  {
    hide Good, OwnSignatures, DroppedHoused, Housed, Deliveries, InsertAll, KeepIndex, GetBlock, Page;
    ReadableHouses(w.db);
    MoveIndexed(w, m, hook, p);
    match m {
      case Insert(blocks) => InsertAllReads(w.db, blocks, p);
      case Record =>
        var row := w.phase.page[w.phase.i];
        if HashAt(w.db, row.height).Some? { StoredUnderTop(w.db, row.height); }
      case _ =>
    }
  }

  lemma StoredUnderTop(d: Database, h: int)
    requires Readable(d) && h in d.index.history.blocks
    ensures h <= Top(d)
  {}

  /** A commit above the cursor writes no height the hook should have had. */
  lemma AboveIsClear(w: World, b: Block, start: int, hook: Hook, p: Projections)
    requires PostedInv(w, start, hook) && PhaseIndexed(w, start, hook) && b.height > Top(w.db)
    requires Enabled(w, Move.Insert([b]), hook, p)
    ensures CommitClear(w, Move.Insert([b]), start, hook, p)
  {
    hide Good, OwnSignatures, DroppedHoused, Housed, InsertAll;
    if w.phase.Posting? {
      forall k | 0 <= k < |w.phase.page| ensures b.height > w.phase.page[k].height {
        assert Certain(w, w.phase.page[k].height, w.phase.page[k].hash);
        StoredUnderTop(w.db, w.phase.page[k].height);
      }
    }
  }

  /** The run of the two, as the moves the dispatcher's world makes: no commit among them disturbs a session. */
  lemma {:induction false} RunTogether(j: Joint, events: seq<Event>, start: int, depth: nat, hook: Hook, p: Projections)
    returns (moves: seq<Move>)
    requires Registered(j.world, start, hook) && start <= Top(j.world.db) && OnCursor(LoopOf(j)) && TipOk(j)
    requires NoHoleIn(j, events, depth, hook, p)
    ensures var v := Together(j, events, depth, hook, p);
      && v.world == Run(j.world, moves, hook, p) && OnCursor(LoopOf(v)) && TipOk(v)
      && PhaseIndexed(v.world, start, hook) && CommitsClear(j.world, moves, start, hook, p)
  {
    hide Registered, Happens, After, OverHole, MovesOf, CommitClear, PhaseIndexed, Enabled, Next, Housed, PostedInv, OnCursor;
    if events == [] {
      moves := [];
      RunNone(j.world, hook, p);
      RegisteredIndexed(j.world, start, hook);
    } else {
      var front, e := events[..|events| - 1], events[|events| - 1];
      moves := RunTogether(j, front, start, depth, hook, p);
      var v := Together(j, front, depth, hook, p);
      if Happens(v, e, depth, hook, p) {
        RunPosted(j.world, moves, start, hook, p);
        StepTogether(v, e, start, depth, hook, p);
        EventIsMove(v, e, depth, hook, p);
        var more := MovesOf(v, e, depth);
        if more != [] {
          RunOne(j.world, moves, more[0], hook, p);
          OneMoreClear(j.world, moves, more[0], start, hook, p);
          moves := moves + [more[0]];
        }
      }
    }
  }

  lemma RegisteredIndexed(w: World, start: int, hook: Hook)
    requires Registered(w, start, hook) && start <= Top(w.db)
    ensures PhaseIndexed(w, start, hook)
  {
    hide Readable;
  }

  lemma OneMoreClear(w: World, moves: seq<Move>, m: Move, start: int, hook: Hook, p: Projections)
    requires CommitsClear(w, moves, start, hook, p)
    requires Enabled(Run(w, moves, hook, p), m, hook, p) ==> CommitClear(Run(w, moves, hook, p), m, start, hook, p)
    ensures CommitsClear(w, moves + [m], start, hook, p)
  {
    hide CommitClear, Enabled, Run;
    assert (moves + [m])[..|moves|] == moves;
  }

  /** One event keeps the loop attached and its commit clear of the sessions. */
  lemma StepTogether(v: Joint, e: Event, start: int, depth: nat, hook: Hook, p: Projections)
    requires PostedInv(v.world, start, hook) && PhaseIndexed(v.world, start, hook) && OnCursor(LoopOf(v)) && TipOk(v)
    requires Happens(v, e, depth, hook, p) && (e.Arrive? ==> !OverHole(LoopOf(v), ArrivalOf(v, e.block), depth))
    ensures Housed(v.world.db.index.history)
    ensures var u, moves := After(v, e, depth, hook, p), MovesOf(v, e, depth);
      && OnCursor(LoopOf(u)) && PhaseIndexed(u.world, start, hook)
      && (moves != [] ==> Enabled(v.world, moves[0], hook, p) && CommitClear(v.world, moves[0], start, hook, p))
  {
    hide PhaseIndexed, Enabled, Next, Step, OverHole, Housed, ActionOf;
    PostedHouses(v.world, start, hook);
    EventIsMove(v, e, depth, hook, p);
    var moves := MovesOf(v, e, depth);
    if moves != [] { MovePhaseIndexed(v.world, moves[0], start, hook, p); }
    match e {
      case Arrive(b) =>
        StepAttached(LoopOf(v), ArrivalOf(v, b), depth, p);
        if moves != [] && moves[0].Insert? { AboveIsClear(v.world, b, start, hook, p); }
      case Act(m) => ActAttached(v, m, hook, p);
    }
  }

  lemma PostedHouses(w: World, start: int, hook: Hook)
    requires PostedInv(w, start, hook)
    ensures Housed(w.db.index.history)
  {}

  /** The dispatcher moves neither the cursor nor the tip. */
  lemma ActAttached(j: Joint, m: Move, hook: Hook, p: Projections)
    requires !m.Insert? && !m.RollTo? && Enabled(j.world, m, hook, p) && Housed(j.world.db.index.history)
    ensures OnCursor(LoopOf(j.(world := Next(j.world, m, hook, p)))) <==> OnCursor(LoopOf(j))
  {
    hide Deliveries, Page, Housed;
  }

  /**
   * Delivery as the loop and the dispatcher make it happen together. From a loop on its cursor's
   * block and a hook just registered, the node reporting finality: over every interleaving of
   * arriving blocks - extensions, gaps, forks, stale and refused ones - with the dispatcher's
   * steps, in which no fork goes back to a height that is not stored, everything the stored blocks
   * up to the hook's cursor owe was acknowledged, in turn, and no posted block is un-indexed.
   */
  lemma DeliveredByLoop(j: Joint, events: seq<Event>, start: int, depth: nat, hook: Hook, p: Projections)
    requires Registered(j.world, start, hook) && start <= Top(j.world.db) && OnCursor(LoopOf(j)) && TipOk(j)
    requires NoHoleIn(j, events, depth, hook, p)
    ensures var v := Together(j, events, depth, hook, p).world;
      Delivered(v, start, hook, p) && forall x :: x in v.sent ==> HashAt(v.db, x.0) == Some(x.1)
  {
    hide Registered, Run, Delivered, Together, CommitsClear, HashAt, OnCursor;
    var moves := RunTogether(j, events, start, depth, hook, p);
    DeliveredUnderFinality(j.world, moves, start, hook, p);
  }

  lemma RunOneEvent(j: Joint, events: seq<Event>, e: Event, depth: nat, hook: Hook, p: Projections)
    requires Happens(Together(j, events, depth, hook, p), e, depth, hook, p)
    ensures Together(j, events + [e], depth, hook, p) == After(Together(j, events, depth, hook, p), e, depth, hook, p)
  {
    hide Happens, After;
    assert (events + [e])[..|events|] == events;
  }

  // ------------------------------------------------- the loop, with or without

  /** The loop is where it would be, whatever the hooks' cursors are. */
  predicate SameLoop(s: Loop, t: Loop) {
    && s.tip == t.tip && s.rewoundFrom == t.rewoundFrom
    && s.db.index == t.db.index && s.db.cursor == t.db.cursor && s.db.disputed == t.db.disputed
  }

  /** The arrivals of a run that went through, each with the finality reported by then. */
  ghost function ArrivalsIn(j: Joint, events: seq<Event>, depth: nat, hook: Hook, p: Projections): seq<Arrival> {
    if events == [] then []
    else
      var front, e := events[..|events| - 1], events[|events| - 1];
      var v := Together(j, front, depth, hook, p);
      ArrivalsIn(j, front, depth, hook, p)
      + if e.Arrive? && Happens(v, e, depth, hook, p) then [ArrivalOf(v, e.block)] else []
  }

  lemma InsertApart(d: Database, e: Database, b: Block, p: Projections)
    requires d.index == e.index && d.cursor == e.cursor && d.disputed == e.disputed
    ensures InsertBlock(d, b, p).Ok? <==> InsertBlock(e, b, p).Ok?
    ensures InsertBlock(d, b, p).Ok? ==> var d', e' := InsertBlock(d, b, p).value, InsertBlock(e, b, p).value;
      d'.index == e'.index && d'.cursor == e'.cursor && d'.disputed == e'.disputed
  {
    hide InsertIndex;
  }

  lemma StepApart(s: Loop, t: Loop, a: Arrival, depth: nat, p: Projections)
    requires SameLoop(s, t)
    ensures Step(s, a, depth, p).Ok? <==> Step(t, a, depth, p).Ok?
    ensures Step(s, a, depth, p).Ok? ==> SameLoop(Step(s, a, depth, p).value, Step(t, a, depth, p).value)
  {
    hide InsertBlock, Classify, KeepIndex;
    InsertApart(s.db, t.db, a.block, p);
  }

  lemma ActApart(j: Joint, m: Move, depth: nat, hook: Hook, p: Projections)
    requires Happens(j, Act(m), depth, hook, p)
    ensures SameLoop(LoopOf(After(j, Act(m), depth, hook, p)), LoopOf(j))
  {
    hide Deliveries, Page, Housed;
  }

  /**
   * And the dispatcher does not disturb the loop: whatever it does in between, and whatever the
   * receiver answers, tables, cursor, tip and episode are those of the loop on the arrivals alone.
   */
  lemma {:induction false} LoopUndisturbed(j: Joint, events: seq<Event>, depth: nat, hook: Hook, p: Projections)
    ensures var alone := Steps(LoopOf(j), ArrivalsIn(j, events, depth, hook, p), depth, p);
      alone.Ok? && SameLoop(LoopOf(Together(j, events, depth, hook, p)), alone.value)
  {
    hide Step, Happens, After;
    if events != [] {
      var front, e := events[..|events| - 1], events[|events| - 1];
      LoopUndisturbed(j, front, depth, hook, p);
      var v, before := Together(j, front, depth, hook, p), ArrivalsIn(j, front, depth, hook, p);
      if Happens(v, e, depth, hook, p) {
        match e {
          case Arrive(b) =>
            var a := ArrivalOf(v, b);
            assert (before + [a])[..|before|] == before;
            ArriveIs(v, b, depth, hook, p);
            StepApart(LoopOf(v), Steps(LoopOf(j), before, depth, p).value, a, depth, p);
          case Act(m) =>
            ActApart(v, m, depth, hook, p);
            assert before + [] == before;
        }
      } else {
        assert before + [] == before;
      }
    }
  }

  lemma ArriveIs(j: Joint, b: Block, depth: nat, hook: Hook, p: Projections)
    requires Happens(j, Arrive(b), depth, hook, p)
    ensures Step(LoopOf(j), ArrivalOf(j, b), depth, p).Ok?
    ensures SameLoop(LoopOf(After(j, Arrive(b), depth, hook, p)), Step(LoopOf(j), ArrivalOf(j, b), depth, p).value)
  {
    hide Step;
  }

  ghost predicate ReportedBy(arrivals: seq<Arrival>, finalized: Option<int>) {
    forall i :: 0 <= i < |arrivals| && arrivals[i].finalized.Some? ==>
      finalized.Some? && arrivals[i].finalized.value <= finalized.value
  }

  /** What the loop is told of finality never decreases, as `Safety.FinalizedIsForever` asks. */
  lemma {:induction false} FinalityOnlyRises(j: Joint, events: seq<Event>, depth: nat, hook: Hook, p: Projections)
    ensures var arrivals := ArrivalsIn(j, events, depth, hook, p);
      Safety.Monotone(arrivals) && ReportedBy(arrivals, Together(j, events, depth, hook, p).world.finalized)
  {
    hide Happens, After;
    if events != [] {
      var front, e := events[..|events| - 1], events[|events| - 1];
      FinalityOnlyRises(j, front, depth, hook, p);
      var v := Together(j, front, depth, hook, p);
      if Happens(v, e, depth, hook, p) { FinalityKept(v, e, depth, hook, p); }
    }
  }

  lemma FinalityKept(j: Joint, e: Event, depth: nat, hook: Hook, p: Projections)
    requires Happens(j, e, depth, hook, p)
    ensures var f, g := j.world.finalized, After(j, e, depth, hook, p).world.finalized;
      && (e.Arrive? ==> g == f) && (f.Some? ==> g.Some? && f.value <= g.value)
  {
    hide Step, Deliveries, Page, Housed;
  }
}

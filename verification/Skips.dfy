/** Runs in which a hook's cursor passes a block nothing of which was acknowledged. */
module Skips {
  import opened Wire
  import opened Storage
  import opened Store
  import opened Replay
  import opened Rows
  import opened RangeRead
  import opened Broadcast
  import opened Dispatch
  import opened Sessions
  import opened TipRules
  import opened Indexer
  import opened Attached
  import opened Joint
  import Webhooks

  const HOOK := Hook(0, None, true, true)

  function QuietBlock(h: nat, hash: string, parent: string): Block {
    Block(h, hash, parent, 0, None, 0, [], None)
  }

  /** A block with one unsigned action. */
  function BusyBlock(h: nat, hash: string, parent: string): Block {
    Block(h, hash, parent, 0, None, 0, [Action(None, "s", "k", "{}")], None)
  }

  /** A database built from such blocks: readable, with these headers and no stored action. */
  ghost predicate Plain(d: Database) {
    Readable(d) && d.index.history.actions == map[]
  }

  ghost predicate HashFree(d: Database, hash: string) {
    forall h :: h in d.index.history.blocks ==> d.index.history.blocks[h].hash != hash
  }

  /** A block at a height not stored commits and can be read; whatever was stored still reads the same. */
  lemma Commits(d: Database, b: Block, p: Projections) returns (e: Database)
    requires Readable(d) && b.height !in d.index.history.blocks && HashFree(d, b.hash) && |b.actions| <= 1
    ensures InsertBlock(d, b, p) == Ok(e) && Readable(e) && e.hooks == d.hooks
    ensures e.cursor == Advance(d.cursor, b.height)
    ensures e.index.history.blocks == StoreHeader(d.index.history.blocks, b)
    ensures forall h :: h != b.height ==> Content(GetBlock(e, h)) == Content(GetBlock(d, h))
    ensures b.actions == [] && d.index.history.actions == map[] ==> Plain(e)
  {
    hide InsertIndex, GetBlock, Good, OwnSignatures, DroppedHoused, Housed;
    e := InsertBlock(d, b, p).value;
    InsertReadable(d, b, p);
    forall h | h != b.height ensures Content(GetBlock(e, h)) == Content(GetBlock(d, h)) { InsertReads(d, b, p, h); }
    ActionsAfter(d, b, p);
  }

  lemma ActionsAfter(d: Database, b: Block, p: Projections)
    ensures b.actions == [] ==> InsertIndex(d.index, b, p).history.actions == d.index.history.actions
  {
    hide InsertIndex, InsertHistory;
    InsertGrows(d.index, b, p);
    InsertHistoryGrows(d.index.history, b, p);
  }

  /** A quiet block owes nothing, a busy one over an empty action table owes its action. */
  lemma Owes(d: Database, b: Block, p: Projections)
    requires Plain(d) && b.height !in d.index.history.blocks && InsertBlock(d, b, p).Ok?
    requires b.effects.None? && |b.actions| <= 1
    ensures var e := InsertBlock(d, b, p).value;
      Housed(e.index.history) && |OwedAt(e, b.height, HOOK, p)| == |b.actions|
  {
    hide InsertIndex, Good, Actions, Dropped, ActionDeliveries, DroppedDeliveries;
    assert FreshIdentities(d.index.history, b);
    BroadcastAgrees(d, b, p);
    var row := GetBlock(InsertBlock(d, b, p).value, b.height).value;
    assert row.actions == WireActions(b);
    assert multiset(row.dropped) == multiset{} && row.dropped == [] by { assert |row.dropped| == |multiset(row.dropped)|; }
    EmptyOwed(row, p);
  }

  lemma EmptyOwed(row: BlockRow, p: Projections)
    requires row.dropped == [] && |row.actions| <= 1
    ensures |Deliveries(HOOK, row, p)| == |row.actions|
  {
    var front := ActionDeliveries([], HOOK.address, p);
    assert front == [] && DroppedDeliveries(row.dropped, HOOK.address, row.timestamp) == [];
    if row.actions != [] {
      assert row.actions[..|row.actions| - 1] == [];
      assert ActionDeliveries(row.actions, HOOK.address, p) == front + [ActionDelivery(row.actions[0])];
    }
  }

  /** Genesis alone. */
  lemma Genesis(p: Projections) returns (d: Database)
    ensures Plain(d) && Top(d) == 0 && d.hooks == map[]
    ensures d.index.history.blocks == map[0 := Header("a", "", 0, None, 0)]
  {
    hide InsertIndex, GetBlock, Good;
    EmptyReadable();
    d := Commits(EMPTY, QuietBlock(0, "a", ""), p);
  }

  lemma EmptyReadable()
    ensures Readable(EMPTY)
  {}

  /** Rolled back to genesis, the replacement block 1 - a busy one - and a block 2 on top of it commit. */
  lemma Replaced(d: Database, p: Projections) returns (e: Database)
    requires Plain(d) && 0 in d.index.history.blocks && d.index.history.blocks[0] == Header("a", "", 0, None, 0)
    ensures InsertAll(Rollback(d, 0), [BusyBlock(1, "bb", "a"), QuietBlock(2, "ccc", "bb")], p) == Ok(e)
    ensures Readable(e) && HashAt(e, 1) == Some("bb") && HashAt(e, 2) == Some("ccc") && |OwedAt(e, 1, HOOK, p)| == 1
    ensures e.hooks.Keys == d.hooks.Keys
  {
    hide InsertIndex, GetBlock, OwnSignatures, Below, Valid, KeepState, Deliveries;
    var b1, b2 := BusyBlock(1, "bb", "a"), QuietBlock(2, "ccc", "bb");
    var r := Rollback(d, 0);
    RollbackReadable(d, 0);
    RolledBack(d, 0);
    var f := Commits(r, b1, p);
    Owes(r, b1, p);
    e := Commits(f, b2, p);
    ContentOwed(f, e, 1, HOOK, p);
    TwoBlocks(r, b1, b2, p);
  }

  lemma RolledBack(d: Database, H: int)
    requires Plain(d) && H >= -1
    ensures var r := Rollback(d, H);
      && r.index.history.actions == map[] && Top(r) == H
      && forall h :: h in r.index.history.blocks <==> h in d.index.history.blocks && 0 <= h <= H
    ensures forall h :: h in Rollback(d, H).index.history.blocks ==>
      Rollback(d, H).index.history.blocks[h] == d.index.history.blocks[h]
  {
    hide KeepState, Housed, OwnSignatures, StateBelow;
  }

  lemma TwoBlocks(r: Database, b1: Block, b2: Block, p: Projections)
    requires InsertBlock(r, b1, p).Ok?
    ensures InsertAll(r, [b1, b2], p) == InsertBlock(InsertBlock(r, b1, p).value, b2, p)
  {
    hide InsertBlock;
    assert [b1, b2][..1] == [b1] && [b1][..0] == [];
    assert InsertAll(r, [], p) == Ok(r) && InsertAll(r, [b1], p) == InsertBlock(r, b1, p);
  }

  /** From a hook armed at `start`, the dispatcher reads the one-row page of the height above it. */
  lemma ReadsOne(w: World, start: int, h: int, p: Projections) returns (v: World)
    requires Armed(w, start, HOOK) && (w.finalized.Some? ==> w.finalized.value >= h) && w.db.cursor == Some(h) && start < h
    requires forall g :: start < g <= h ==> (g in w.db.index.history.blocks <==> g == h)
    ensures v == Run(w, [ListHooks, ReadTip, ReadPage], HOOK, p)
    ensures Housed(w.db.index.history) && v.phase.Posting? && |v.phase.page| == 1
    ensures v == w.(phase := Posting(start, h, v.phase.page, 0, 0)) && v.phase.page[0].height == h
    ensures GetBlock(w.db, h) == Some(v.phase.page[0]) && HashAt(w.db, h) == Some(v.phase.page[0].hash)
  {
    hide GetBlock, Good, OwnSignatures, Housed, Page, Run;
    RunNone(w, HOOK, p);
    RunOne(w, [], ListHooks, HOOK, p);
    RunOne(w, [] + [ListHooks], ReadTip, HOOK, p);
    SinglePage(w.db, start + 1, h, h);
    RunOne(w, [] + [ListHooks] + [ReadTip], ReadPage, HOOK, p);
    assert [] + [ListHooks] + [ReadTip] + [ReadPage] == [ListHooks, ReadTip, ReadPage];
    v := Run(w, [ListHooks, ReadTip, ReadPage], HOOK, p);
  }

  lemma NotDone(w: World, c: int, g: int, start: int, p: Projections)
    requires Housed(w.db.index.history) && start < g <= c && |OwedAt(w.db, g, HOOK, p)| > 0
    requires forall k :: 0 <= k < |w.acked| ==> Some(w.acked[k].hash) != HashAt(w.db, g)
    ensures !Done(w, c, start, HOOK, p)
  {
    hide OwedAt;
    assert !AckedAt(w.acked, g, HashAt(w.db, g), 0);
  }

  /** Block 1 is delivered from a hook armed at genesis, and the hook is listed again at cursor 1. */
  lemma DeliversOne(p: Projections) returns (w: World, moves: seq<Move>, t: World)
    ensures Armed(w, 0, HOOK) && w.finalized.None? && t == Run(w, moves, HOOK, p)
    ensures Plain(t.db) && t.finalized.None? && t.phase == Listed(1) && HOOK.id in t.db.hooks
    ensures 0 in t.db.index.history.blocks && t.db.index.history.blocks[0] == Header("a", "", 0, None, 0)
    ensures forall k :: 0 <= k < |t.acked| ==> t.acked[k].hash == "bbbb"
  {
    hide InsertBlock, GetBlock, OwnSignatures, Good, Run, Deliveries, Housed, PostedUpto, Next;
    var d := Genesis(p);
    var d1 := Commits(d, QuietBlock(1, "bbbb", "a"), p);
    w := World(d1.(hooks := map[0 := 0]), None, Idle, [], {});
    HooksOnly(d1, map[0 := 0]);
    var v := ReadsOne(w, 0, 1, p);
    NothingPosted(v);
    assert HashAt(w.db, 1) == Some("bbbb");
    var m1, u := PostRest(w, [ListHooks, ReadTip, ReadPage], v, HOOK, p) by { LandsOne(v); }
    RunOne(w, m1, ListHooks, HOOK, p) by { CanList(u, p); }
    moves, t := m1 + [ListHooks], Next(u, ListHooks, HOOK, p);
    ListedAt(u, p);
    HooksOnly(d1, u.db.hooks);
    assert t.db == d1.(hooks := u.db.hooks);
  }

  /**
   * A rollback below the dispatcher's cursor does skip. From a hook registered at genesis: block 1
   * is delivered, the hook is listed at cursor 1, block 1 is rolled back and replaced and a block
   * 2 committed on top; the hook's cursor ends on 2 and nothing of the replacement was acknowledged.
   */
  lemma SkipHappens(p: Projections) returns (w: World, moves: seq<Move>)
    ensures Armed(w, 0, HOOK) && w.finalized.None?
    ensures var v := Run(w, moves, HOOK, p);
      && HOOK.id in v.db.hooks && v.db.hooks[HOOK.id] == 2
      && Housed(v.db.index.history) && !Done(v, 2, 0, HOOK, p)
  {
    hide InsertAll, InsertBlock, GetBlock, Readable, Done, Run, Deliveries, Housed, Rollback;
    var m1, t;
    w, m1, t := DeliversOne(p);
    var blocks := [BusyBlock(1, "bb", "a"), QuietBlock(2, "ccc", "bb")];
    var e := Replaced(t.db, p);
    var m2 := ReplacementsSkipped(t, 0, blocks, e, 0, HOOK, p);
    moves := m1 + m2;
    RunAppend(w, m1, m2, HOOK, p);
    NotDone(t.(db := e), 1, 1, 0, p);
  }

  /** A block without actions owes nothing. */
  lemma QuietPage(d: Database, b: Block, hooks: map<nat, int>, row: BlockRow, p: Projections)
    requires Plain(d) && b.height !in d.index.history.blocks && InsertBlock(d, b, p).Ok? && b.effects.None? && b.actions == []
    requires var e := InsertBlock(d, b, p).value.(hooks := hooks);
      Housed(e.index.history) ==> GetBlock(e, b.height) == Some(row)
    ensures Deliveries(HOOK, row, p) == []
  {
    hide InsertBlock, GetBlock, Deliveries, Housed;
    Owes(d, b, p);
    SameHooksRead(InsertBlock(d, b, p).value, hooks);
  }

  /** A block that owes nothing is recorded as soon as it is read. */
  lemma Recorded(w: World, p: Projections)
    requires AtBlock(w) && w.phase.j == 0 && Deliveries(HOOK, w.phase.page[w.phase.i], p) == []
    requires Housed(w.db.index.history) && HOOK.id in w.db.hooks
    requires HashAt(w.db, w.phase.page[w.phase.i].height) == Some(w.phase.page[w.phase.i].hash)
    ensures Enabled(w, Record, HOOK, p)
    ensures var u, h := Next(w, Record, HOOK, p), w.phase.page[w.phase.i].height;
      && u == w.(phase := AfterBlock(w.phase, true), db := w.db.(hooks := w.db.hooks[HOOK.id := h]))
      && Housed(u.db.index.history) && forall g :: OwedAt(u.db, g, HOOK, p) == OwedAt(w.db, g, HOOK, p)
  {
    hide Deliveries, GetBlock;
    SameHooksRead(w.db, w.db.hooks[HOOK.id := w.phase.page[w.phase.i].height]);
  }

  // ------------------------------------------------- runs of loop and dispatcher

  const DEPTH := 1

  function Acts(moves: seq<Move>): seq<Event> {
    seq(|moves|, i requires 0 <= i < |moves| => Act(moves[i]))
  }

  ghost predicate Own(moves: seq<Move>) {
    forall i :: 0 <= i < |moves| ==> !moves[i].Insert? && !moves[i].RollTo?
  }

  /** The dispatcher's moves run as events of the two. */
  lemma {:induction false} ActsRun(j: Joint, events: seq<Event>, moves: seq<Move>, p: Projections)
    requires Own(moves)
    ensures var v := Together(j, events, DEPTH, HOOK, p);
      Together(j, events + Acts(moves), DEPTH, HOOK, p) == v.(world := Run(v.world, moves, HOOK, p))
  {
    hide Next, Enabled, Housed, Step;
    if moves == [] {
      assert events + Acts(moves) == events;
    } else {
      var last := |moves| - 1;
      ActsRun(j, events, moves[..last], p);
      assert events + Acts(moves) == (events + Acts(moves[..last])) + [Act(moves[last])];
      var all := (events + Acts(moves[..last])) + [Act(moves[last])];
      assert all[..|all| - 1] == events + Acts(moves[..last]);
    }
  }

  /** A block the loop accepts, as an event of the two. */
  lemma Accepted(j: Joint, events: seq<Event>, b: Block, p: Projections)
    requires var v := Together(j, events, DEPTH, HOOK, p);
      Accepts(LoopOf(v), ArrivalOf(v, b), DEPTH) && InsertBlock(v.world.db, b, p).Ok?
    ensures var v := Together(j, events, DEPTH, HOOK, p);
      Together(j, events + [Arrive(b)], DEPTH, HOOK, p)
        == Joint(Some(Tip(b.height, b.hash)), None, v.world.(db := InsertBlock(v.world.db, b, p).value))
  {
    hide InsertBlock, Classify, Together;
    RunOneEvent(j, events, Arrive(b), DEPTH, HOOK, p);
  }

  /** A fork the loop obeys, over a height that is not stored. */
  lemma ForkedOver(j: Joint, events: seq<Event>, b: Block, p: Projections)
    requires var v := Together(j, events, DEPTH, HOOK, p); OverHole(LoopOf(v), ArrivalOf(v, b), DEPTH)
    ensures var v, u := Together(j, events, DEPTH, HOOK, p), Together(j, events + [Arrive(b)], DEPTH, HOOK, p);
      && v.tip.Some? && u == Joint(None, u.rewoundFrom, v.world.(db := Rollback(v.world.db, v.tip.value.height - 1)))
  {
    hide Together, HashesMatch, Rollback, InsertBlock;
    RunOneEvent(j, events, Arrive(b), DEPTH, HOOK, p);
    RollbackStores(Together(j, events, DEPTH, HOOK, p).world.db, Together(j, events, DEPTH, HOOK, p).tip.value.height - 1);
  }

  lemma Mismatch(a: string, b: string)
    requires Unprefixed(a) && Unprefixed(b) && |a| != |b|
    ensures !HashesMatch(a, b)
  {
    OnlySpellingIsForgiven(a, b);
  }

  /** Genesis indexed, a hook registered there, the loop on its cursor. */
  lemma Opening(finalized: Option<int>, p: Projections) returns (j: Joint)
    ensures Armed(j.world, 0, HOOK) && OnCursor(LoopOf(j)) && j.tip == Some(Tip(0, "a")) && j.rewoundFrom == None
    ensures j.world == World(j.world.db, finalized, Idle, [], {}) && (finalized.Some? ==> Registered(j.world, 0, HOOK))
    ensures Plain(j.world.db) && j.world.db.hooks == map[0 := 0] && j.world.db.cursor == Some(0)
    ensures j.world.db.index.history.blocks == map[0 := Header("a", "", 0, None, 0)]
  {
    hide Good, OwnSignatures, DroppedHoused, Housed;
    var d := Genesis(p);
    HooksOnly(d, map[0 := 0]);
    j := Joint(Some(Tip(0, "a")), None, World(d.(hooks := map[0 := 0]), finalized, Idle, [], {}));
  }

  /** The rollback over a hole at `H`: what it leaves. */
  lemma HoleLeft(d: Database, H: nat)
    requires Plain(d) && H !in d.index.history.blocks
    ensures var r := Rollback(d, H);
      && Plain(r) && r.cursor == Some(H)
      && (forall h :: h in r.index.history.blocks <==> h in d.index.history.blocks && h < H)
      && (forall h :: h in r.index.history.blocks ==> r.index.history.blocks[h] == d.index.history.blocks[h])
  {
    hide Good, OwnSignatures, DroppedHoused, Housed, KeepState;
    RollbackReadable(d, H);
    RolledBack(d, H);
  }

  /** Block `h` arrives across a gap, and the dispatcher reads its page. */
  lemma GapRead(j: Joint, b: Block, p: Projections) returns (events: seq<Event>, u: Joint)
    requires Armed(j.world, 0, HOOK) && Plain(j.world.db) && j.world.db.hooks == map[0 := 0] && j.world.db.cursor == Some(0)
    requires j.tip == Some(Tip(0, "a")) && j.world.db.index.history.blocks == map[0 := Header("a", "", 0, None, 0)]
    requires b == QuietBlock(b.height, b.hash, b.parentHash) && b.height > 1 && b.hash != "a"
    requires j.world.finalized.Some? ==> j.world.finalized.value == b.height
    ensures u == Together(j, events, DEPTH, HOOK, p) && u.tip == Some(Tip(b.height, b.hash)) && u.rewoundFrom == None
    ensures Plain(u.world.db) && u.world.db.hooks == map[0 := 0] && u.world.db.cursor == Some(b.height)
    ensures u.world.db.index.history.blocks
      == map[0 := Header("a", "", 0, None, 0), b.height := Header(b.hash, b.parentHash, 0, None, 0)]
    ensures u.world.finalized == j.world.finalized && u.world.acked == []
    ensures u.world.phase.Posting? && |u.world.phase.page| == 1 && u.world.phase == Posting(0, b.height, u.world.phase.page, 0, 0)
    ensures u.world.phase.page[0].height == b.height && u.world.phase.page[0].hash == b.hash
    ensures Deliveries(HOOK, u.world.phase.page[0], p) == []
  {
    hide InsertBlock, GetBlock, Good, OwnSignatures, DroppedHoused, Housed, Run, Together, Deliveries;
    var e := Commits(j.world.db, b, p);
    Together0(j, p);
    Accepted(j, [], b, p);
    var v := Together(j, [] + [Arrive(b)], DEPTH, HOOK, p);
    var w := ReadsOne(v.world, 0, b.height, p);
    QuietPage(j.world.db, b, e.hooks, w.phase.page[0], p);
    ActsRun(j, [] + [Arrive(b)], [ListHooks, ReadTip, ReadPage], p);
    events := [] + [Arrive(b)] + Acts([ListHooks, ReadTip, ReadPage]);
    u := Together(j, events, DEPTH, HOOK, p);
  }

  lemma Together0(j: Joint, p: Projections)
    ensures Together(j, [], DEPTH, HOOK, p) == j
  {}

  /** The hooks as a rollback to `H` leaves them. */
  function Capped(hooks: map<nat, int>, H: int): map<nat, int> {
    map id | id in hooks :: if hooks[id] > H then H else hooks[id]
  }

  /** A fork over the hole below the tip, and a busy block 1 that arrives next: it is committed there. */
  lemma ForkThenOne(j: Joint, events: seq<Event>, forker: Block, one: Block, p: Projections) returns (u: Joint)
    requires var v := Together(j, events, DEPTH, HOOK, p);
      && Plain(v.world.db) && v.tip.Some? && v.tip.value.height >= 2 && v.rewoundFrom.None?
      && v.tip.value.height - 1 !in v.world.db.index.history.blocks && 1 !in v.world.db.index.history.blocks
      && (v.world.finalized.Some? ==> v.world.finalized.value < v.tip.value.height)
      && forker.height == v.tip.value.height + 1 && !HashesMatch(forker.parentHash, v.tip.value.hash)
      && HashFree(v.world.db, one.hash)
    requires one == BusyBlock(1, one.hash, one.parentHash)
    ensures var v, c := Together(j, events, DEPTH, HOOK, p), Together(j, events, DEPTH, HOOK, p).tip.value.height - 1;
      && u == Together(j, events + [Arrive(forker)] + [Arrive(one)], DEPTH, HOOK, p)
      && u.tip == Some(Tip(1, one.hash)) && u.rewoundFrom == None && u.world == v.world.(db := u.world.db)
      && Readable(u.world.db) && u.world.db.cursor == Some(c) && u.world.db.hooks == Capped(v.world.db.hooks, c)
      && HashAt(u.world.db, 1) == Some(one.hash) && |OwedAt(u.world.db, 1, HOOK, p)| == 1
      && (forall h :: h != 1 ==> (h in u.world.db.index.history.blocks <==> h in v.world.db.index.history.blocks && h < c))
      && (forall h :: h != 1 && h in u.world.db.index.history.blocks ==>
            u.world.db.index.history.blocks[h] == v.world.db.index.history.blocks[h])
  {
    hide InsertBlock, GetBlock, Good, OwnSignatures, DroppedHoused, Housed, Together, Deliveries, KeepIndex, HashesMatch;
    var v := Together(j, events, DEPTH, HOOK, p);
    var c := v.tip.value.height - 1;
    ForkedOver(j, events, forker, p);
    HoleLeft(v.world.db, c);
    var r := Rollback(v.world.db, c);
    hide Rollback, Classify;
    var f := Commits(r, one, p) by { assert HashFree(r, one.hash); }
    Owes(r, one, p);
    NextIsAccepted(j, events + [Arrive(forker)], one, p);
    u := Together(j, events + [Arrive(forker)] + [Arrive(one)], DEPTH, HOOK, p);
  }

  /** Without a tip every block that commits is accepted. */
  lemma NextIsAccepted(j: Joint, events: seq<Event>, b: Block, p: Projections)
    requires var v := Together(j, events, DEPTH, HOOK, p); v.tip.None? && InsertBlock(v.world.db, b, p).Ok?
    ensures var v := Together(j, events, DEPTH, HOOK, p);
      Together(j, events + [Arrive(b)], DEPTH, HOOK, p)
        == Joint(Some(Tip(b.height, b.hash)), None, v.world.(db := InsertBlock(v.world.db, b, p).value))
  {
    hide InsertBlock, Together;
    Accepted(j, events, b, p);
  }

  /** Block 4 is delivered, and block 7 indexed above it. */
  lemma FourAndSeven(finalized: Option<int>, p: Projections) returns (j: Joint, events: seq<Event>, v: Joint)
    requires finalized == None || finalized == Some(4)
    ensures Armed(j.world, 0, HOOK) && OnCursor(LoopOf(j)) && j.world.finalized == finalized
    ensures finalized.Some? ==> Registered(j.world, 0, HOOK)
    ensures v == Together(j, events, DEPTH, HOOK, p) && v.tip == Some(Tip(7, "eeeee")) && v.rewoundFrom == None
    ensures Plain(v.world.db) && v.world.db.hooks == map[0 := 4] && v.world.finalized == finalized && v.world.acked == []
    ensures v.world.db.index.history.blocks
      == map[0 := Header("a", "", 0, None, 0), 4 := Header("dddd", "zz", 0, None, 0), 7 := Header("eeeee", "zz", 0, None, 0)]
  {
    hide InsertBlock, GetBlock, Good, OwnSignatures, DroppedHoused, Housed, Together, Deliveries, Run;
    j := Opening(finalized, p);
    var u, e;
    events, u := GapRead(j, QuietBlock(4, "dddd", "zz"), p);
    Recorded(u.world, p);
    RunsRecord(u.world, p);
    ActsRun(j, events, [Record], p);
    events := events + Acts([Record]);
    v := Together(j, events, DEPTH, HOOK, p);
    HooksOnly(u.world.db, v.world.db.hooks);
    e := Commits(v.world.db, QuietBlock(7, "eeeee", "zz"), p);
    Accepted(j, events, QuietBlock(7, "eeeee", "zz"), p);
    events := events + [Arrive(QuietBlock(7, "eeeee", "zz"))];
    v := Together(j, events, DEPTH, HOOK, p);
  }

  /**
   * A commit at or below the cursor skips a block, finality or not. From a hook registered at
   * genesis: block 4 arrives across a gap, is final if anything is, and is delivered; block 7
   * arrives across another; block 8 forks off it, the loop goes back to height 6, which is not
   * stored, and the block 1 that arrives next is committed far below the hook's cursor - and never
   * delivered. No rollback touched anything the hook was sent.
   */
  lemma CommitUnderCursor(finalized: Option<int>, p: Projections) returns (j: Joint, events: seq<Event>)
    requires finalized == None || finalized == Some(4)
    ensures Armed(j.world, 0, HOOK) && OnCursor(LoopOf(j)) && j.world.finalized == finalized
    ensures finalized.Some? ==> Registered(j.world, 0, HOOK)
    ensures var v := Together(j, events, DEPTH, HOOK, p).world;
      && HOOK.id in v.db.hooks && v.db.hooks[HOOK.id] == 4
      && Housed(v.db.index.history) && !Done(v, 4, 0, HOOK, p)
  {
    hide InsertBlock, GetBlock, Good, OwnSignatures, DroppedHoused, Done, Housed, Together, Deliveries, KeepIndex, OwedAt;
    var v;
    j, events, v := FourAndSeven(finalized, p);
    var eight, one := QuietBlock(8, "ffffff", "zz"), BusyBlock(1, "bb", "zz");
    Mismatch("zz", "eeeee");
    var u := ForkThenOne(j, events, eight, one, p);
    events := events + [Arrive(eight)] + [Arrive(one)];
    NotDone(u.world, 4, 1, 0, p) by { ReadableHouses(u.world.db); }
  }

  lemma RunsRecord(w: World, p: Projections)
    requires Enabled(w, Record, HOOK, p) && Housed(w.db.index.history)
    ensures Run(w, [Record], HOOK, p) == Next(w, Record, HOOK, p)
  {
    RunNone(w, HOOK, p);
    RunOne(w, [], Record, HOOK, p);
    assert [] + [Record] == [Record];
  }

  /**
   * Putting a block of the page in flight back under its own hash skips one too, with no commit
   * below any cursor and no rollback below the dispatcher's. From a hook registered at genesis:
   * block 2 arrives across a gap and its page is read; block 3 forks off it, the loop goes back to
   * height 1, which is not stored; block 1 and the same block 2 arrive; recording finds block 2
   * under the hash it was read with and moves the hook's cursor past block 1.
   */
  lemma ReindexedUnderfoot(p: Projections) returns (j: Joint, events: seq<Event>)
    ensures Armed(j.world, 0, HOOK) && OnCursor(LoopOf(j)) && j.world.finalized.None?
    ensures var v := Together(j, events, DEPTH, HOOK, p).world;
      && HOOK.id in v.db.hooks && v.db.hooks[HOOK.id] == 2
      && Housed(v.db.index.history) && !Done(v, 2, 0, HOOK, p)
  {
    hide InsertBlock, GetBlock, Good, OwnSignatures, DroppedHoused, Done, Housed, Together, Deliveries, OwedAt, Classify;
    j := Opening(None, p);
    var two, three, one := QuietBlock(2, "ccc", "bb"), QuietBlock(3, "dddd", "zz"), BusyBlock(1, "bb", "a");
    var u;
    events, u := GapRead(j, two, p);
    Mismatch("zz", "ccc");
    var v := ForkThenOne(j, events, three, one, p);
    events := events + [Arrive(three)] + [Arrive(one)];
    var more := BackAndRecorded(j, events, v, two, p);
    events := events + more;
  }

  /** The block in flight arrives once more and is recorded over the block below it. */
  lemma BackAndRecorded(j: Joint, events: seq<Event>, v: Joint, two: Block, p: Projections) returns (more: seq<Event>)
    requires v == Together(j, events, DEPTH, HOOK, p) && v.tip == Some(Tip(1, "bb")) && two == QuietBlock(2, "ccc", "bb")
    requires Readable(v.world.db) && 2 !in v.world.db.index.history.blocks && HashFree(v.world.db, "ccc")
    requires Housed(v.world.db.index.history) && |OwedAt(v.world.db, 1, HOOK, p)| == 1
    requires HOOK.id in v.world.db.hooks && HashAt(v.world.db, 1) == Some("bb") && v.world.acked == []
    requires v.world.phase.Posting? && |v.world.phase.page| == 1 && v.world.phase.i == 0 && v.world.phase.j == 0
    requires v.world.phase.page[0].height == 2 && v.world.phase.page[0].hash == "ccc"
    requires Deliveries(HOOK, v.world.phase.page[0], p) == []
    ensures var u := Together(j, events + more, DEPTH, HOOK, p).world;
      && HOOK.id in u.db.hooks && u.db.hooks[HOOK.id] == 2
      && Housed(u.db.index.history) && !Done(u, 2, 0, HOOK, p)
  {
    hide InsertBlock, GetBlock, Good, OwnSignatures, DroppedHoused, Done, Housed, Together, Deliveries, OwedAt, Run;
    var e := v.world.db;
    var f := Commits(e, two, p);
    ContentOwed(e, f, 1, HOOK, p);
    SelfMatches("bb");
    Accepted(j, events, two, p);
    hide Classify;
    var u := Together(j, events + [Arrive(two)], DEPTH, HOOK, p);
    Recorded(u.world, p);
    RunsRecord(u.world, p);
    ActsRun(j, events + [Arrive(two)], [Record], p);
    more := [Arrive(two)] + Acts([Record]);
    assert events + more == events + [Arrive(two)] + Acts([Record]);
    NotDone(Together(j, events + more, DEPTH, HOOK, p).world, 2, 1, 0, p);
  }

  lemma LandsOne(v: World)
    requires v.phase.Posting? && |v.phase.page| == 1 && HOOK.id in v.db.hooks
    requires HashAt(v.db, v.phase.page[0].height) == Some(v.phase.page[0].hash)
    ensures Webhooks.Lands(v.db, HOOK.id, v.phase.page[0].height, v.phase.page[0].hash)
  {}

  lemma CanList(u: World, p: Projections)
    requires u.phase.Idle? && HOOK.id in u.db.hooks
    ensures Enabled(u, ListHooks, HOOK, p)
  {}

  lemma ListedAt(u: World, p: Projections)
    requires u.phase.Idle? && HOOK.id in u.db.hooks && Housed(u.db.index.history)
    ensures Next(u, ListHooks, HOOK, p) == u.(phase := Listed(u.db.hooks[HOOK.id]))
  {}
}

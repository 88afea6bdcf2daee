/** What a registration asks for and what the hook then gets: from which height, of whom, and up to where. */
module Subscriptions {
  import opened Wire
  import opened Storage
  import opened Store
  import opened Replay
  import opened Rows
  import opened RangeRead
  import opened Broadcast
  import opened Dispatch
  import opened Sessions
  import Order
  import Rearm
  import Reindex
  import Tables
  import Webhooks

  // -------------------------------------------------------------- registration

  /** The height may be delivered: it is indexed, and finalized if the node reports finality. */
  predicate Deliverable(w: World, g: int) {
    && g in w.db.index.history.blocks && w.db.cursor.Some? && g <= w.db.cursor.value
    && (w.finalized.Some? ==> g <= w.finalized.value)
  }

  /**
   * From a cursor the dispatcher reads the first stored block above it and those that follow, up to
   * five hundred of them; or nothing if there is none to deliver.
   */
  lemma SessionStarts(w: World, hook: Hook, p: Projections)
    requires Readable(w.db) && w.phase.Idle? && hook.id in w.db.hooks
    ensures var c, v := w.db.hooks[hook.id], Run(w, [ListHooks, ReadTip, ReadPage], hook, p);
      && (v.phase.Idle? || v.phase.Posting?) && v == w.(phase := v.phase)
      && (v.phase.Posting? <==> exists g :: c < g && Deliverable(w, g))
      && (v.phase.Posting? ==>
            && AtBlock(v) && v.phase.i == 0 && v.phase.j == 0 && v.phase.cursor == c
            && Housed(w.db.index.history) && GetBlock(w.db, v.phase.page[0].height) == Some(v.phase.page[0])
            && c < v.phase.page[0].height && Deliverable(w, v.phase.page[0].height)
            && (forall g :: c < g < v.phase.page[0].height ==> g !in w.db.index.history.blocks)
            && |v.phase.page| <= 500
            && (|v.phase.page| < 500 ==> forall g :: c < g && Deliverable(w, g) ==> g <= v.phase.page[|v.phase.page| - 1].height))
  {
    hide Good, OwnSignatures, DroppedHoused, GetBlock, Housed, Run, Page;
    ReadableHouses(w.db);
    RunNone(w, hook, p);
    RunOne(w, [], ListHooks, hook, p);
    RunOne(w, [] + [ListHooks], ReadTip, hook, p);
    assert [] + [ListHooks] + [ReadTip] + [ReadPage] == [ListHooks, ReadTip, ReadPage];
    var t := Next(Next(w, ListHooks, hook, p), ReadTip, hook, p);
    if t.phase.Ready? {
      RunOne(w, [] + [ListHooks] + [ReadTip], ReadPage, hook, p);
      PageReads(w.db, t.phase.cursor, t.phase.tip);
      assert forall g :: w.db.hooks[hook.id] < g <= t.phase.tip && g in w.db.index.history.blocks <==>
        w.db.hooks[hook.id] < g && Deliverable(w, g);
    } else {
      IdleReads(w, [] + [ListHooks] + [ReadTip], hook, p);
    }
  }

  lemma IdleReads(w: World, moves: seq<Move>, hook: Hook, p: Projections)
    requires !Run(w, moves, hook, p).phase.Ready?
    ensures Run(w, moves + [ReadPage], hook, p) == Run(w, moves, hook, p)
  {
    hide Next;
    assert (moves + [ReadPage])[..|moves|] == moves;
  }

  /** The page above a cursor up to a tip: empty exactly if nothing is stored there, else it begins with the first. */
  lemma PageReads(d: Database, c: int, tip: int)
    requires Housed(d.index.history)
    ensures var page := Page(d, c + 1, tip, BLOCK_PAGE);
      && (page == [] <==> forall g :: c < g <= tip ==> g !in d.index.history.blocks)
      && (page != [] ==>
            && c < page[0].height <= tip && page[0].height in d.index.history.blocks
            && GetBlock(d, page[0].height) == Some(page[0])
            && (forall g :: c < g < page[0].height ==> g !in d.index.history.blocks)
            && |page| <= 500
            && (|page| < 500 ==> forall g :: c < g <= tip && g in d.index.history.blocks ==> g <= page[|page| - 1].height))
  {
    hide GetBlock, Page;
    PageFollows(d, c + 1, tip, BLOCK_PAGE);
    forall g | c < g <= tip && g in d.index.history.blocks ensures Page(d, c + 1, tip, BLOCK_PAGE) != [] {
      PageHolds(d, c + 1, tip, g);
    }
    PageLimit(d, c + 1, tip);
  }

  /** A page short of the limit leaves nothing out. */
  lemma PageLimit(d: Database, from: int, to: int)
    requires Housed(d.index.history)
    ensures var page := Page(d, from, to, BLOCK_PAGE);
      && |page| <= 500
      && (|page| < 500 ==> forall g :: from <= g <= to && g in d.index.history.blocks ==>
            page != [] && g <= page[|page| - 1].height)
  {
    hide GetBlock, Order.Sort;
    var keys, page := BlockKeys(d.index.history, from, to), Page(d, from, to, BLOCK_PAGE);
    if |page| < 500 {
      forall g | from <= g <= to && g in d.index.history.blocks ensures page != [] && g <= page[|page| - 1].height {
        assert Order.Key(g, 0, "") in Order.Elements(Order.Sort(keys));
        var i :| 0 <= i < |keys| && Order.Sort(keys)[i] == Order.Key(g, 0, "");
        var last := |keys| - 1;
        PageHeightStored(d, from, to, BLOCK_PAGE, last);
        RowHeight(d, Order.Sort(keys)[last].height);
        assert i < last ==> Order.Less(Order.Sort(keys)[i], Order.Sort(keys)[last]);
      }
    }
  }

  lemma PageHolds(d: Database, from: int, to: int, g: int)
    requires Housed(d.index.history) && from <= g <= to && g in d.index.history.blocks
    ensures Page(d, from, to, BLOCK_PAGE) != []
  {
    hide GetBlock;
    assert Order.Key(g, 0, "") in BlockKeys(d.index.history, from, to);
  }

  /**
   * The height asked for is the first delivered. After a registration from `f` is accepted, the
   * dispatcher's first page begins with the first stored block at `f` or above that may be
   * delivered; after one without a height it finds nothing to deliver.
   */
  lemma FirstDelivered(d: Database, hook: Hook, from: Option<nat>, finalized: Option<int>, p: Projections)
    requires Readable(d) && (from.Some? ==> from.value <= Top(d) + 1)
    ensures var w := World(Webhooks.Register(d, hook.id, from), finalized, Idle, [], {});
      var v := Run(w, [ListHooks, ReadTip, ReadPage], hook, p);
      && (from.None? ==> v.phase.Idle?)
      && (from.Some? ==>
            && (v.phase.Posting? <==> exists g :: g >= from.value && Deliverable(w, g))
            && (v.phase.Posting? ==>
                  && AtBlock(v) && v.phase.page[0].height >= from.value && v.phase.i == 0 && v.phase.j == 0
                  && v.phase.page[0].height in d.index.history.blocks
                  && forall g :: from.value <= g < v.phase.page[0].height ==> g !in d.index.history.blocks))
  {
    hide Good, OwnSignatures, DroppedHoused, GetBlock, Housed, Run;
    Webhooks.RegistrationIs(d, hook.id, from);
    var w := World(Webhooks.Register(d, hook.id, from), finalized, Idle, [], {});
    HooksOnly(d, w.db.hooks);
    SessionStarts(w, hook, p);
    assert forall g :: Deliverable(w, g) ==> g <= Top(d);
  }

  /**
   * And all that was asked for is delivered. After a registration from `f`, over every run that
   * is undisturbed: everything stored at `f` or above, up to the hook's cursor, was acknowledged.
   */
  lemma DeliveredFrom(d: Database, f: nat, finalized: Option<int>, moves: seq<Move>, hook: Hook, p: Projections)
    requires Readable(d) && f <= Top(d) + 1
    requires var w := World(Webhooks.Register(d, hook.id, Some(f)), finalized, Idle, [], {});
      CommitsClear(w, moves, f - 1, hook, p) && RollsClear(w, moves, f - 1, hook, p)
    ensures var v := Run(World(Webhooks.Register(d, hook.id, Some(f)), finalized, Idle, [], {}), moves, hook, p);
      Housed(v.db.index.history) && (hook.id in v.db.hooks ==>
        forall g, q :: f <= g <= v.db.hooks[hook.id] && 0 <= q < |OwedAt(v.db, g, hook, p)| ==>
          AckedAt(v.acked, g, HashAt(v.db, g), q))
  {
    hide Good, OwnSignatures, DroppedHoused, Run, CommitsClear, RollsClear, OwedAt, AckedAt, HashAt, InTurn;
    var w := World(Webhooks.Register(d, hook.id, Some(f)), finalized, Idle, [], {});
    Webhooks.RegistrationIs(d, hook.id, Some(f));
    HooksOnly(d, w.db.hooks);
    DeliveredUndisturbed(w, moves, f - 1, hook, p);
  }

  // ------------------------------------------------------------------ progress

  /** The dispatcher's own steps, with a receiver that takes every delivery. */
  predicate Taken(m: Move) {
    m == ListHooks || m == ReadTip || m == ReadPage || m == Post(true) || m == Record
  }

  ghost predicate AllTaken(moves: seq<Move>) {
    forall m :: m in moves ==> Taken(m)
  }

  /** The rest of a block, then its record. */
  lemma TakeBlock(w: World, hook: Hook, p: Projections) returns (moves: seq<Move>)
    requires AtBlock(w) && Housed(w.db.index.history) && hook.id in w.db.hooks && w.phase.j == 0
    requires HashAt(w.db, w.phase.page[w.phase.i].height) == Some(w.phase.page[w.phase.i].hash)
    ensures AllTaken(moves)
    ensures var h, v := w.phase.page[w.phase.i].height, Run(w, moves, hook, p);
      v.db == w.db.(hooks := w.db.hooks[hook.id := h]) && v.phase == AfterBlock(w.phase, true) && v.finalized == w.finalized
  {
    hide Deliveries, Housed;
    var n := |Deliveries(hook, w.phase.page[w.phase.i], p)|;
    var front := Rearm.PostSome(w, n, hook, p);
    RunOne(w, front, Record, hook, p);
    moves := front + [Record];
  }

  /** Every row of a page is stored as read. */
  ghost predicate PageStored(w: World) {
    w.phase.Posting? && forall k :: w.phase.i <= k < |w.phase.page| ==>
      HashAt(w.db, w.phase.page[k].height) == Some(w.phase.page[k].hash)
  }

  /** The rest of a page: the hook's cursor ends on its last row. */
  lemma TakePage(w: World, hook: Hook, p: Projections) returns (moves: seq<Move>)
    requires AtBlock(w) && Housed(w.db.index.history) && hook.id in w.db.hooks && w.phase.j == 0 && PageStored(w)
    ensures AllTaken(moves)
    ensures var h, v := w.phase.page[|w.phase.page| - 1].height, Run(w, moves, hook, p);
      && v.db == w.db.(hooks := w.db.hooks[hook.id := h]) && v.finalized == w.finalized
      && v.phase == if h < w.phase.tip then Ready(h, w.phase.tip) else Idle
    decreases |w.phase.page| - w.phase.i
  {
    hide Run, Housed;
    moves := TakeBlock(w, hook, p);
    var u := Run(w, moves, hook, p);
    if w.phase.i + 1 < |w.phase.page| {
      assert u.phase.page == w.phase.page && u.db.index == w.db.index;
      SameHouses(w.db, u.db);
      var more := TakePage(u, hook, p);
      RunAppend(w, moves, more, hook, p);
      moves := moves + more;
    }
  }

  lemma SameHouses(d: Database, e: Database)
    requires Housed(d.index.history) && e.index == d.index
    ensures Housed(e.index.history)
  {}

  /** Page after page up to the tip. */
  lemma TakePages(w: World, hook: Hook, p: Projections) returns (moves: seq<Move>, last: int)
    requires w.phase.Ready? && Readable(w.db) && hook.id in w.db.hooks && w.phase.cursor <= w.phase.tip
    requires w.db.hooks[hook.id] == w.phase.cursor
    ensures AllTaken(moves)
    ensures var v := Run(w, moves, hook, p);
      && v.phase.Idle? && v.finalized == w.finalized && v.db == w.db.(hooks := w.db.hooks[hook.id := last])
      && w.phase.cursor <= last <= w.phase.tip
      && forall g :: last < g <= w.phase.tip ==> g !in w.db.index.history.blocks
    decreases w.phase.tip - w.phase.cursor
  {
    hide Run, Page, GetBlock, Good, OwnSignatures, DroppedHoused, Housed, HashAt, FollowsIn;
    ReadableHouses(w.db);
    RunNone(w, hook, p);
    RunOne(w, [], ReadPage, hook, p);
    assert [] + [ReadPage] == [ReadPage];
    moves := [ReadPage];
    var v := Run(w, moves, hook, p);
    PageReads(w.db, w.phase.cursor, w.phase.tip);
    if v.phase.Idle? {
      last := w.phase.cursor;
    } else {
      PageLasts(w.db, w.phase.cursor, w.phase.tip);
      var more := TakePage(v, hook, p);
      RunAppend(w, moves, more, hook, p);
      moves := moves + more;
      var u := Run(w, moves, hook, p);
      last := v.phase.page[|v.phase.page| - 1].height;
      if last < w.phase.tip {
        HooksOnly(w.db, u.db.hooks);
        var rest;
        rest, last := TakePages(u, hook, p);
        RunAppend(w, moves, rest, hook, p);
        moves := moves + rest;
      }
    }
  }

  lemma PageLasts(d: Database, c: int, tip: int)
    requires Housed(d.index.history) && Page(d, c + 1, tip, BLOCK_PAGE) != []
    ensures var page := Page(d, c + 1, tip, BLOCK_PAGE);
      && c < page[|page| - 1].height <= tip
      && forall k :: 0 <= k < |page| ==> HashAt(d, page[k].height) == Some(page[k].hash)
  {
    hide GetBlock, Page, Housed, HashAt;
    PageFollows(d, c + 1, tip, BLOCK_PAGE);
    var page := Page(d, c + 1, tip, BLOCK_PAGE);
    forall k | 0 <= k < |page| ensures HashAt(d, page[k].height) == Some(page[k].hash) { StoredHash(d, page[k].height); }
    RowsAbove(d, page, c, |page| - 1);
  }

  lemma {:induction false} RowsAbove(d: Database, page: seq<BlockRow>, c: int, k: nat)
    requires k < |page| && FollowsIn(d, c, page[0].height)
    requires forall i :: 0 < i < |page| ==> FollowsIn(d, page[i - 1].height, page[i].height)
    ensures page[k].height > c
  {
    if k > 0 { RowsAbove(d, page, c, k - 1); }
  }

  /**
   * The dispatcher gets there. From any idle state and any cursor of the hook, while nothing is
   * committed or rolled back and the receiver takes what it is sent, one session - it exists, by
   * its own steps alone - leaves no deliverable block above the hook's cursor.
   */
  lemma CatchesUp(w: World, hook: Hook, p: Projections) returns (moves: seq<Move>)
    requires Readable(w.db) && w.phase.Idle? && hook.id in w.db.hooks
    ensures AllTaken(moves)
    ensures var v := Run(w, moves, hook, p);
      && v.phase.Idle? && hook.id in v.db.hooks && v.db == w.db.(hooks := w.db.hooks[hook.id := v.db.hooks[hook.id]])
      && v.db.hooks[hook.id] >= w.db.hooks[hook.id]
      && (forall g :: Deliverable(w, g) ==> g <= v.db.hooks[hook.id])
      && (v.db.hooks[hook.id] > w.db.hooks[hook.id] ==> (
            && v.db.cursor.Some? && v.db.hooks[hook.id] <= v.db.cursor.value
            && (w.finalized.Some? ==> v.db.hooks[hook.id] <= w.finalized.value)))
  {
    hide Good, OwnSignatures, DroppedHoused, GetBlock, Housed, Run, Page;
    ReadableHouses(w.db);
    RunNone(w, hook, p);
    RunOne(w, [], ListHooks, hook, p);
    RunOne(w, [] + [ListHooks], ReadTip, hook, p);
    moves := [] + [ListHooks] + [ReadTip];
    var t := Run(w, moves, hook, p);
    if t.phase.Ready? {
      var more, last := TakePages(t, hook, p);
      RunAppend(w, moves, more, hook, p);
      moves := moves + more;
      assert Run(w, moves, hook, p).db.hooks[hook.id] == last;
    } else {
      assert w.db.hooks[hook.id := w.db.hooks[hook.id]] == w.db.hooks;
    }
  }

  /**
   * No crash and no backlog is for ever. From any state whatever, mid-delivery included: when the
   * process is restarted and the node finalizes what is indexed, one session leaves the hook's
   * cursor at or above every height stored.
   */
  lemma NothingIsStuck(w: World, hook: Hook, p: Projections) returns (moves: seq<Move>)
    requires Readable(w.db) && hook.id in w.db.hooks && w.db.cursor.Some?
    requires w.finalized.Some? ==> w.finalized.value <= w.db.cursor.value
    ensures AllTaken(moves)
    ensures var v := Run(w, [Crash, Finalize(w.db.cursor.value)] + moves, hook, p);
      && v.db == w.db.(hooks := v.db.hooks) && hook.id in v.db.hooks
      && forall g :: g in w.db.index.history.blocks ==> g <= v.db.hooks[hook.id]
  {
    hide Good, OwnSignatures, DroppedHoused, Housed, Run;
    ReadableHouses(w.db);
    RunNone(w, hook, p);
    RunOne(w, [], Crash, hook, p);
    RunOne(w, [] + [Crash], Finalize(w.db.cursor.value), hook, p);
    var first := [] + [Crash] + [Finalize(w.db.cursor.value)];
    assert first == [Crash, Finalize(w.db.cursor.value)];
    var t := Run(w, first, hook, p);
    moves := CatchesUp(t, hook, p);
    RunAppend(w, first, moves, hook, p);
    forall g | g in w.db.index.history.blocks ensures Deliverable(t, g) {
      StoredBelow(w.db, g);
    }
  }

  lemma StoredBelow(d: Database, g: int)
    requires Readable(d) && g in d.index.history.blocks
    ensures d.cursor.Some? && g <= d.cursor.value
  {}

  // -------------------------------------------------------------- cursor safety

  /** What a step of the dispatcher or the writer is to the hooks' cursors. */
  function EventsOf(w: World, m: Move, hook: Hook): seq<Webhooks.Event> {
    match m
    case Record =>
      if AtBlock(w) then [Webhooks.Deliver(hook.id, w.phase.page[w.phase.i].height, w.phase.page[w.phase.i].hash)] else []
    case Insert(blocks) => [Webhooks.Insert(blocks)]
    case RollTo(height) => [Webhooks.RollTo(height)]
    case _ => []
  }

  lemma MoveIsEvents(w: World, m: Move, hook: Hook, p: Projections)
    requires Enabled(w, m, hook, p) && Housed(w.db.index.history)
    ensures var events, d := EventsOf(w, m, hook), Next(w, m, hook, p).db;
      && Webhooks.Legal(events) && |events| <= 1
      && d == if events == [] then w.db else Webhooks.Happen(w.db, events[0], p)
  {
    hide Deliveries, Page, InsertAll, Rollback, Housed;
  }

  /** So no run of the dispatcher, with whatever is committed and rolled back meanwhile, takes a cursor above the indexed height. */
  lemma {:induction false} CursorsSafe(w: World, moves: seq<Move>, hook: Hook, p: Projections) returns (events: seq<Webhooks.Event>)
    requires Webhooks.CursorsOk(w.db)
    ensures Webhooks.Legal(events) && Webhooks.Run(w.db, events, p) == Run(w, moves, hook, p).db
    ensures Webhooks.CursorsOk(Run(w, moves, hook, p).db)
  {
    hide Webhooks.CursorsOk, Enabled, Next, Housed, Webhooks.Happen, EventsOf;
    if moves == [] {
      events := [];
    } else {
      var front, m := moves[..|moves| - 1], moves[|moves| - 1];
      events := CursorsSafe(w, front, hook, p);
      var v := Run(w, front, hook, p);
      if Enabled(v, m, hook, p) && Housed(v.db.index.history) {
        MoveIsEvents(v, m, hook, p);
        var more := EventsOf(v, m, hook);
        if more != [] {
          assert (events + more)[..|events + more| - 1] == events;
          events := events + more;
        }
      }
      Webhooks.CursorsStayIndexed(w.db, events, p);
    }
  }

  // --------------------------------------------------------- whom it concerns

  /** None of the block's identities has a role row yet. */
  ghost predicate NoRoleRows(x: History, b: Block) {
    forall k :: k in x.actionAddresses ==> !exists i :: 0 <= i < |b.actions| && IdOf(b, i) == k.0
  }

  /**
   * What a hook on an address wants of a block's actions is what the tables say of the address
   * once the block is committed with identities of its own: the actions with a sender row or a
   * role row of that address.
   */
  lemma WantedIsIndexed(x: History, b: Block, i: nat, hook: Hook, row: BlockRow, p: Projections)
    requires i < |b.actions| && FreshIdentities(x, b) && NoRoleRows(x, b) && hook.actions && hook.address.Some?
    requires NoSenderRows(x, b) && row.actions == WireActions(b)
    ensures var y, id, address := InsertHistory(x, b, p), IdOf(b, i), hook.address.value;
      ActionDelivery(WireActions(b)[i]) in Deliveries(hook, row, p) <==>
        ((address, id), b.height) in y.accountActions || exists role :: (id, address, role) in y.actionAddresses
  {
    hide Deliveries, InsertHistory, IdOf, FreshIdentities;
    DeliveriesAreWanted(hook, row, p, ActionDelivery(WireActions(b)[i]));
    SenderRowIs(x, b, i, hook.address.value, p);
    RoleRowIs(x, b, i, hook.address.value, p);
    assert WireActions(b)[i] in row.actions;
  }

  /** No action of the block has a sender row at its height yet. */
  ghost predicate NoSenderRows(x: History, b: Block) {
    forall r :: r in x.accountActions ==> r.1 != b.height
  }

  lemma SenderRowIs(x: History, b: Block, i: nat, address: string, p: Projections)
    requires i < |b.actions| && FreshIdentities(x, b) && NoSenderRows(x, b)
    ensures ((address, IdOf(b, i)), b.height) in InsertHistory(x, b, p).accountActions <==> b.actions[i].sender == address
  {
    hide ActionId, AddressEntries, ActionEntries, TokenRows, AssetRows;
    var k := (address, IdOf(b, i));
    if Tables.FirstFor(SenderEntries(b), k).Some? {
      Tables.FirstIsEntry(SenderEntries(b), k);
      var n :| 0 <= n < |SenderEntries(b)| && SenderEntries(b)[n] == (k, Tables.FirstFor(SenderEntries(b), k).value);
      assert IdOf(b, n) == IdOf(b, i);
    }
    if b.actions[i].sender == address { assert SenderEntries(b)[i].0 == k; }
  }

  lemma RoleRowIs(x: History, b: Block, i: nat, address: string, p: Projections)
    requires i < |b.actions| && FreshIdentities(x, b) && NoRoleRows(x, b)
    ensures (exists role :: (IdOf(b, i), address, role) in InsertHistory(x, b, p).actionAddresses)
      <==> exists j :: 0 <= j < |p.resolve(b.actions[i].kind, b.actions[i].payload)|
             && p.resolve(b.actions[i].kind, b.actions[i].payload)[j].0 == address
  {
    hide ActionId, AddressEntries, ActionEntries, SenderEntries, TokenRows, AssetRows, InsertHistory;
    var id, found := IdOf(b, i), p.resolve(b.actions[i].kind, b.actions[i].payload);
    forall role
      ensures (id, address, role) in InsertHistory(x, b, p).actionAddresses
        <==> exists j :: 0 <= j < |found| && found[j] == (address, role)
    {
      OneRoleRow(x, b, i, address, role, p);
    }
    if j :| 0 <= j < |found| && found[j].0 == address {
      assert found[j] == (address, found[j].1);
      assert (id, address, found[j].1) in InsertHistory(x, b, p).actionAddresses;
    }
  }

  lemma OneRoleRow(x: History, b: Block, i: nat, address: string, role: string, p: Projections)
    requires i < |b.actions| && FreshIdentities(x, b) && NoRoleRows(x, b)
    ensures var found := p.resolve(b.actions[i].kind, b.actions[i].payload);
      (IdOf(b, i), address, role) in InsertHistory(x, b, p).actionAddresses <==>
        exists j :: 0 <= j < |found| && found[j] == (address, role)
  {
    hide ActionId, AddressEntries, InsertHistory;
    var k := (IdOf(b, i), address, role);
    Reindex.AddressesOf(x, b, p);
    Reindex.AddressesGiven(b, |b.actions|, p, k);
    assert IdOf(b, i) == k.0 && k !in x.actionAddresses;
    var found := p.resolve(b.actions[i].kind, b.actions[i].payload);
    assert Reindex.Gives(b, i, p, k) <==> exists j :: 0 <= j < |found| && found[j] == (address, role);
    forall n: nat | n < |b.actions| && Reindex.Gives(b, n, p, k) ensures n == i {
      assert IdOf(b, n) == IdOf(b, i);
    }
  }
}

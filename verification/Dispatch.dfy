/** The webhook dispatcher against concurrent commits and rollbacks; under finality what it posted stays. */
module Dispatch {
  import opened Wire
  import opened Storage
  import opened Store
  import opened Replay
  import opened Rows
  import opened RangeRead
  import opened Broadcast
  import Webhooks
  import opened Order
  import Identities

  // -------------------------------------------------------------- deliveries

  datatype Hook = Hook(id: nat, address: Option<string>, actions: bool, dropped: bool)

  datatype Delivery = ActionDelivery(action: ActionView) | DroppedDelivery(row: DroppedView, timestamp: nat)

  /** The address is the sender, or holds a role the extractor finds. */
  predicate Involves(a: ActionView, address: string, p: Projections) {
    a.sender == address || exists i :: 0 <= i < |p.resolve(a.kind, a.payload)| && p.resolve(a.kind, a.payload)[i].0 == address
  }

  function ActionDeliveries(actions: seq<ActionView>, address: Option<string>, p: Projections): seq<Delivery> {
    if actions == [] then []
    else
      var front, a := ActionDeliveries(actions[..|actions| - 1], address, p), actions[|actions| - 1];
      if address.None? || Involves(a, address.value, p) then front + [ActionDelivery(a)] else front
  }

  function DroppedDeliveries(dropped: seq<DroppedView>, address: Option<string>, timestamp: nat): seq<Delivery> {
    if dropped == [] then []
    else
      var front, v := DroppedDeliveries(dropped[..|dropped| - 1], address, timestamp), dropped[|dropped| - 1];
      if address.None? || v.effect.sender == address.value then front + [DroppedDelivery(v, timestamp)] else front
  }

  /** What a block owes a hook: its actions in order, then its dropped actions. */
  function Deliveries(hook: Hook, row: BlockRow, p: Projections): seq<Delivery> {
    (if hook.actions then ActionDeliveries(row.actions, hook.address, p) else [])
    + (if hook.dropped then DroppedDeliveries(row.dropped, hook.address, row.timestamp) else [])
  }

  /**
   * The hook wants this delivery of the row: its kind is subscribed, and the hook has no address,
   * or its address sent the action, or the extractor finds it in some role of the action; of a
   * dropped action only the sender counts.
   */
  ghost predicate Wanted(hook: Hook, row: BlockRow, x: Delivery, p: Projections) {
    match x
    case ActionDelivery(a) =>
      && hook.actions && a in row.actions
      && (hook.address.None? || a.sender == hook.address.value
          || exists i :: 0 <= i < |p.resolve(a.kind, a.payload)| && p.resolve(a.kind, a.payload)[i].0 == hook.address.value)
    case DroppedDelivery(v, t) =>
      hook.dropped && v in row.dropped && t == row.timestamp && (hook.address.None? || v.effect.sender == hook.address.value)
  }

  lemma {:induction false} ActionsWanted(actions: seq<ActionView>, address: Option<string>, p: Projections, x: Delivery)
    ensures x in ActionDeliveries(actions, address, p)
      <==> x.ActionDelivery? && x.action in actions && (address.None? || Involves(x.action, address.value, p))
  {
    hide Involves;
    if actions != [] {
      ActionsWanted(actions[..|actions| - 1], address, p, x);
      assert actions == actions[..|actions| - 1] + [actions[|actions| - 1]];
    }
  }

  lemma {:induction false} DroppedWanted(dropped: seq<DroppedView>, address: Option<string>, timestamp: nat, x: Delivery)
    ensures x in DroppedDeliveries(dropped, address, timestamp)
      <==> (x.DroppedDelivery? && x.row in dropped && x.timestamp == timestamp
            && (address.None? || x.row.effect.sender == address.value))
  {
    if dropped != [] {
      DroppedWanted(dropped[..|dropped| - 1], address, timestamp, x);
      assert dropped == dropped[..|dropped| - 1] + [dropped[|dropped| - 1]];
    }
  }

  /** A block owes a hook exactly what it wants of it. */
  lemma DeliveriesAreWanted(hook: Hook, row: BlockRow, p: Projections, x: Delivery)
    ensures x in Deliveries(hook, row, p) <==> Wanted(hook, row, x, p)
  {
    hide ActionDeliveries, DroppedDeliveries;
    ActionsWanted(row.actions, hook.address, p, x);
    DroppedWanted(row.dropped, hook.address, row.timestamp, x);
  }

  /** The stream's order within a block: actions by position, then dropped actions by signature. */
  predicate Precedes(x: Delivery, y: Delivery) {
    match x
    case ActionDelivery(a) => y.DroppedDelivery? || a.index < y.action.index
    case DroppedDelivery(v, _) => y.DroppedDelivery? && TextLess(v.effect.signature, y.row.effect.signature)
  }

  ghost predicate ActionsAscend(actions: seq<ActionView>) {
    forall k, l :: 0 <= k < l < |actions| ==> actions[k].index < actions[l].index
  }

  ghost predicate DroppedAscend(dropped: seq<DroppedView>) {
    forall k, l :: 0 <= k < l < |dropped| ==> TextLess(dropped[k].effect.signature, dropped[l].effect.signature)
  }

  lemma {:induction false} ActionsInOrder(actions: seq<ActionView>, address: Option<string>, p: Projections, i: nat, j: nat)
    requires i < j < |ActionDeliveries(actions, address, p)| && ActionsAscend(actions)
    ensures Precedes(ActionDeliveries(actions, address, p)[i], ActionDeliveries(actions, address, p)[j])
  {
    hide Involves;
    var front, owed := actions[..|actions| - 1], ActionDeliveries(actions[..|actions| - 1], address, p);
    if j < |owed| {
      ActionsInOrder(front, address, p, i, j);
    } else {
      ActionsWanted(front, address, p, owed[i]);
      var k :| 0 <= k < |front| && front[k] == owed[i].action;
      assert actions[k].index < actions[|actions| - 1].index;
    }
  }

  lemma {:induction false} DroppedInOrder(dropped: seq<DroppedView>, address: Option<string>, timestamp: nat, i: nat, j: nat)
    requires i < j < |DroppedDeliveries(dropped, address, timestamp)| && DroppedAscend(dropped)
    ensures Precedes(DroppedDeliveries(dropped, address, timestamp)[i], DroppedDeliveries(dropped, address, timestamp)[j])
  {
    hide TextLess;
    var front, owed := dropped[..|dropped| - 1], DroppedDeliveries(dropped[..|dropped| - 1], address, timestamp);
    if j < |owed| {
      DroppedInOrder(front, address, timestamp, i, j);
    } else {
      DroppedWanted(front, address, timestamp, owed[i]);
      var k :| 0 <= k < |front| && front[k] == owed[i].row;
      assert TextLess(dropped[k].effect.signature, dropped[|dropped| - 1].effect.signature);
    }
  }

  /**
   * What a stored block owes is posted in the stream's order, whatever the filter leaves out: the
   * actions by their position in the block, then the dropped actions by signature.
   */
  lemma DeliveriesInOrder(d: Database, h: int, hook: Hook, p: Projections, i: nat, j: nat)
    requires Readable(d) && Identities.PositionsUnique(d.index.history) && GetBlock(d, h).Some?
    requires i < j < |Deliveries(hook, GetBlock(d, h).value, p)|
    ensures var owed := Deliveries(hook, GetBlock(d, h).value, p); Precedes(owed[i], owed[j])
  {
    hide Precedes, ActionDeliveries, DroppedDeliveries, ActionsAscend, DroppedAscend, GetBlock, TextLess;
    var row := GetBlock(d, h).value;
    StoredAscends(d, h);
    var actions := if hook.actions then ActionDeliveries(row.actions, hook.address, p) else [];
    var dropped := if hook.dropped then DroppedDeliveries(row.dropped, hook.address, row.timestamp) else [];
    if j < |actions| {
      ActionsInOrder(row.actions, hook.address, p, i, j);
    } else if i >= |actions| {
      DroppedInOrder(row.dropped, hook.address, row.timestamp, i - |actions|, j - |actions|);
    } else {
      ActionsFirst(row, hook.address, p, actions[i], dropped[j - |actions|]);
    }
  }

  lemma ActionsFirst(row: BlockRow, address: Option<string>, p: Projections, x: Delivery, y: Delivery)
    requires x in ActionDeliveries(row.actions, address, p) && y in DroppedDeliveries(row.dropped, address, row.timestamp)
    ensures Precedes(x, y)
  {
    ActionsWanted(row.actions, address, p, x);
    DroppedWanted(row.dropped, address, row.timestamp, y);
  }

  /** A block is read with its actions by position and its dropped actions by signature. */
  lemma StoredAscends(d: Database, h: int)
    requires Readable(d) && Identities.PositionsUnique(d.index.history) && GetBlock(d, h).Some?
    ensures ActionsAscend(GetBlock(d, h).value.actions) && DroppedAscend(GetBlock(d, h).value.dropped)
  {
    hide Good, Sort, Undecoded, TextLess;
    var x, s := d.index.history, d.index.state;
    var actions, dropped := ActionKeys(x, h, h), DroppedKeys(s, h, h);
    forall k, l | 0 <= k < l < |actions| ensures Actions(x, h, h)[k].index < Actions(x, h, h)[l].index {
      RangeRead.Listed(actions, k);
      RangeRead.Listed(actions, l);
      assert Less(Sort(actions)[k], Sort(actions)[l]);
      Total(Sort(actions)[k], Sort(actions)[k]);
      Identities.UniqueAt(x, Sort(actions)[k].name, Sort(actions)[l].name);
    }
    forall k, l | 0 <= k < l < |dropped|
      ensures TextLess(Dropped(s, h, h)[k].effect.signature, Dropped(s, h, h)[l].effect.signature)
    {
      RangeRead.Listed(dropped, k);
      RangeRead.Listed(dropped, l);
      assert Less(Sort(dropped)[k], Sort(dropped)[l]);
    }
  }

  function DeliverableTip(indexed: int, finalized: Option<int>): int {
    if finalized.Some? && finalized.value < indexed then finalized.value else indexed
  }

  // ------------------------------------------------------------ state machine

  /** `cursor` is the dispatcher's own copy of the hook's cursor; `i`, `j` the block and delivery it is at. */
  datatype Phase =
    | Idle
    | Listed(cursor: int)
    | Ready(cursor: int, tip: int)
    | Posting(cursor: int, tip: int, page: seq<BlockRow>, i: nat, j: nat)

  /** An acknowledged delivery: the block, its place among the block's deliveries, and what was posted. */
  datatype Ack = Ack(height: int, hash: string, place: nat, delivery: Delivery)

  /** `sent` holds the (height, hash) of every block something of which was posted, acknowledged or not. */
  datatype World = World(db: Database, finalized: Option<int>, phase: Phase, acked: seq<Ack>, sent: set<(int, string)>)

  datatype Move =
    | ListHooks | ReadTip | ReadPage | Post(accepted: bool) | Record | Crash
    | Insert(blocks: seq<Block>) | RollTo(height: int) | Finalize(height: int)

  predicate AtBlock(w: World) {
    w.phase.Posting? && w.phase.i < |w.phase.page|
  }

  ghost predicate Enabled(w: World, m: Move, hook: Hook, p: Projections) {
    match m
    case ListHooks => w.phase.Idle? && hook.id in w.db.hooks
    case ReadTip => w.phase.Listed?
    case ReadPage => w.phase.Ready?
    case Post(_) => AtBlock(w) && w.phase.j < |Deliveries(hook, w.phase.page[w.phase.i], p)|
    case Record => AtBlock(w) && w.phase.j == |Deliveries(hook, w.phase.page[w.phase.i], p)|
    case Crash => true
    case Insert(blocks) => InsertAll(w.db, blocks, p).Ok?
    case RollTo(height) => height >= -1 && (w.finalized.Some? ==> height >= w.finalized.value)
    case Finalize(height) => w.finalized.Some? ==> w.finalized.value <= height
  }

  /** Recording a block: on to the next of the page, to another page, or back to sleep. */
  function AfterBlock(ph: Phase, landed: bool): Phase
    requires ph.Posting? && ph.i < |ph.page|
  {
    var h := ph.page[ph.i].height;
    if !landed then Idle
    else if ph.i + 1 < |ph.page| then Posting(h, ph.tip, ph.page, ph.i + 1, 0)
    else if h < ph.tip then Ready(h, ph.tip)
    else Idle
  }

  function Next(w: World, m: Move, hook: Hook, p: Projections): World
    requires Enabled(w, m, hook, p) && Housed(w.db.index.history)
  {
    match m
    case ListHooks => w.(phase := Listed(w.db.hooks[hook.id]))
    case ReadTip =>
      if w.db.cursor.None? then w.(phase := Idle)
      else
        var tip := DeliverableTip(w.db.cursor.value, w.finalized);
        w.(phase := if w.phase.cursor < tip then Ready(w.phase.cursor, tip) else Idle)
    case ReadPage =>
      var page := Page(w.db, w.phase.cursor + 1, w.phase.tip, BLOCK_PAGE);
      w.(phase := if page == [] then Idle else Posting(w.phase.cursor, w.phase.tip, page, 0, 0))
    case Post(accepted) =>
      var row := w.phase.page[w.phase.i];
      var sent := w.sent + {(row.height, row.hash)};
      if accepted then
        w.(sent := sent, acked := w.acked + [Ack(row.height, row.hash, w.phase.j, Deliveries(hook, row, p)[w.phase.j])],
           phase := w.phase.(j := w.phase.j + 1))
      else w.(sent := sent, phase := Idle)
    case Record =>
      var row := w.phase.page[w.phase.i];
      w.(db := Webhooks.Delivered(w.db, hook.id, row.height, row.hash),
         phase := AfterBlock(w.phase, Webhooks.Lands(w.db, hook.id, row.height, row.hash)))
    case Crash => w.(phase := Idle)
    case Insert(blocks) => w.(db := InsertAll(w.db, blocks, p).value)
    case RollTo(height) => w.(db := Rollback(w.db, height))
    case Finalize(height) => w.(finalized := Some(height))
  }

  // -------------------------------------------------------- owed and delivered

  /** What the block stored at `g` owes the hook. */
  function OwedAt(d: Database, g: int, hook: Hook, p: Projections): seq<Delivery>
    requires Housed(d.index.history)
  {
    match GetBlock(d, g)
    case None => []
    case Some(row) => Deliveries(hook, row, p)
  }

  /** The q-th delivery of the block (g, hash) was acknowledged. */
  ghost predicate AckedAt(acked: seq<Ack>, g: int, hash: Option<string>, q: int) {
    exists m :: 0 <= m < |acked| && acked[m].height == g && Some(acked[m].hash) == hash && acked[m].place == q
  }

  /** Everything the stored blocks in (start, c] owe was acknowledged. */
  ghost predicate Done(w: World, c: int, start: int, hook: Hook, p: Projections)
    requires Housed(w.db.index.history)
  {
    forall g, q :: start < g <= c && 0 <= q < |OwedAt(w.db, g, hook, p)| ==> AckedAt(w.acked, g, HashAt(w.db, g), q)
  }

  lemma ContentBlock(d: Database, e: Database, h: int)
    requires Housed(d.index.history) && Housed(e.index.history) && Content(GetBlock(d, h)) == Content(GetBlock(e, h))
    ensures h in d.index.history.blocks <==> h in e.index.history.blocks
    ensures HashAt(d, h) == HashAt(e, h)
  {}

  lemma ContentOwed(d: Database, e: Database, h: int, hook: Hook, p: Projections)
    requires Housed(d.index.history) && Housed(e.index.history) && Content(GetBlock(d, h)) == Content(GetBlock(e, h))
    ensures OwedAt(d, h, hook, p) == OwedAt(e, h, hook, p)
  {
    hide Deliveries, GetBlock;
    SameOwed(GetBlock(d, h), GetBlock(e, h), hook, p);
  }

  lemma SameOwed(a: Option<BlockRow>, b: Option<BlockRow>, hook: Hook, p: Projections)
    requires Content(a) == Content(b)
    ensures a.Some? <==> b.Some?
    ensures a.Some? ==> a.value.hash == b.value.hash && Deliveries(hook, a.value, p) == Deliveries(hook, b.value, p)
  {
    hide ActionDeliveries, DroppedDeliveries;
  }

  lemma MoreAcked(acked: seq<Ack>, a: Ack, g: int, hash: Option<string>, q: int)
    ensures AckedAt(acked, g, hash, q) ==> AckedAt(acked + [a], g, hash, q)
    ensures AckedAt(acked + [a], a.height, Some(a.hash), a.place)
  {
    if m :| 0 <= m < |acked| && acked[m].height == g && Some(acked[m].hash) == hash && acked[m].place == q {
      assert (acked + [a])[m] == acked[m];
    }
    assert (acked + [a])[|acked|] == a;
  }

  lemma StoredHash(d: Database, h: int)
    requires Housed(d.index.history)
    ensures GetBlock(d, h).Some? ==> HashAt(d, h) == Some(GetBlock(d, h).value.hash)
  {}

  lemma NothingOwed(d: Database, g: int, hook: Hook, p: Projections)
    requires Housed(d.index.history)
    ensures g !in d.index.history.blocks ==> OwedAt(d, g, hook, p) == []
  {}

  lemma OwedIsStored(d: Database, g: int, hook: Hook, p: Projections)
    requires Housed(d.index.history)
    ensures OwedAt(d, g, hook, p) != [] ==> HashAt(d, g).Some?
  {
    NothingOwed(d, g, hook, p);
  }

  // ------------------------------------------------------------- environment

  /** No block of the transaction has this height. */
  ghost predicate Untouched(blocks: seq<Block>, h: int) {
    forall j :: 0 <= j < |blocks| ==> blocks[j].height != h
  }

  /** Whatever commits, at whatever heights: other heights read as before and no stored header changes. */
  lemma {:induction false} InsertAllReads(d: Database, blocks: seq<Block>, p: Projections)
    requires Readable(d) && InsertAll(d, blocks, p).Ok?
    ensures var e := InsertAll(d, blocks, p).value;
      && Readable(e) && Top(e) >= Top(d) && e.hooks == d.hooks
      && (forall h :: HashAt(d, h).Some? ==> HashAt(e, h) == HashAt(d, h))
      && forall h :: Untouched(blocks, h) ==> Content(GetBlock(e, h)) == Content(GetBlock(d, h))
  {
    hide InsertIndex, GetBlock, Housed, OwnSignatures, DroppedHoused, Good;
    if blocks != [] {
      var front, b := blocks[..|blocks| - 1], blocks[|blocks| - 1];
      InsertAllReads(d, front, p);
      var d' := InsertAll(d, front, p).value;
      InsertReadable(d', b, p);
      forall h | Untouched(blocks, h) ensures Content(GetBlock(InsertAll(d, blocks, p).value, h)) == Content(GetBlock(d, h)) {
        assert Untouched(front, h) && blocks[|blocks| - 1].height != h;
        InsertReads(d', b, p, h);
      }
    }
  }

  lemma RollbackReadable(d: Database, H: int)
    requires Readable(d) && H >= -1
    ensures Readable(Rollback(d, H))
  {
    hide Below, Valid, KeepHistory, DroppedHoused;
    RollbackGood(d, H);
    RollbackHouses(d, H);
    KeepsDroppedHoused(d.index, H);
    hide KeepIndex;
    KeepsSignatures(d.index.state, H);
  }

  lemma KeepsDroppedHoused(x: Index, H: int)
    requires DroppedHoused(x)
    ensures DroppedHoused(KeepIndex(x, H))
  {}

  lemma KeepsSignatures(s: State, H: int)
    requires OwnSignatures(s)
    ensures OwnSignatures(KeepState(s, H))
  {}

  lemma HooksOnly(d: Database, hooks: map<nat, int>)
    requires Readable(d)
    ensures Readable(d.(hooks := hooks))
  {
    hide Below, Valid;
  }

  // --------------------------------------------------------------------- runs

  /** A run: moves that cannot happen are skipped. */
  ghost function Run(w: World, moves: seq<Move>, hook: Hook, p: Projections): World {
    if moves == [] then w
    else
      var v, m := Run(w, moves[..|moves| - 1], hook, p), moves[|moves| - 1];
      if Enabled(v, m, hook, p) && Housed(v.db.index.history) then Next(v, m, hook, p) else v
  }

  /** A hook registered at `start`, and nothing delivered yet; finality is reported or not. */
  ghost predicate Armed(w: World, start: int, hook: Hook) {
    && Readable(w.db)
    && hook.id in w.db.hooks && w.db.hooks[hook.id] == start && w.phase.Idle? && w.acked == [] && w.sent == {}
  }

  /** The same with a node that reports finality. */
  ghost predicate Registered(w: World, start: int, hook: Hook) {
    Armed(w, start, hook) && Top(w.db) >= -1 && w.finalized.Some?
  }

  lemma RunOne(w: World, moves: seq<Move>, m: Move, hook: Hook, p: Projections)
    requires Enabled(Run(w, moves, hook, p), m, hook, p) && Housed(Run(w, moves, hook, p).db.index.history)
    ensures Run(w, moves + [m], hook, p) == Next(Run(w, moves, hook, p), m, hook, p)
  {
    hide Next, Enabled;
    assert (moves + [m])[..|moves|] == moves;
  }

  lemma RunNone(w: World, hook: Hook, p: Projections)
    ensures Run(w, [], hook, p) == w
  {}

  lemma {:induction false} RunAppend(w: World, a: seq<Move>, b: seq<Move>, hook: Hook, p: Projections)
    ensures Run(w, a + b, hook, p) == Run(Run(w, a, hook, p), b, hook, p)
  {
    hide Next, Enabled;
    if b == [] {
      assert a + b == a;
    } else {
      RunAppend(w, a, b[..|b| - 1], hook, p);
      assert (a + b)[..|a + b| - 1] == a + b[..|b| - 1];
    }
  }

  // ------------------------------------------------------- posted blocks stay

  /** The cursor asks for nothing that could still be un-indexed, but for heights up to the registration's. */
  predicate Final(w: World, c: int, start: int) {
    c <= start || (w.finalized.Some? && c <= w.finalized.value)
  }

  /** The block is stored under the hash and final. */
  predicate Certain(w: World, height: int, hash: string) {
    w.finalized.Some? && height <= w.finalized.value && HashAt(w.db, height) == Some(hash)
  }

  predicate PhaseFinal(w: World, start: int) {
    match w.phase
    case Idle => true
    case Listed(c) => Final(w, c, start)
    case Ready(c, tip) => Final(w, c, start) && w.finalized.Some? && tip <= w.finalized.value
    case Posting(c, tip, page, i, j) =>
      && Final(w, c, start) && w.finalized.Some? && tip <= w.finalized.value
      && forall k :: 0 <= k < |page| ==> Certain(w, page[k].height, page[k].hash)
  }

  ghost predicate PostedInv(w: World, start: int, hook: Hook) {
    && Readable(w.db) && w.finalized.Some?
    && (forall x :: x in w.sent ==> Certain(w, x.0, x.1))
    && (hook.id in w.db.hooks ==> Final(w, w.db.hooks[hook.id], start))
    && PhaseFinal(w, start)
  }

  lemma PagePosted(w: World, start: int, hook: Hook, p: Projections)
    requires PostedInv(w, start, hook) && w.phase.Ready?
    ensures Housed(w.db.index.history) && PostedInv(Next(w, ReadPage, hook, p), start, hook)
  {
    hide GetBlock, Good, OwnSignatures, DroppedHoused, Page, FollowsIn, Housed, HashAt;
    ReadableHouses(w.db);
    var page := Page(w.db, w.phase.cursor + 1, w.phase.tip, BLOCK_PAGE);
    PageFollows(w.db, w.phase.cursor + 1, w.phase.tip, BLOCK_PAGE);
    forall k | 0 <= k < |page| ensures Certain(w, page[k].height, page[k].hash) { StoredHash(w.db, page[k].height); }
  }

  /** Every step of dispatcher, finality, rollback or commit - at whatever height - keeps posted blocks where they are. */
  lemma MovePosted(w: World, m: Move, start: int, hook: Hook, p: Projections)
    requires PostedInv(w, start, hook) && Enabled(w, m, hook, p)
    ensures Housed(w.db.index.history) && PostedInv(Next(w, m, hook, p), start, hook)
    ensures w.acked <= Next(w, m, hook, p).acked && w.sent <= Next(w, m, hook, p).sent
  {
    hide Good, OwnSignatures, DroppedHoused, Housed, Deliveries, InsertAll, KeepIndex, GetBlock, Page;
    ReadableHouses(w.db);
    match m {
      case ReadPage => PagePosted(w, start, hook, p);
      case Insert(blocks) => InsertAllReads(w.db, blocks, p);
      case RollTo(height) =>
        RollbackReadable(w.db, height);
        RollbackHash(w.db, height);
      case Record =>
        var row := w.phase.page[w.phase.i];
        HooksOnly(w.db, Webhooks.Delivered(w.db, hook.id, row.height, row.hash).hooks);
      case _ =>
    }
  }

  lemma RollbackHash(d: Database, H: int)
    ensures forall h :: h <= H ==> HashAt(Rollback(d, H), h) == HashAt(d, h)
  {
    hide KeepState;
  }

  lemma {:induction false} RunPosted(w: World, moves: seq<Move>, start: int, hook: Hook, p: Projections)
    requires Registered(w, start, hook)
    ensures PostedInv(Run(w, moves, hook, p), start, hook)
  {
    hide PostedInv, Next, Enabled;
    if moves == [] {
      RegisteredPosted(w, start, hook);
    } else {
      var front, m := moves[..|moves| - 1], moves[|moves| - 1];
      RunPosted(w, front, start, hook, p);
      var v := Run(w, front, hook, p);
      if Enabled(v, m, hook, p) { MovePosted(v, m, start, hook, p); }
    }
  }

  lemma RegisteredPosted(w: World, start: int, hook: Hook)
    requires Registered(w, start, hook)
    ensures PostedInv(w, start, hook)
  {
    hide Good, OwnSignatures, DroppedHoused, Housed;
  }

  /**
   * Under finality no posted block is ever un-indexed. Over every interleaving of the dispatcher's
   * steps, failed posts, crashes, rollbacks no lower than the finalized height, rising finality and
   * transactions that commit blocks at whatever heights: every block anything of which was posted
   * is still stored, under the hash it was posted with.
   */
  lemma PostedStays(w: World, moves: seq<Move>, start: int, hook: Hook, p: Projections)
    requires Registered(w, start, hook)
    ensures var v := Run(w, moves, hook, p);
      forall x :: x in v.sent ==> HashAt(v.db, x.0) == Some(x.1)
  {
    hide Registered, Run, HashAt;
    RunPosted(w, moves, start, hook, p);
  }
}

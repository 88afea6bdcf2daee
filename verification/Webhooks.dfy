/** Webhook cursors in the database: what registration, delivery, insertion and rollback keep of them. */
module Webhooks {
  import opened Wire
  import opened Storage
  import Store
  import opened Replay

  /** The cursor a registration starts from; `None` where the request is refused. */
  function FirstCursor(tip: int, from: Option<nat>): Option<int> {
    match from
    case None => Some(tip)
    case Some(f) => if f <= tip + 1 then Some(f - 1) else None
  }

  /** Registering a hook, or re-arming the one already there, against the cursor read with it. */
  function Register(d: Database, id: nat, from: Option<nat>): Database {
    match FirstCursor(Top(d), from)
    case None => d
    case Some(c) => d.(hooks := d.hooks[id := c])
  }

  /**
   * What registering writes. A request from a height is refused exactly when that height is past
   * the next one; else the hook's cursor is the height below it. Without a height it is the
   * indexed height. Nothing else changes.
   */
  lemma RegistrationIs(d: Database, id: nat, from: Option<nat>)
    ensures var e := Register(d, id, from);
      var indexed := if d.cursor.None? then -1 else d.cursor.value;
      && (from.Some? && from.value > indexed + 1 ==> e == d)
      && (from.Some? && from.value <= indexed + 1 ==> e == d.(hooks := d.hooks[id := from.value - 1]))
      && (from.None? ==> e == d.(hooks := d.hooks[id := indexed]))
  {}

  /** A delivered block moves the cursor only while the block is stored under the delivered hash. */
  predicate Lands(d: Database, id: nat, height: int, hash: string) {
    id in d.hooks && Store.HashAt(d, height) == Some(hash)
  }

  function Delivered(d: Database, id: nat, height: int, hash: string): Database {
    if Lands(d, id, height, hash) then d.(hooks := d.hooks[id := height]) else d
  }

  datatype Event =
    | Arm(id: nat, from: Option<nat>)
    | Deliver(id: nat, height: int, hash: string)
    | Insert(blocks: seq<Block>)
    | RollTo(height: int)

  /** One atomic event; a failed transaction changes nothing. */
  function Happen(d: Database, e: Event, p: Projections): Database {
    match e
    case Arm(id, from) => Register(d, id, from)
    case Deliver(id, height, hash) => Delivered(d, id, height, hash)
    case Insert(blocks) => (match InsertAll(d, blocks, p) case Ok(d') => d' case Err(_) => d)
    case RollTo(height) => Rollback(d, height)
  }

  function Run(d: Database, events: seq<Event>, p: Projections): Database {
    if events == [] then d else Happen(Run(d, events[..|events| - 1], p), events[|events| - 1], p)
  }

  /** Rollback targets are a stored height or -1: never lower. */
  ghost predicate Legal(events: seq<Event>) {
    forall i :: 0 <= i < |events| && events[i].RollTo? ==> events[i].height >= -1
  }

  ghost predicate CursorsOk(d: Database) {
    Good(d) && Top(d) >= -1 && forall id :: id in d.hooks ==> -1 <= d.hooks[id] <= Top(d)
  }

  lemma {:induction false} InsertAllKeepsCursors(d: Database, blocks: seq<Block>, p: Projections)
    requires CursorsOk(d) && InsertAll(d, blocks, p).Ok?
    ensures CursorsOk(InsertAll(d, blocks, p).value)
  {
    hide InsertIndex, Below, Valid;
    if blocks != [] {
      var front := blocks[..|blocks| - 1];
      InsertAllKeepsCursors(d, front, p);
      InsertGood(InsertAll(d, front, p).value, blocks[|blocks| - 1], p);
    }
  }

  lemma StoredIsIndexed(d: Database, h: int)
    requires Good(d) && h in d.index.history.blocks
    ensures 0 <= h <= Top(d)
  {}

  lemma EventKeepsCursors(d: Database, e: Event, p: Projections)
    requires CursorsOk(d) && (e.RollTo? ==> e.height >= -1)
    ensures CursorsOk(Happen(d, e, p))
  {
    hide InsertBlock, KeepIndex, Below, Valid;
    match e {
      case Arm(id, from) =>
      case Deliver(id, height, hash) =>
        if Lands(d, id, height, hash) { StoredIsIndexed(d, height); }
      case Insert(blocks) =>
        if InsertAll(d, blocks, p).Ok? { InsertAllKeepsCursors(d, blocks, p); }
      case RollTo(height) => RollbackGood(d, height);
    }
  }

  /**
   * Cursor safety, with or without finality. In every interleaving of registrations, deliveries,
   * transactions and rollbacks, each one atomic, no hook's cursor is above the indexed height.
   */
  lemma {:induction false} CursorsStayIndexed(d: Database, events: seq<Event>, p: Projections)
    requires CursorsOk(d) && Legal(events)
    ensures CursorsOk(Run(d, events, p))
  {
    hide CursorsOk, Happen;
    if events != [] {
      CursorsStayIndexed(d, events[..|events| - 1], p);
      EventKeepsCursors(Run(d, events[..|events| - 1], p), events[|events| - 1], p);
    }
  }

  // ------------------------------------------------- registering in two steps

  /** A rollback below the cursor chosen. */
  predicate Lowers(e: Event, c: int) {
    e.RollTo? && e.height < c
  }

  /**
   * The i-th event puts the indexed height at `c` or higher: a transaction that commits and holds
   * such a block, or a rollback that goes no lower.
   */
  ghost predicate Reaches(d: Database, events: seq<Event>, i: int, c: int, p: Projections)
    requires 0 <= i < |events|
  {
    match events[i]
    case Insert(blocks) =>
      InsertAll(Run(d, events[..i], p), blocks, p).Ok? && exists j :: 0 <= j < |blocks| && blocks[j].height >= c
    case RollTo(h) => h >= c
    case _ => false
  }

  /** Every rollback below `c` is made up for by a later event that reaches `c` again. */
  ghost predicate MadeUp(d: Database, events: seq<Event>, c: int, p: Projections) {
    forall i :: 0 <= i < |events| && Lowers(events[i], c) ==> exists j :: i < j < |events| && Reaches(d, events, j, c, p)
  }

  /** A transaction lifts the indexed height to its highest block's, if that is higher. */
  lemma {:induction false} InsertAllTop(d: Database, blocks: seq<Block>, c: int, p: Projections)
    requires InsertAll(d, blocks, p).Ok? && c >= 0
    ensures Top(InsertAll(d, blocks, p).value) >= c <==>
      Top(d) >= c || exists j :: 0 <= j < |blocks| && blocks[j].height >= c
  {
    hide InsertIndex, Admits;
    if blocks != [] {
      var front, b := blocks[..|blocks| - 1], blocks[|blocks| - 1];
      InsertAllTop(d, front, c, p);
      if j :| 0 <= j < |front| && front[j].height >= c { assert blocks[j].height >= c; }
      if j :| 0 <= j < |blocks| && blocks[j].height >= c { assert j < |front| ==> front[j].height >= c; }
    }
  }

  /** One more event: it lowers, it reaches, or it leaves the question as it was. */
  lemma EventTop(d: Database, events: seq<Event>, c: int, p: Projections)
    requires events != [] && c >= 0
    ensures var last := |events| - 1;
      var before, after := Run(d, events[..last], p), Run(d, events, p);
      && (Lowers(events[last], c) ==> Top(after) < c && !Reaches(d, events, last, c, p))
      && (Reaches(d, events, last, c, p) ==> Top(after) >= c)
      && (!Lowers(events[last], c) && !Reaches(d, events, last, c, p) ==> (Top(after) >= c <==> Top(before) >= c))
  {
    hide InsertAll, KeepIndex;
    var last := |events| - 1;
    match events[last] {
      case Insert(blocks) =>
        var before := Run(d, events[..last], p);
        if InsertAll(before, blocks, p).Ok? { InsertAllTop(before, blocks, c, p); }
      case _ =>
    }
  }

  lemma FrontReaches(d: Database, events: seq<Event>, j: int, c: int, p: Projections)
    requires 0 <= j < |events| - 1
    ensures Reaches(d, events, j, c, p) <==> Reaches(d, events[..|events| - 1], j, c, p)
  {
    assert events[..|events| - 1][..j] == events[..j];
  }

  lemma {:induction false} TopMadeUp(d: Database, events: seq<Event>, c: int, p: Projections)
    requires 0 <= c <= Top(d)
    ensures Top(Run(d, events, p)) >= c <==> MadeUp(d, events, c, p)
  {
    hide Reaches, Lowers, Happen;
    if events != [] {
      var front, last := events[..|events| - 1], |events| - 1;
      TopMadeUp(d, front, c, p);
      EventTop(d, events, c, p);
      forall j | 0 <= j < last ensures Reaches(d, events, j, c, p) <==> Reaches(d, front, j, c, p) {
        FrontReaches(d, events, j, c, p);
      }
      MadeUpStep(d, events, c, p);
    }
  }

  lemma MadeUpStep(d: Database, events: seq<Event>, c: int, p: Projections)
    requires events != []
    requires forall j :: 0 <= j < |events| - 1 ==>
      (Reaches(d, events, j, c, p) <==> Reaches(d, events[..|events| - 1], j, c, p))
    ensures var last := |events| - 1;
      MadeUp(d, events, c, p) <==>
        (Reaches(d, events, last, c, p) && !Lowers(events[last], c))
        || (!Lowers(events[last], c) && MadeUp(d, events[..last], c, p))
  {
    hide Reaches, Lowers;
    var front, last := events[..|events| - 1], |events| - 1;
    if MadeUp(d, events, c, p) && !Reaches(d, events, last, c, p) {
      forall i | 0 <= i < |front| && Lowers(front[i], c) ensures exists j :: i < j < |front| && Reaches(d, front, j, c, p) {
        assert Lowers(events[i], c);
        var j :| i < j < |events| && Reaches(d, events, j, c, p);
        assert Reaches(d, front, j, c, p);
      }
    }
    if MadeUp(d, front, c, p) && !Lowers(events[last], c) {
      forall i | 0 <= i < |events| && Lowers(events[i], c) ensures exists j :: i < j < |events| && Reaches(d, events, j, c, p) {
        assert Lowers(front[i], c);
        var j :| i < j < |front| && Reaches(d, front, j, c, p);
        assert Reaches(d, events, j, c, p);
      }
    }
  }

  /**
   * The request is accepted for this cursor against the tip that was read: the height below the
   * one asked for, which is at most the next; or the tip, if no height is asked for.
   */
  predicate Accepted(d: Database, from: Option<nat>, c: int) {
    match from
    case None => c == Top(d)
    case Some(f) => f <= Top(d) + 1 && c == f - 1
  }

  /**
   * The registration the source makes is in two steps: it reads the tip, and writes the row later.
   * With any events in between, what it writes is safe if and only if every rollback below the
   * cursor it chose was followed by an event that reached that cursor again.
   */
  lemma SplitRegistration(d: Database, events: seq<Event>, id: nat, from: Option<nat>, c: int, p: Projections)
    requires CursorsOk(d) && Legal(events) && Accepted(d, from, c)
    ensures var later := Run(d, events, p);
      CursorsOk(later.(hooks := later.hooks[id := c])) <==> MadeUp(d, events, c, p)
  {
    hide Run, Below, Valid, MadeUp;
    CursorsStayIndexed(d, events, p);
    var later := Run(d, events, p);
    var armed := later.(hooks := later.hooks[id := c]);
    assert armed.hooks[id] == c && Top(armed) == Top(later);
    if c >= 0 {
      TopMadeUp(d, events, c, p);
    } else {
      NothingBelow(d, events, p);
    }
  }

  lemma NothingBelow(d: Database, events: seq<Event>, p: Projections)
    requires Legal(events)
    ensures MadeUp(d, events, -1, p)
  {}

  /**
   * So the race is real: whatever came before it, a rollback below the chosen cursor breaks the
   * registration unless something after it reaches that cursor again.
   */
  lemma RollbackBeatsRegistration(d: Database, before: seq<Event>, H: int, after: seq<Event>, id: nat, from: Option<nat>, c: int, p: Projections)
    requires CursorsOk(d) && Legal(before + [RollTo(H)] + after) && Accepted(d, from, c) && H < c
    requires var events := before + [RollTo(H)] + after;
      forall j :: |before| < j < |events| ==> !Reaches(d, events, j, c, p)
    ensures var later := Run(d, before + [RollTo(H)] + after, p);
      !CursorsOk(later.(hooks := later.hooks[id := c]))
  {
    hide Run, CursorsOk, Reaches;
    var events := before + [RollTo(H)] + after;
    SplitRegistration(d, events, id, from, c, p);
    assert Lowers(events[|before|], c);
  }

  // ---------------------------------------------------------- stale deliveries

  /** The block (height, hash) is not written by any of the events. */
  ghost predicate NotWritten(events: seq<Event>, height: int, hash: string) {
    forall i, j :: 0 <= i < |events| && events[i].Insert? && 0 <= j < |events[i].blocks| ==>
      !(events[i].blocks[j].height == height && events[i].blocks[j].hash == hash)
  }

  lemma {:induction false} InsertAllHash(d: Database, blocks: seq<Block>, p: Projections, height: int, hash: string)
    requires InsertAll(d, blocks, p).Ok? && Store.HashAt(d, height) != Some(hash)
    requires forall j :: 0 <= j < |blocks| ==> !(blocks[j].height == height && blocks[j].hash == hash)
    ensures Store.HashAt(InsertAll(d, blocks, p).value, height) != Some(hash)
  {
    hide InsertIndex;
    if blocks != [] {
      var front, b := blocks[..|blocks| - 1], blocks[|blocks| - 1];
      InsertAllHash(d, front, p, height, hash);
      var d' := InsertAll(d, front, p).value;
      InsertGrows(d'.index, b, p);
      InsertHistoryGrows(d'.index.history, b, p);
    }
  }

  lemma EventHash(d: Database, e: Event, p: Projections, height: int, hash: string)
    requires Store.HashAt(d, height) != Some(hash) && NotWritten([e], height, hash)
    ensures Store.HashAt(Happen(d, e, p), height) != Some(hash)
  {
    hide InsertAll, KeepState;
    match e {
      case Insert(blocks) =>
        assert [e][0] == e;
        if InsertAll(d, blocks, p).Ok? { InsertAllHash(d, blocks, p, height, hash); }
      case _ =>
    }
  }

  /**
   * A late delivery. Once a block is gone, and until the same block - same height and hash - is
   * written again, a delivery of it that finishes moves no cursor, whatever happened meanwhile.
   */
  lemma {:induction false} StaleDeliveryIsIgnored(d: Database, events: seq<Event>, p: Projections, id: nat, height: int, hash: string)
    requires Store.HashAt(d, height) != Some(hash) && NotWritten(events, height, hash)
    ensures Store.HashAt(Run(d, events, p), height) != Some(hash)
    ensures Delivered(Run(d, events, p), id, height, hash) == Run(d, events, p)
  {
    hide Happen, Store.HashAt;
    if events != [] {
      var front, e := events[..|events| - 1], events[|events| - 1];
      StaleDeliveryIsIgnored(d, front, p, id, height, hash);
      assert NotWritten([e], height, hash) by {
        assert forall j :: e.Insert? && 0 <= j < |e.blocks| ==> e.blocks[j] == events[|events| - 1].blocks[j];
      }
      EventHash(Run(d, front, p), e, p, height, hash);
    }
  }
}

/** Re-arming a hook while one of its blocks is being delivered: when the replay asked for is lost. */
module Rearm {
  import opened Wire
  import opened Storage
  import opened Store
  import opened Rows
  import opened RangeRead
  import opened Dispatch
  import Sessions
  import Webhooks

  /** The registration gives the hook a new cursor; the dispatcher's session goes on. */
  function Rearmed(w: World, hook: Hook, cursor: int): World {
    w.(db := w.db.(hooks := w.db.hooks[hook.id := cursor]))
  }

  /** The acknowledgements of a block's deliveries from the j-th on. */
  function AcksFrom(hook: Hook, row: BlockRow, j: nat, n: nat, p: Projections): seq<Ack>
    requires j <= n <= |Deliveries(hook, row, p)|
  {
    var owed := Deliveries(hook, row, p);
    seq(n - j, i requires 0 <= i < n - j => Ack(row.height, row.hash, j + i, owed[j + i]))
  }

  /** The receiver takes what is left of the block. */
  lemma PostSome(w: World, n: nat, hook: Hook, p: Projections) returns (moves: seq<Move>)
    requires AtBlock(w) && Housed(w.db.index.history)
    requires w.phase.j <= n <= |Deliveries(hook, w.phase.page[w.phase.i], p)|
    ensures forall m :: m in moves ==> m == Post(true)
    ensures var row, v := w.phase.page[w.phase.i], Run(w, moves, hook, p);
      v == w.(phase := w.phase.(j := n), acked := w.acked + AcksFrom(hook, row, w.phase.j, n, p), sent := v.sent)
  {
    hide Deliveries, Housed;
    var row := w.phase.page[w.phase.i];
    if n == w.phase.j {
      moves := [];
      RunNone(w, hook, p);
      assert w.acked + AcksFrom(hook, row, n, n, p) == w.acked;
    } else {
      moves := PostSome(w, n - 1, hook, p);
      RunOne(w, moves, Post(true), hook, p);
      moves := moves + [Post(true)];
      assert w.acked + AcksFrom(hook, row, w.phase.j, n, p)
        == (w.acked + AcksFrom(hook, row, w.phase.j, n - 1, p)) + [Ack(row.height, row.hash, n - 1, Deliveries(hook, row, p)[n - 1])];
    }
  }

  /** What was acknowledged from the k-th acknowledgement on covers everything above `cursor` up to `c`. */
  ghost predicate DoneSince(w: World, k: nat, c: int, cursor: int, hook: Hook, p: Projections)
    requires Housed(w.db.index.history) && k <= |w.acked|
  {
    Done(w.(acked := w.acked[k..]), c, cursor, hook, p)
  }

  /**
   * All that is owed above the new cursor up to the block in flight is owed by that block, as it
   * was read, and nothing of it had been posted yet.
   */
  ghost predicate OnlyThatBlock(w: World, cursor: int, hook: Hook, p: Projections)
    requires AtBlock(w) && Housed(w.db.index.history)
  {
    var row := w.phase.page[w.phase.i];
    forall g :: cursor < g <= row.height && OwedAt(w.db, g, hook, p) != [] ==>
      g == row.height && w.phase.j == 0 && |OwedAt(w.db, g, hook, p)| <= |Deliveries(hook, row, p)|
  }

  lemma AckedInRest(hook: Hook, row: BlockRow, j: nat, n: nat, g: int, hash: string, q: int, p: Projections)
    requires j <= n <= |Deliveries(hook, row, p)|
    ensures AckedAt(AcksFrom(hook, row, j, n, p), g, Some(hash), q) <==> g == row.height && hash == row.hash && j <= q < n
  {
    hide Deliveries;
    var acks := AcksFrom(hook, row, j, n, p);
    if g == row.height && hash == row.hash && j <= q < n { assert acks[q - j].place == q; }
  }

  /**
   * A replay asked for while a block is in flight. Whatever block of the hook's page the
   * dispatcher is at, whatever new cursor a registration gives the hook: once the receiver takes
   * what is left of the block, recording it overwrites the new cursor, unless the block is gone.
   * The replay asked for is then lost - something above the new cursor was not delivered since -
   * if and only if anything is owed there but by that very block, or part of it was posted before.
   */
  lemma ReplayLost(w: World, cursor: int, hook: Hook, p: Projections) returns (moves: seq<Move>)
    requires AtBlock(w) && Housed(w.db.index.history) && w.phase.j <= |Deliveries(hook, w.phase.page[w.phase.i], p)|
    ensures var row, v := w.phase.page[w.phase.i], Run(Rearmed(w, hook, cursor), moves, hook, p);
      && hook.id in v.db.hooks && Housed(v.db.index.history) && |w.acked| <= |v.acked|
      && (HashAt(w.db, row.height) != Some(row.hash) ==> v.db.hooks[hook.id] == cursor)
      && (HashAt(w.db, row.height) == Some(row.hash) ==>
            && v.db.hooks[hook.id] == row.height
            && (DoneSince(v, |w.acked|, row.height, cursor, hook, p) <==> OnlyThatBlock(w, cursor, hook, p)))
  {
    hide Deliveries, GetBlock, Housed, Done, OnlyThatBlock;
    var row, n := w.phase.page[w.phase.i], |Deliveries(hook, w.phase.page[w.phase.i], p)|;
    var r := Rearmed(w, hook, cursor);
    RearmedHouses(w, hook, cursor);
    var front := PostSome(r, n, hook, p);
    RunOne(r, front, Record, hook, p);
    moves := front + [Record];
    var v := Run(r, moves, hook, p);
    RecordedHouses(Run(r, front, hook, p), hook, p);
    assert v.acked[|w.acked|..] == AcksFrom(hook, row, w.phase.j, n, p);
    if HashAt(w.db, row.height) == Some(row.hash) {
      RestIsDone(w, v, cursor, hook, p);
    }
  }

  lemma RearmedHouses(w: World, hook: Hook, cursor: int)
    requires Housed(w.db.index.history)
    ensures Housed(Rearmed(w, hook, cursor).db.index.history)
  {}

  lemma RecordedHouses(w: World, hook: Hook, p: Projections)
    requires Housed(w.db.index.history) && Enabled(w, Record, hook, p)
    ensures Housed(Next(w, Record, hook, p).db.index.history)
  {
    hide Deliveries;
  }

  lemma RestIsDone(w: World, v: World, cursor: int, hook: Hook, p: Projections)
    requires AtBlock(w) && Housed(w.db.index.history) && w.phase.j <= |Deliveries(hook, w.phase.page[w.phase.i], p)|
    requires v.db == w.db.(hooks := v.db.hooks) && |w.acked| <= |v.acked|
    requires var row := w.phase.page[w.phase.i];
      && HashAt(w.db, row.height) == Some(row.hash)
      && v.acked[|w.acked|..] == AcksFrom(hook, row, w.phase.j, |Deliveries(hook, row, p)|, p)
    ensures Housed(v.db.index.history)
    ensures DoneSince(v, |w.acked|, w.phase.page[w.phase.i].height, cursor, hook, p) <==> OnlyThatBlock(w, cursor, hook, p)
  {
    hide Deliveries, OwedAt, Housed, AckedAt, HashAt;
    var row, n := w.phase.page[w.phase.i], |Deliveries(hook, w.phase.page[w.phase.i], p)|;
    forall g, q | 0 <= q < |OwedAt(w.db, g, hook, p)|
      ensures AckedAt(v.acked[|w.acked|..], g, HashAt(w.db, g), q) <==> g == row.height && w.phase.j <= q < n
    {
      OwedIsStored(w.db, g, hook, p);
      AckedInRest(hook, row, w.phase.j, n, g, HashAt(w.db, g).value, q, p);
    }
    SinceIs(w, v, cursor, hook, p);
    if OnlyThatBlock(w, cursor, hook, p) {
      forall g, q | cursor < g <= row.height && 0 <= q < |OwedAt(w.db, g, hook, p)|
        ensures AckedAt(v.acked[|w.acked|..], g, HashAt(w.db, g), q) {}
    }
    if DoneSince(v, |w.acked|, row.height, cursor, hook, p) {
      forall g | cursor < g <= row.height && OwedAt(w.db, g, hook, p) != []
        ensures g == row.height && w.phase.j == 0 && |OwedAt(w.db, g, hook, p)| <= n
      {
        var last := |OwedAt(w.db, g, hook, p)| - 1;
        assert AckedAt(v.acked[|w.acked|..], g, HashAt(w.db, g), 0) && AckedAt(v.acked[|w.acked|..], g, HashAt(w.db, g), last);
      }
    }
  }

  lemma SinceIs(w: World, v: World, cursor: int, hook: Hook, p: Projections)
    requires AtBlock(w) && Housed(w.db.index.history) && v.db == w.db.(hooks := v.db.hooks) && |w.acked| <= |v.acked|
    ensures Housed(v.db.index.history)
    ensures forall g :: OwedAt(v.db, g, hook, p) == OwedAt(w.db, g, hook, p) && HashAt(v.db, g) == HashAt(w.db, g)
  {
    hide Deliveries, GetBlock;
    Sessions.SameHooksRead(w.db, v.db.hooks);
  }
}

/** The dispatcher's page loop as it runs between two interruptions, tied to the state machine's moves. */
module Drain {
  import opened Wire
  import opened Storage
  import Store
  import Replay
  import RangeRead
  import Webhooks
  import opened Dispatch

  datatype Outcome = Owed | Caught | Failed

  class Drainer {
    var db: Database
    var cursor: int
    var acked: seq<Ack>
    ghost var sent: set<(int, string)>
    const hook: Hook
    const p: Projections

    constructor (db: Database, cursor: int, hook: Hook, p: Projections)
      ensures this.db == db && this.cursor == cursor && this.hook == hook && this.p == p && acked == [] && sent == {}
    {
      this.db, this.cursor, this.hook, this.p, acked := db, cursor, hook, p, [];
      sent := {};
    }

    /** The state machine's view of the loop in a given phase. */
    ghost function At(finalized: Option<int>, phase: Phase): World
      reads this
    {
      World(db, finalized, phase, acked, sent)
    }

    /**
     * One page of what the hook owes up to `tip`: every delivery of every block in order, each
     * block's cursor recorded after its last delivery, stopping at the first refusal. `answers`
     * are what the receiver says, in the order asked; silence is a refusal. What the loop does is
     * the state machine's run of `moves`, and it leaves the dispatcher ready for the next page
     * exactly when more is owed.
     */
    method DrainPage(tip: int, answers: seq<bool>, ghost finalized: Option<int>)
      returns (outcome: Outcome, ghost moves: seq<Move>)
      requires RangeRead.Housed(db.index.history) && cursor < tip
      modifies this
      ensures RangeRead.Housed(db.index.history)
      ensures Dispatch.Run(old(At(finalized, Ready(cursor, tip))), moves, hook, p)
        == At(finalized, if outcome.Owed? then Ready(cursor, tip) else Idle)
    {
      hide RangeRead.Housed, RangeRead.Page, Deliveries, InsertAll, Rollback, Dispatch.Run, Replay.Top, Store.HashAt;
      ghost var w := At(finalized, Ready(cursor, tip));
      moves := [];
      var asked := 0;
      var page := RangeRead.GetBlocksInRange(db, cursor + 1, tip, RangeRead.BLOCK_PAGE);
      RunNone(w, hook, p);
      RunOne(w, moves, Move.ReadPage, hook, p);
      moves := moves + [Move.ReadPage];
      if page == [] {
        return Caught, moves;
      }
      for i := 0 to |page|
        invariant RangeRead.Housed(db.index.history)
        invariant i < |page| ==> Dispatch.Run(w, moves, hook, p) == At(finalized, Posting(cursor, tip, page, i, 0))
        invariant i == |page| ==> cursor == page[i - 1].height
        invariant i == |page| ==> Dispatch.Run(w, moves, hook, p) == At(finalized, if cursor < tip then Ready(cursor, tip) else Idle)
      {
        var owed := Deliveries(hook, page[i], p);
        for j := 0 to |owed|
          invariant RangeRead.Housed(db.index.history)
          invariant Dispatch.Run(w, moves, hook, p) == At(finalized, Posting(cursor, tip, page, i, j))
        {
          var accepted := asked < |answers| && answers[asked];
          asked := asked + 1;
          RunOne(w, moves, Post(accepted), hook, p);
          moves := moves + [Post(accepted)];
          sent := sent + {(page[i].height, page[i].hash)};
          if !accepted {
            return Failed, moves;
          }
          acked := acked + [Ack(page[i].height, page[i].hash, j, owed[j])];
        }
        var landed := Webhooks.Lands(db, hook.id, page[i].height, page[i].hash);
        RunOne(w, moves, Record, hook, p);
        moves := moves + [Record];
        db := Webhooks.Delivered(db, hook.id, page[i].height, page[i].hash);
        if !landed {
          return Caught, moves;
        }
        cursor := page[i].height;
      }
      outcome := if cursor < tip then Owed else Caught;
    }
  }
}

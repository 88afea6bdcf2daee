/** The indexing loop: its one-block-at-a-time meaning, and the batching loop that refines it. */
module Indexer {
  import opened Wire
  import opened Storage
  import opened Store
  import opened TipRules
  import opened Rows

  /** A block off the channel with the finalized height read when it is classified. */
  datatype Arrival = Arrival(block: Block, finalized: Option<int>)

  /** What the loop has done: its tip, the database, the rows broadcast and the rewinds asked for. */
  datatype Loop = Loop(tip: Option<Tip>, rewoundFrom: Option<int>, db: Database, sent: seq<BlockRow>, rewinds: seq<nat>)

  function TipAt(d: Database, height: int): Option<Tip> {
    match HashAt(d, height)
    case None => None
    case Some(hash) => Some(Tip(height, hash))
  }

  /** The tip as the database has it. */
  function DurableTip(d: Database): Option<Tip> {
    if d.cursor.None? then None else TipAt(d, d.cursor.value)
  }

  function ActionOf(s: Loop, a: Arrival, depth: nat): TipAction {
    Classify(s.tip, a.block.height, a.block.parentHash, s.rewoundFrom, depth, a.finalized)
  }

  function Accept(s: Loop, b: Block, p: Projections): Result<Loop> {
    match InsertBlock(s.db, b, p)
    case Err(e) => Err(e)
    case Ok(d) => Ok(Loop(Some(Tip(b.height, b.hash)), None, d, s.sent + [RowFromWire(b)], s.rewinds))
  }

  function Unwind(s: Loop, b: Block, rollbackTo: int): Loop {
    var d := Rollback(s.db, rollbackTo);
    Loop(if rollbackTo < 0 then None else TipAt(d, rollbackTo),
         Some(if s.rewoundFrom.Some? then s.rewoundFrom.value else b.height - 1),
         d, s.sent, s.rewinds + [if rollbackTo + 1 < 0 then 0 else rollbackTo + 1])
  }

  /** One arrival, committed on its own. */
  function Step(s: Loop, a: Arrival, depth: nat, p: Projections): Result<Loop> {
    match ActionOf(s, a, depth)
    case Extend => Accept(s, a.block, p)
    case Gap => Accept(s, a.block, p)
    case Stale => Ok(s)
    case Fork(rollbackTo) => Ok(Unwind(s, a.block, rollbackTo))
    case ForkBelowFinalized(_, _) => Ok(s)
    case ForkTooDeep(_, _) => Ok(s)
  }

  function Steps(s: Loop, arrivals: seq<Arrival>, depth: nat, p: Projections): Result<Loop> {
    if arrivals == [] then Ok(s)
    else match Steps(s, arrivals[..|arrivals| - 1], depth, p)
      case Err(e) => Err(e)
      case Ok(s') => Step(s', arrivals[|arrivals| - 1], depth, p)
  }

  lemma StepsAppend(s: Loop, xs: seq<Arrival>, ys: seq<Arrival>, depth: nat, p: Projections)
    ensures Steps(s, xs + ys, depth, p) ==
      match Steps(s, xs, depth, p) { case Err(e) => Err(e) case Ok(s') => Steps(s', ys, depth, p) }
    decreases |ys|
  {
    hide Step;
    if ys == [] {
      assert xs + ys == xs;
    } else {
      assert (xs + ys)[..|xs + ys| - 1] == xs + ys[..|ys| - 1];
      StepsAppend(s, xs, ys[..|ys| - 1], depth, p);
    }
  }

  function Flatten(inboxes: seq<seq<Arrival>>): seq<Arrival> {
    if inboxes == [] then [] else Flatten(inboxes[..|inboxes| - 1]) + inboxes[|inboxes| - 1]
  }

  /** Finality was reported at `f` or higher with every arrival. */
  ghost predicate Certifies(arrivals: seq<Arrival>, f: int) {
    forall i :: 0 <= i < |arrivals| ==> arrivals[i].finalized.Some? && f <= arrivals[i].finalized.value
  }

  ghost predicate CertifiesAll(inboxes: seq<seq<Arrival>>, f: int) {
    forall i :: 0 <= i < |inboxes| ==> Certifies(inboxes[i], f)
  }

  lemma KeepsAllOn(d: Database, e: Database, e': Database)
    ensures forall h :: KeepsUpto(d, d, h)
    ensures forall h :: KeepsUpto(d, e, h) && KeepsUpto(e, e', h) ==> KeepsUpto(d, e', h)
  {
    hide HeaderAt;
    forall h | KeepsUpto(d, e, h) && KeepsUpto(e, e', h) ensures KeepsUpto(d, e', h) { KeepsOn(d, e, e', h); }
  }

  lemma KeepsOn(d: Database, e: Database, e': Database, h: int)
    requires KeepsUpto(d, e, h) && KeepsUpto(e, e', h)
    ensures KeepsUpto(d, e', h)
  {
    hide HeaderAt;
  }

  const INSERT_BATCH_BLOCKS := 200

  class IndexChain {
    const store: Postgres
    const depth: nat
    var tip: Option<Tip>
    var rewoundFrom: Option<int>
    var batch: seq<Block>
    var sent: seq<BlockRow>
    var rewinds: seq<nat>

    /** What the loop stands for once its pending batch is committed. */
    ghost function Pending(): Result<Loop>
      reads this, store
    {
      match InsertAll(store.db, batch, store.p)
      case Err(e) => Err(e)
      case Ok(d) => Ok(Loop(tip, rewoundFrom, d, sent + RowsOf(batch), rewinds))
    }

    constructor (store: Postgres, depth: nat)
      ensures this.store == store && this.depth == depth && batch == []
      ensures Pending() == Ok(Loop(DurableTip(store.db), None, store.db, [], []))
    {
      this.store, this.depth := store, depth;
      tip := DurableTip(store.db);
      rewoundFrom, batch, sent, rewinds := None, [], [], [];
      new;
      assert sent + RowsOf(batch) == [];
    }

    /** Commits the batch and broadcasts it after the commit; a failed batch is dropped whole. */
    method FlushBatch() returns (ok: bool)
      modifies this`batch, this`sent, store
      ensures batch == []
      ensures ok <==> old(Pending()).Ok?
      ensures ok ==> Pending() == old(Pending())
      ensures !ok ==> store.db == old(store.db) && sent == old(sent)
      ensures forall h :: KeepsUpto(old(store.db), store.db, h)
    {
      hide InsertBlock, RowFromWire;
      forall h | InsertAll(store.db, batch, store.p).Ok?
        ensures KeepsUpto(store.db, InsertAll(store.db, batch, store.p).value, h)
      {
        InsertAllKeepsHeaders(store.db, batch, store.p, h);
      }
      if batch == [] {
        return true;
      }
      ok := store.InsertBlocks(batch);
      if ok {
        for i := 0 to |batch|
          invariant batch == old(batch) && store.db == InsertAll(old(store.db), old(batch), store.p).value
          invariant sent == old(sent) + RowsOf(batch[..i])
        {
          sent := sent + [RowFromWire(batch[i])];
          assert RowsOf(batch[..i + 1]) == RowsOf(batch[..i]) + [RowFromWire(batch[i])];
        }
        assert batch[..|batch|] == batch;
      }
      batch := [];
      assert sent + RowsOf(batch) == sent;
    }

    /**
     * One inbox: accepted blocks gather in the batch while the tip runs ahead; the batch is
     * flushed when full, before any fork is handled, and when the inbox is drained. `flushed`
     * says whether every flush committed - exactly when committing each block singly would
     * have - and then the outcome is the one-at-a-time outcome.
     */
    method IndexInbox(inbox: seq<Arrival>) returns (flushed: bool)
      requires batch == []
      modifies this, store
      ensures batch == []
      ensures flushed <==> Steps(old(Pending()).value, inbox, depth, store.p).Ok?
      ensures flushed ==> Pending() == Steps(old(Pending()).value, inbox, depth, store.p)
      ensures forall f :: Certifies(inbox, f) ==> KeepsUpto(old(store.db), store.db, f)
    {
      hide KeepsUpto, HeaderAt;
      hide InsertBlock, Accept, Unwind, RowsOf, Classify, TipAt;
      ghost var s0 := Pending().value;
      KeepsAllOn(store.db, store.db, store.db);
      flushed := true;
      for i := 0 to |inbox|
        invariant flushed ==> Pending() == Steps(s0, inbox[..i], depth, store.p)
        invariant !flushed ==> Steps(s0, inbox[..i], depth, store.p).Err?
        invariant forall f :: Certifies(inbox, f) ==> KeepsUpto(old(store.db), store.db, f)
      {
        ForkAboveFinality(tip, inbox[i].block.height, inbox[i].block.parentHash, rewoundFrom, depth, inbox[i].finalized);
        ghost var before := store.db;
        assert inbox[..i + 1][..i] == inbox[..i];
        var block := inbox[i].block;
        match Classify(tip, block.height, block.parentHash, rewoundFrom, depth, inbox[i].finalized) {
          case Stale =>
          case Fork(rollbackTo) =>
            var ok := FlushBatch();
            flushed := flushed && ok;
            ghost var committed := store.db;
            Rewind(block, rollbackTo);
            KeepsAllOn(before, committed, store.db);
          case ForkBelowFinalized(_, _) =>
            var ok := FlushBatch();
            flushed := flushed && ok;
          case ForkTooDeep(_, _) =>
            var ok := FlushBatch();
            flushed := flushed && ok;
          case _ =>
            var ok := Push(block);
            flushed := flushed && ok;
        }
        KeepsAllOn(old(store.db), before, store.db);
      }
      assert inbox[..|inbox|] == inbox;
      ghost var drained := store.db;
      var ok := FlushBatch();
      KeepsAllOn(old(store.db), drained, store.db);
      if !ok {
        tip := DurableTip(store.db);
      }
      flushed := flushed && ok;
    }

    /** Rolls the database back, takes the tip from it, and asks the source to rewind. */
    method Rewind(block: Block, rollbackTo: int)
      requires batch == []
      modifies this, store
      ensures batch == []
      ensures Pending() == Ok(Unwind(old(Pending()).value, block, rollbackTo))
      ensures forall h :: h <= rollbackTo ==> KeepsUpto(old(store.db), store.db, h)
    {
      var from := if rewoundFrom.Some? then rewoundFrom.value else block.height - 1;
      var removed := store.RollbackTo(rollbackTo);
      tip := if rollbackTo < 0 then None else TipAt(store.db, rollbackTo);
      rewoundFrom := Some(from);
      rewinds := rewinds + [if rollbackTo + 1 < 0 then 0 else rollbackTo + 1];
    }

    /** Accepts a block into the batch, flushing the batch once it is full. */
    method Push(block: Block) returns (ok: bool)
      modifies this, store
      ensures old(Pending()).Err? ==> Pending() == old(Pending()) || !ok
      ensures old(Pending()).Ok? ==> (ok ==> Pending() == Accept(old(Pending()).value, block, store.p))
      ensures !ok ==> old(Pending()).Err? || Accept(old(Pending()).value, block, store.p).Err?
      ensures forall h :: KeepsUpto(old(store.db), store.db, h)
      ensures |old(batch)| < 199 ==> batch == old(batch) + [block] && store.db == old(store.db) && sent == old(sent)
      ensures |old(batch)| >= 199 ==> batch == []
    {
      tip := Some(Tip(block.height, block.hash));
      rewoundFrom := None;
      assert (batch + [block])[..|batch|] == batch;
      assert RowsOf(batch + [block]) == RowsOf(batch) + [RowFromWire(block)];
      assert sent + (RowsOf(batch) + [RowFromWire(block)]) == (sent + RowsOf(batch)) + [RowFromWire(block)];
      batch := batch + [block];
      ok := true;
      if |batch| >= INSERT_BATCH_BLOCKS {
        ok := FlushBatch();
      }
    }

    /** The loop over every inbox the channel hands out, then a last flush. */
    method Run(inboxes: seq<seq<Arrival>>) returns (flushed: bool)
      requires batch == []
      modifies this, store
      ensures flushed <==> Steps(old(Pending()).value, Flatten(inboxes), depth, store.p).Ok?
      ensures flushed ==> Pending() == Steps(old(Pending()).value, Flatten(inboxes), depth, store.p)
      ensures forall f :: CertifiesAll(inboxes, f) ==> KeepsUpto(old(store.db), store.db, f)
    {
      hide KeepsUpto, HeaderAt, Certifies;
      ghost var s0 := Pending().value;
      KeepsAllOn(store.db, store.db, store.db);
      flushed := true;
      for i := 0 to |inboxes|
        invariant batch == []
        invariant flushed ==> Pending() == Steps(s0, Flatten(inboxes[..i]), depth, store.p)
        invariant !flushed ==> Steps(s0, Flatten(inboxes[..i]), depth, store.p).Err?
        invariant forall f :: CertifiesAll(inboxes, f) ==> KeepsUpto(old(store.db), store.db, f)
      {
        ghost var before := store.db;
        assert inboxes[..i + 1][..i] == inboxes[..i];
        StepsAppend(s0, Flatten(inboxes[..i]), inboxes[i], depth, store.p);
        var ok := IndexInbox(inboxes[i]);
        flushed := flushed && ok;
        KeepsAllOn(old(store.db), before, store.db);
      }
      assert inboxes[..|inboxes|] == inboxes;
      ghost var closed := store.db;
      var ok := FlushBatch();
      KeepsAllOn(old(store.db), closed, store.db);
    }
  }
}

/** Webhook delivery against commits at any height: which runs still acknowledge everything, and which skip blocks. */
module Sessions {
  import opened Wire
  import opened Storage
  import opened Store
  import opened Replay
  import opened Rows
  import opened RangeRead
  import opened Broadcast
  import Webhooks
  import opened Dispatch
  import Order

  // ------------------------------------------------------- undisturbed sessions

  /**
   * What a commit may not do: write a height the hook should have had - above where it was
   * registered, but at or below its cursor, at or below the dispatcher's own copy of it while the
   * hook is worked on, or at or below a block of the page in flight that is stored as it was read.
   */
  ghost predicate CommitClear(w: World, m: Move, start: int, hook: Hook, p: Projections)
    requires Enabled(w, m, hook, p)
  {
    m.Insert? ==>
      var e := InsertAll(w.db, m.blocks, p).value;
      forall j :: 0 <= j < |m.blocks| && m.blocks[j].height > start ==> Over(w, e, m.blocks[j].height, hook)
  }

  /** The height lies above everything the session takes for delivered or read. */
  predicate Over(w: World, e: Database, h: int, hook: Hook) {
    && (hook.id in w.db.hooks ==> h > w.db.hooks[hook.id])
    && (!w.phase.Idle? ==> h > w.phase.cursor)
    && (w.phase.Posting? ==> forall k :: w.phase.i <= k < |w.phase.page| && !RowGone(e, w.phase.page[k]) ==>
          h > w.phase.page[k].height)
  }

  /** What a rollback may not do: go below the dispatcher's own cursor while the hook is worked on. */
  predicate RollClear(w: World, m: Move, start: int) {
    m.RollTo? ==> w.phase.Idle? || m.height >= w.phase.cursor || w.phase.cursor <= start
  }

  // ---------------------------------------------------------------- invariant

  /** The height before the k-th row still to be recorded. */
  function Before(ph: Phase, k: int): int
    requires ph.Posting? && ph.i <= k < |ph.page|
  {
    if k == ph.i then ph.cursor else ph.page[k - 1].height
  }

  /** The row is stored as it was read, and nothing owed lies between it and the one before it. */
  ghost predicate RowLive(d: Database, ph: Phase, k: int, start: int)
    requires ph.Posting? && ph.i <= k < |ph.page| && Housed(d.index.history)
  {
    var h := ph.page[k].height;
    h > start ==>
      && Content(GetBlock(d, h)) == Content(Some(ph.page[k]))
      && forall g :: Before(ph, k) < g < h && start < g ==> g !in d.index.history.blocks
  }

  predicate RowGone(d: Database, row: BlockRow) {
    HashAt(d, row.height) != Some(row.hash)
  }

  ghost predicate PageSound(d: Database, ph: Phase, start: int)
    requires ph.Posting? && Housed(d.index.history)
  {
    && ph.i < |ph.page|
    && forall k :: ph.i <= k < |ph.page| ==> RowLive(d, ph, k, start) || RowGone(d, ph.page[k])
  }

  /** What the phase remembers as delivered was acknowledged, for the blocks that are stored. */
  ghost predicate PhaseSound(w: World, start: int, hook: Hook, p: Projections)
    requires Housed(w.db.index.history)
  {
    match w.phase
    case Idle => true
    case Listed(c) => Done(w, c, start, hook, p)
    case Ready(c, tip) => Done(w, c, start, hook, p)
    case Posting(c, tip, page, i, j) =>
      && Done(w, c, start, hook, p) && PageSound(w.db, w.phase, start)
      && j <= |Deliveries(hook, page[i], p)| && PostedUpto(w.acked, page[i], j)
  }

  /** The block was acknowledged up to its j-th delivery. */
  ghost predicate PostedUpto(acked: seq<Ack>, row: BlockRow, j: nat) {
    forall q :: 0 <= q < j ==> AckedAt(acked, row.height, Some(row.hash), q)
  }

  /** Everything up to the hook's cursor was acknowledged. */
  ghost predicate HookDone(w: World, start: int, hook: Hook, p: Projections)
    requires Housed(w.db.index.history)
  {
    hook.id in w.db.hooks ==> Done(w, w.db.hooks[hook.id], start, hook, p)
  }

  ghost predicate AllSound(w: World, start: int, hook: Hook, p: Projections) {
    Readable(w.db) && HookDone(w, start, hook, p) && PhaseSound(w, start, hook, p)
  }

  // ------------------------------------------------------------------- frames

  /** `e` reads as `d` does from above `start` up to `h`. */
  ghost predicate ReadsUpto(d: Database, e: Database, start: int, h: int)
    requires Housed(d.index.history) && Housed(e.index.history)
  {
    forall g :: start < g <= h ==> Content(GetBlock(e, g)) == Content(GetBlock(d, g))
  }

  /** What is done up to `c` stays done wherever the reads up to there stay the same. */
  lemma DoneStays(w: World, e: Database, c: int, c': int, start: int, hook: Hook, p: Projections)
    requires Housed(w.db.index.history) && Housed(e.index.history)
    requires Done(w, c, start, hook, p) && c' <= c && ReadsUpto(w.db, e, start, c')
    ensures Done(w.(db := e), c', start, hook, p)
  {
    hide GetBlock, Housed, OwedAt, HashAt, AckedAt, Content;
    forall g, q | start < g <= c' && 0 <= q < |OwedAt(e, g, hook, p)| ensures AckedAt(w.acked, g, HashAt(e, g), q) {
      ContentBlock(w.db, e, g);
      ContentOwed(w.db, e, g, hook, p);
    }
  }

  /** A row stays live where nothing changes up to it. */
  lemma RowStays(d: Database, e: Database, ph: Phase, k: int, start: int)
    requires ph.Posting? && ph.i <= k < |ph.page| && Housed(d.index.history) && Housed(e.index.history)
    requires ReadsUpto(d, e, start, ph.page[k].height) && RowLive(d, ph, k, start)
    ensures RowLive(e, ph, k, start)
  {
    hide GetBlock, Housed, Content;
    forall g | start < g <= ph.page[k].height ensures g in d.index.history.blocks <==> g in e.index.history.blocks {
      ContentBlock(d, e, g);
    }
  }

  /** More acknowledgements only help. */
  lemma DoneMore(w: World, t: World, c: int, start: int, hook: Hook, p: Projections)
    requires Housed(w.db.index.history) && w.db == t.db && w.acked <= t.acked && Done(w, c, start, hook, p)
    ensures Done(t, c, start, hook, p)
  {
    hide OwedAt, HashAt;
    forall g, q | start < g <= c && 0 <= q < |OwedAt(w.db, g, hook, p)| ensures AckedAt(t.acked, g, HashAt(w.db, g), q) {
      assert AckedAt(w.acked, g, HashAt(w.db, g), q);
      AckedMore(w.acked, t.acked, g, HashAt(w.db, g), q);
    }
  }

  lemma AckedMore(a: seq<Ack>, b: seq<Ack>, g: int, hash: Option<string>, q: int)
    requires a <= b && AckedAt(a, g, hash, q)
    ensures AckedAt(b, g, hash, q)
  {
    var m :| 0 <= m < |a| && a[m].height == g && Some(a[m].hash) == hash && a[m].place == q;
    assert b[m] == a[m];
  }

  // -------------------------------------------------------------- environment

  /** Heights the transaction leaves alone read as before. */
  lemma UntouchedReads(d: Database, blocks: seq<Block>, start: int, h: int, p: Projections)
    requires Readable(d) && InsertAll(d, blocks, p).Ok?
    requires forall j :: 0 <= j < |blocks| && blocks[j].height > start ==> blocks[j].height > h
    ensures Housed(InsertAll(d, blocks, p).value.index.history) && ReadsUpto(d, InsertAll(d, blocks, p).value, start, h)
  {
    hide GetBlock, Good, OwnSignatures, DroppedHoused, Housed, InsertAll;
    InsertAllReads(d, blocks, p);
    forall g | start < g <= h
      ensures Content(GetBlock(InsertAll(d, blocks, p).value, g)) == Content(GetBlock(d, g))
    {
      assert Untouched(blocks, g);
    }
  }

  lemma InsertSound(w: World, blocks: seq<Block>, start: int, hook: Hook, p: Projections)
    requires AllSound(w, start, hook, p) && Enabled(w, Move.Insert(blocks), hook, p)
    requires CommitClear(w, Move.Insert(blocks), start, hook, p)
    ensures AllSound(w.(db := InsertAll(w.db, blocks, p).value), start, hook, p)
  {
    hide GetBlock, Housed, Good, OwnSignatures, DroppedHoused, Done, InsertAll, RowLive, Deliveries, PostedUpto, RowGone;
    var e := InsertAll(w.db, blocks, p).value;
    InsertAllReads(w.db, blocks, p);
    if hook.id in w.db.hooks {
      UntouchedReads(w.db, blocks, start, w.db.hooks[hook.id], p);
      DoneStays(w, e, w.db.hooks[hook.id], w.db.hooks[hook.id], start, hook, p);
    }
    if !w.phase.Idle? {
      UntouchedReads(w.db, blocks, start, w.phase.cursor, p);
      DoneStays(w, e, w.phase.cursor, w.phase.cursor, start, hook, p);
    }
    if w.phase.Posting? {
      forall k | w.phase.i <= k < |w.phase.page| ensures RowLive(e, w.phase, k, start) || RowGone(e, w.phase.page[k]) {
        if !RowGone(e, w.phase.page[k]) { InsertRow(w, blocks, k, start, p); }
      }
    }
  }

  lemma InsertRow(w: World, blocks: seq<Block>, k: int, start: int, p: Projections)
    requires w.phase.Posting? && w.phase.i <= k < |w.phase.page| && Readable(w.db) && InsertAll(w.db, blocks, p).Ok?
    requires RowLive(w.db, w.phase, k, start) || RowGone(w.db, w.phase.page[k])
    requires !RowGone(InsertAll(w.db, blocks, p).value, w.phase.page[k])
    requires forall j :: 0 <= j < |blocks| && blocks[j].height > start ==> blocks[j].height > w.phase.page[k].height
    ensures Housed(InsertAll(w.db, blocks, p).value.index.history)
    ensures RowLive(InsertAll(w.db, blocks, p).value, w.phase, k, start)
  {
    hide GetBlock, Good, OwnSignatures, DroppedHoused, InsertAll, Content, Housed;
    var e, row := InsertAll(w.db, blocks, p).value, w.phase.page[k];
    ReadableHouses(w.db);
    UntouchedReads(w.db, blocks, start, row.height, p);
    if row.height > start {
      ContentBlock(w.db, e, row.height);
      RowStays(w.db, e, w.phase, k, start);
    }
  }

  lemma RollToSound(w: World, H: int, start: int, hook: Hook, p: Projections)
    requires AllSound(w, start, hook, p) && H >= -1 && RollClear(w, Move.RollTo(H), start)
    ensures AllSound(w.(db := Rollback(w.db, H)), start, hook, p)
  {
    hide GetBlock, Housed, Good, OwnSignatures, DroppedHoused, OwedAt, RowLive, Deliveries, KeepIndex, AckedAt, HashAt;
    var e := Rollback(w.db, H);
    RollbackReadable(w.db, H);
    forall g ensures Content(GetBlock(e, g)) == if g <= H then Content(GetBlock(w.db, g)) else None { RollbackReads(w.db, H, g); }
    assert ReadsUpto(w.db, e, start, H);
    if hook.id in w.db.hooks {
      var c := w.db.hooks[hook.id];
      var c' := if c > H then H else c;
      ReadsLess(w.db, e, start, c', H);
      DoneStays(w, e, c, c', start, hook, p);
    }
    if !w.phase.Idle? && w.phase.cursor > start {
      ReadsLess(w.db, e, start, w.phase.cursor, H);
      DoneStays(w, e, w.phase.cursor, w.phase.cursor, start, hook, p);
    }
    if w.phase.Posting? {
      forall k | w.phase.i <= k < |w.phase.page| ensures RowLive(e, w.phase, k, start) || RowGone(e, w.phase.page[k]) {
        RollRow(w, H, k, start);
      }
    }
  }

  lemma ReadsLess(d: Database, e: Database, start: int, c: int, H: int)
    requires Housed(d.index.history) && Housed(e.index.history) && ReadsUpto(d, e, start, H) && c <= H
    ensures ReadsUpto(d, e, start, c)
  {}

  lemma RollRow(w: World, H: int, k: int, start: int)
    requires w.phase.Posting? && w.phase.i <= k < |w.phase.page| && Housed(w.db.index.history)
    requires RowLive(w.db, w.phase, k, start) || RowGone(w.db, w.phase.page[k])
    ensures Housed(Rollback(w.db, H).index.history)
    ensures RowLive(Rollback(w.db, H), w.phase, k, start) || RowGone(Rollback(w.db, H), w.phase.page[k])
  {
    hide GetBlock, KeepState, RowLive, Content;
    RollbackHouses(w.db, H);
    var e, h := Rollback(w.db, H), w.phase.page[k].height;
    if RowLive(w.db, w.phase, k, start) && h <= H {
      forall g | g <= H ensures Content(GetBlock(e, g)) == Content(GetBlock(w.db, g)) { RollbackReads(w.db, H, g); }
      RowStays(w.db, e, w.phase, k, start);
    }
  }

  // --------------------------------------------------------------- dispatcher

  lemma ReadPageSound(w: World, start: int, hook: Hook, p: Projections)
    requires AllSound(w, start, hook, p) && w.phase.Ready?
    ensures AllSound(Next(w, ReadPage, hook, p), start, hook, p)
  {
    hide GetBlock, OwedAt, AckedAt, HashAt, Deliveries, Good, OwnSignatures, DroppedHoused, Page;
    var t := Next(w, ReadPage, hook, p);
    PageFollows(w.db, w.phase.cursor + 1, w.phase.tip, BLOCK_PAGE);
    SameDone(w, t, start, hook, p);
  }

  /** What is done does not depend on the phase. */
  lemma SameDone(w: World, t: World, start: int, hook: Hook, p: Projections)
    requires Housed(w.db.index.history) && w.db == t.db && w.acked <= t.acked
    ensures forall c :: Done(w, c, start, hook, p) ==> Done(t, c, start, hook, p)
  {
    hide Done, Housed;
    forall c | Done(w, c, start, hook, p) ensures Done(t, c, start, hook, p) { DoneMore(w, t, c, start, hook, p); }
  }

  lemma PostSound(w: World, accepted: bool, start: int, hook: Hook, p: Projections)
    requires AllSound(w, start, hook, p) && Enabled(w, Post(accepted), hook, p)
    ensures AllSound(Next(w, Post(accepted), hook, p), start, hook, p)
  {
    hide GetBlock, Deliveries, OwedAt, AckedAt, Good, OwnSignatures, DroppedHoused, HashAt, Done, RowLive, RowGone, Housed, PostedUpto;
    var t, row := Next(w, Post(accepted), hook, p), w.phase.page[w.phase.i];
    SameDone(w, t, start, hook, p);
    if accepted {
      PostedOneMore(w.acked, row, w.phase.j, Deliveries(hook, row, p)[w.phase.j]);
      SamePageSound(w.db, w.phase, t.phase, start);
    }
  }

  lemma PostedOneMore(acked: seq<Ack>, row: BlockRow, j: nat, delivery: Delivery)
    requires PostedUpto(acked, row, j)
    ensures PostedUpto(acked + [Ack(row.height, row.hash, j, delivery)], row, j + 1)
  {
    hide AckedAt;
    var a := Ack(row.height, row.hash, j, delivery);
    forall q | 0 <= q < j + 1 ensures AckedAt(acked + [a], row.height, Some(row.hash), q) {
      MoreAcked(acked, a, row.height, Some(row.hash), q);
    }
  }

  lemma SamePageSound(d: Database, a: Phase, b: Phase, start: int)
    requires a.Posting? && b.Posting? && b == a.(j := b.j) && Housed(d.index.history) && PageSound(d, a, start)
    ensures PageSound(d, b, start)
  {
    hide GetBlock;
    forall k | b.i <= k < |b.page| ensures RowLive(d, b, k, start) || RowGone(d, b.page[k]) {
      assert RowLive(d, a, k, start) || RowGone(d, a.page[k]);
    }
  }

  /**
   * The place of a block being posted: if it is stored under the hash it was read with, the block
   * owes what is being posted, and everything stored above the registration that is owed before -
   * in height then stream order - was acknowledged.
   */
  ghost predicate InTurn(w: World, start: int, hook: Hook, p: Projections)
    requires AtBlock(w) && Housed(w.db.index.history)
  {
    var row := w.phase.page[w.phase.i];
    row.height > start && !RowGone(w.db, row) ==>
      && OwedAt(w.db, row.height, hook, p) == Deliveries(hook, row, p)
      && forall g, q :: start < g && 0 <= q < |OwedAt(w.db, g, hook, p)| && (g < row.height || (g == row.height && q < w.phase.j)) ==>
           AckedAt(w.acked, g, HashAt(w.db, g), q)
  }

  lemma SoundInTurn(w: World, start: int, hook: Hook, p: Projections)
    requires AllSound(w, start, hook, p) && AtBlock(w)
    ensures Housed(w.db.index.history) && InTurn(w, start, hook, p)
  {
    hide GetBlock, Deliveries, OwedAt, AckedAt, OwnSignatures, DroppedHoused, Housed, Good;
    ReadableHouses(w.db);
    var row := w.phase.page[w.phase.i];
    if row.height > start && !RowGone(w.db, row) {
      assert RowLive(w.db, w.phase, w.phase.i, start);
      LiveOwed(w.db, row, hook, p);
      forall g, q | start < g && 0 <= q < |OwedAt(w.db, g, hook, p)| && (g < row.height || (g == row.height && q < w.phase.j))
        ensures AckedAt(w.acked, g, HashAt(w.db, g), q)
      {
        NothingOwed(w.db, g, hook, p);
      }
    }
  }

  lemma LiveOwed(d: Database, row: BlockRow, hook: Hook, p: Projections)
    requires Housed(d.index.history) && Content(GetBlock(d, row.height)) == Content(Some(row))
    ensures HashAt(d, row.height) == Some(row.hash) && OwedAt(d, row.height, hook, p) == Deliveries(hook, row, p)
  {
    hide Deliveries;
    SameOwed(GetBlock(d, row.height), Some(row), hook, p);
    StoredHash(d, row.height);
  }

  /** A block that is recorded was still the next one: with its last acknowledgement everything up to it is done. */
  lemma RecordedIsDone(w: World, start: int, hook: Hook, p: Projections)
    requires AllSound(w, start, hook, p) && Enabled(w, Record, hook, p) && !RowGone(w.db, w.phase.page[w.phase.i])
    ensures Housed(w.db.index.history) && Done(w, w.phase.page[w.phase.i].height, start, hook, p)
  {
    hide GetBlock, Deliveries, OwedAt, AckedAt, AllSound, Housed, HashAt;
    SoundInTurn(w, start, hook, p);
  }

  lemma RecordSound(w: World, start: int, hook: Hook, p: Projections)
    requires AllSound(w, start, hook, p) && Enabled(w, Record, hook, p)
    ensures AllSound(Next(w, Record, hook, p), start, hook, p)
  {
    hide GetBlock, Deliveries, AckedAt, HashAt, Housed, Good, OwnSignatures, DroppedHoused, PhaseSound, Done, RowGone;
    ReadableHouses(w.db);
    var row := w.phase.page[w.phase.i];
    var landed := Webhooks.Lands(w.db, hook.id, row.height, row.hash);
    if landed { RecordedIsDone(w, start, hook, p) by { LandedIsThere(w.db, hook.id, row); } }
    var e := Webhooks.Delivered(w.db, hook.id, row.height, row.hash);
    HooksOnly(w.db, e.hooks);
    var t := w.(phase := AfterBlock(w.phase, landed));
    AfterSound(w, start, hook, p);
    HooksSound(t, e.hooks, start, hook, p);
    HooksSound(w, e.hooks, start, hook, p);
    SameDone(w.(db := e), t.(db := e), start, hook, p);
  }

  lemma LandedIsThere(d: Database, id: nat, row: BlockRow)
    requires Webhooks.Lands(d, id, row.height, row.hash)
    ensures !RowGone(d, row)
  {}

  /** The reads do not look at the hooks. */
  lemma HooksSound(w: World, hooks: map<nat, int>, start: int, hook: Hook, p: Projections)
    requires Housed(w.db.index.history)
    ensures var t := w.(db := w.db.(hooks := hooks));
      (PhaseSound(w, start, hook, p) ==> PhaseSound(t, start, hook, p))
      && forall c :: Done(w, c, start, hook, p) ==> Done(t, c, start, hook, p)
  {
    hide GetBlock, Deliveries, PostedUpto, AckedAt, Done, Housed;
    SameHooksRead(w.db, hooks);
    var e := w.db.(hooks := hooks);
    forall c | Done(w, c, start, hook, p) ensures Done(w.(db := e), c, start, hook, p) {
      assert ReadsUpto(w.db, e, start, c);
      DoneStays(w, e, c, c, start, hook, p);
    }
    if w.phase.Posting? && PhaseSound(w, start, hook, p) {
      forall k | w.phase.i <= k < |w.phase.page| ensures RowLive(e, w.phase, k, start) || RowGone(e, w.phase.page[k]) {
        assert RowLive(w.db, w.phase, k, start) || RowGone(w.db, w.phase.page[k]);
      }
    }
  }

  lemma SameHooksRead(d: Database, hooks: map<nat, int>)
    requires Housed(d.index.history)
    ensures forall g :: GetBlock(d.(hooks := hooks), g) == GetBlock(d, g)
  {
    hide Actions, Dropped, Undecoded;
  }

  /** After a block is recorded the rows left follow it. */
  lemma AfterSound(w: World, start: int, hook: Hook, p: Projections)
    requires AllSound(w, start, hook, p) && Enabled(w, Record, hook, p)
    ensures Housed(w.db.index.history)
    ensures var row := w.phase.page[w.phase.i];
      PhaseSound(w.(phase := AfterBlock(w.phase, Webhooks.Lands(w.db, hook.id, row.height, row.hash))), start, hook, p)
  {
    hide GetBlock, Deliveries, OwedAt, AckedAt, Good, OwnSignatures, DroppedHoused, HashAt, Housed, Done, RowGone;
    ReadableHouses(w.db);
    var row := w.phase.page[w.phase.i];
    var landed := Webhooks.Lands(w.db, hook.id, row.height, row.hash);
    var t := w.(phase := AfterBlock(w.phase, landed));
    if landed {
      RecordedIsDone(w, start, hook, p) by { LandedIsThere(w.db, hook.id, row); }
      SameDone(w, t, start, hook, p);
      if t.phase.Posting? {
        forall k | t.phase.i <= k < |t.phase.page| ensures RowLive(t.db, t.phase, k, start) || RowGone(t.db, t.phase.page[k]) {
          assert RowLive(w.db, w.phase, k, start) || RowGone(w.db, w.phase.page[k]);
          assert Before(t.phase, k) == Before(w.phase, k);
        }
      }
    }
  }

  lemma QuietSound(w: World, m: Move, start: int, hook: Hook, p: Projections)
    requires AllSound(w, start, hook, p) && Enabled(w, m, hook, p)
    requires m.ListHooks? || m.ReadTip? || m.Crash? || m.Finalize?
    ensures AllSound(Next(w, m, hook, p), start, hook, p)
  {
    hide GetBlock, Deliveries, AckedAt, Good, OwnSignatures, DroppedHoused, Housed, PageSound, Done;
    ReadableHouses(w.db);
    SameDone(w, Next(w, m, hook, p), start, hook, p);
  }

  lemma MoveSound(w: World, m: Move, start: int, hook: Hook, p: Projections)
    requires AllSound(w, start, hook, p) && Enabled(w, m, hook, p)
    requires CommitClear(w, m, start, hook, p) && RollClear(w, m, start)
    ensures Housed(w.db.index.history) && AllSound(Next(w, m, hook, p), start, hook, p)
  {
    hide AllSound, CommitClear;
    SoundHouses(w, start, hook, p);
    match m {
      case ReadPage => ReadPageSound(w, start, hook, p);
      case Post(accepted) => PostSound(w, accepted, start, hook, p);
      case Record => RecordSound(w, start, hook, p);
      case Insert(blocks) => InsertSound(w, blocks, start, hook, p);
      case RollTo(height) => RollToSound(w, height, start, hook, p);
      case _ => QuietSound(w, m, start, hook, p);
    }
  }

  lemma SoundHouses(w: World, start: int, hook: Hook, p: Projections)
    requires AllSound(w, start, hook, p)
    ensures Housed(w.db.index.history)
  {}

  // --------------------------------------------------------------------- runs

  ghost predicate CommitsClear(w: World, moves: seq<Move>, start: int, hook: Hook, p: Projections) {
    moves == [] ||
    (CommitsClear(w, moves[..|moves| - 1], start, hook, p)
     && var v := Run(w, moves[..|moves| - 1], hook, p);
        Enabled(v, moves[|moves| - 1], hook, p) ==> CommitClear(v, moves[|moves| - 1], start, hook, p))
  }

  ghost predicate RollsClear(w: World, moves: seq<Move>, start: int, hook: Hook, p: Projections) {
    moves == [] ||
    (RollsClear(w, moves[..|moves| - 1], start, hook, p)
     && var v := Run(w, moves[..|moves| - 1], hook, p);
        Enabled(v, moves[|moves| - 1], hook, p) ==> RollClear(v, moves[|moves| - 1], start))
  }

  lemma {:induction false} RunSound(w: World, moves: seq<Move>, start: int, hook: Hook, p: Projections)
    requires Armed(w, start, hook)
    requires CommitsClear(w, moves, start, hook, p) && RollsClear(w, moves, start, hook, p)
    ensures AllSound(Run(w, moves, hook, p), start, hook, p)
  {
    hide AllSound, Next, Enabled, Armed, CommitClear, RollClear;
    if moves == [] {
      ArmedSound(w, start, hook, p);
    } else {
      var front, m := moves[..|moves| - 1], moves[|moves| - 1];
      RunSound(w, front, start, hook, p);
      var v := Run(w, front, hook, p);
      if Enabled(v, m, hook, p) { MoveSound(v, m, start, hook, p); }
    }
  }

  lemma ArmedSound(w: World, start: int, hook: Hook, p: Projections)
    requires Armed(w, start, hook)
    ensures AllSound(w, start, hook, p)
  {
    hide GetBlock, OwedAt, Good, OwnSignatures, DroppedHoused;
  }

  /** Everything up to the hook's cursor was acknowledged, and what is being posted comes in its turn. */
  ghost predicate Delivered(v: World, start: int, hook: Hook, p: Projections) {
    && Housed(v.db.index.history) && HookDone(v, start, hook, p)
    && (AtBlock(v) ==> InTurn(v, start, hook, p))
  }

  /**
   * Delivery with or without finality. Over every run of dispatcher, commits and rollbacks in
   * which no commit writes a height the hook should have had and no rollback goes below the
   * dispatcher's own cursor while the hook is worked on: everything the stored blocks from the
   * registration height up to the hook's cursor owe was acknowledged, for those very blocks, and
   * whatever is posted of a stored block is what it owes and comes after all that is owed before.
   */
  lemma DeliveredUndisturbed(w: World, moves: seq<Move>, start: int, hook: Hook, p: Projections)
    requires Armed(w, start, hook)
    requires CommitsClear(w, moves, start, hook, p) && RollsClear(w, moves, start, hook, p)
    ensures Delivered(Run(w, moves, hook, p), start, hook, p)
  {
    hide Armed, Run, InTurn;
    RunSound(w, moves, start, hook, p);
    var v := Run(w, moves, hook, p);
    if AtBlock(v) { SoundInTurn(v, start, hook, p); }
  }

  /** A hook's cursor stays at or below the indexed height, whatever commits and whatever is rolled back. */
  lemma {:induction false} HookIndexed(w: World, moves: seq<Move>, start: int, hook: Hook, p: Projections)
    requires Armed(w, start, hook) && -1 <= start <= Top(w.db)
    ensures var v := Run(w, moves, hook, p);
      Readable(v.db) && Top(v.db) >= -1 && (hook.id in v.db.hooks ==> v.db.hooks[hook.id] <= Top(v.db))
  {
    hide Next, Enabled, Readable;
    if moves != [] {
      var front, m := moves[..|moves| - 1], moves[|moves| - 1];
      HookIndexed(w, front, start, hook, p);
      var v := Run(w, front, hook, p);
      if Enabled(v, m, hook, p) && Housed(v.db.index.history) { MoveIndexed(v, m, hook, p); }
    }
  }

  lemma MoveIndexed(w: World, m: Move, hook: Hook, p: Projections)
    requires Readable(w.db) && Top(w.db) >= -1 && (hook.id in w.db.hooks ==> w.db.hooks[hook.id] <= Top(w.db))
    requires Enabled(w, m, hook, p)
    ensures Housed(w.db.index.history)
    ensures var v := Next(w, m, hook, p);
      Readable(v.db) && Top(v.db) >= -1 && (hook.id in v.db.hooks ==> v.db.hooks[hook.id] <= Top(v.db))
  {
    hide Below, Valid, OwnSignatures, DroppedHoused, Housed, Deliveries, InsertAll, KeepIndex, GetBlock, Page;
    ReadableHouses(w.db);
    match m {
      case Insert(blocks) => InsertAllReads(w.db, blocks, p);
      case RollTo(height) => RollbackReadable(w.db, height);
      case Record =>
        var row := w.phase.page[w.phase.i];
        HooksOnly(w.db, Webhooks.Delivered(w.db, hook.id, row.height, row.hash).hooks);
        if Webhooks.Lands(w.db, hook.id, row.height, row.hash) { Webhooks.StoredIsIndexed(w.db, row.height); }
      case _ =>
    }
  }

  // ------------------------------------------------------------ under finality

  lemma RollbackIsClear(w: World, m: Move, start: int, hook: Hook, p: Projections)
    requires PostedInv(w, start, hook) && Enabled(w, m, hook, p)
    ensures RollClear(w, m, start)
  {}

  lemma {:induction false} FinalityClears(w: World, moves: seq<Move>, start: int, hook: Hook, p: Projections)
    requires Registered(w, start, hook)
    ensures RollsClear(w, moves, start, hook, p)
  {
    hide RollClear, PostedInv, Enabled, Next, Registered;
    if moves != [] {
      var front, m := moves[..|moves| - 1], moves[|moves| - 1];
      FinalityClears(w, front, start, hook, p);
      RunPosted(w, front, start, hook, p);
      var v := Run(w, front, hook, p);
      if Enabled(v, m, hook, p) { RollbackIsClear(v, m, start, hook, p); }
    }
  }

  /**
   * Delivery under finality. Over every interleaving of the dispatcher's steps, failed posts,
   * crashes, rollbacks no lower than the finalized height, rising finality and commits that write
   * no height the hook should have had: every block anything of which was posted is still stored,
   * under the hash it was posted with; everything the stored blocks from the registration height
   * up to the hook's cursor owe was acknowledged; and whatever is posted is what its block, stored
   * then and from then on, owes, and comes after all that is owed before it.
   */
  lemma DeliveredUnderFinality(w: World, moves: seq<Move>, start: int, hook: Hook, p: Projections)
    requires Registered(w, start, hook) && CommitsClear(w, moves, start, hook, p)
    ensures var v := Run(w, moves, hook, p);
      && Delivered(v, start, hook, p)
      && (forall x :: x in v.sent ==> HashAt(v.db, x.0) == Some(x.1))
      && (AtBlock(v) ==> !RowGone(v.db, v.phase.page[v.phase.i]))
  {
    hide Run, Delivered, CommitsClear, RollsClear;
    FinalityClears(w, moves, start, hook, p);
    DeliveredUndisturbed(w, moves, start, hook, p);
    RunPosted(w, moves, start, hook, p);
  }

  // --------------------------------------------------- a rollback under a session

  /** A page over one stored height is that height's row. */
  lemma SinglePage(d: Database, from: int, to: int, h: int)
    requires Housed(d.index.history) && from <= h <= to
    requires forall g :: from <= g <= to ==> (g in d.index.history.blocks <==> g == h)
    ensures |Page(d, from, to, BLOCK_PAGE)| == 1 && Page(d, from, to, BLOCK_PAGE)[0].height == h
    ensures GetBlock(d, h) == Some(Page(d, from, to, BLOCK_PAGE)[0])
    ensures HashAt(d, h) == Some(Page(d, from, to, BLOCK_PAGE)[0].hash)
  {
    hide GetBlock;
    var keys := BlockKeys(d.index.history, from, to);
    assert keys == {Order.Key(h, 0, "")};
    PageHeightStored(d, from, to, BLOCK_PAGE, 0);
    RowHeight(d, h);
    StoredHash(d, h);
  }

  /** Posting the deliveries left of a block that is alone on its page, then recording it. */
  lemma {:induction false} PostRest(w: World, moves: seq<Move>, v: World, hook: Hook, p: Projections)
    returns (moves': seq<Move>, u: World)
    requires v == Run(w, moves, hook, p) && Housed(v.db.index.history)
    requires v.phase.Posting? && |v.phase.page| == 1 && v.phase.i == 0 && v.phase.j <= |Deliveries(hook, v.phase.page[0], p)|
    requires Webhooks.Lands(v.db, hook.id, v.phase.page[0].height, v.phase.page[0].hash)
    requires PostedUpto(v.acked, v.phase.page[0], v.phase.j)
    ensures var row := v.phase.page[0];
      && u == Run(w, moves', hook, p) && u.db == v.db.(hooks := v.db.hooks[hook.id := row.height])
      && PostedUpto(u.acked, row, |Deliveries(hook, row, p)|)
      && v.acked <= u.acked && u.finalized == v.finalized
      && forall k :: |v.acked| <= k < |u.acked| ==> u.acked[k].height == row.height && u.acked[k].hash == row.hash
    ensures u.phase == if v.phase.page[0].height < v.phase.tip then Ready(v.phase.page[0].height, v.phase.tip) else Idle
    decreases |Deliveries(hook, v.phase.page[0], p)| - v.phase.j
  {
    hide Deliveries, Housed, Run, PostedUpto;
    if v.phase.j < |Deliveries(hook, v.phase.page[0], p)| {
      RunOne(w, moves, Post(true), hook, p);
      var t := Next(v, Post(true), hook, p);
      PostedOneMore(v.acked, v.phase.page[0], v.phase.j, Deliveries(hook, v.phase.page[0], p)[v.phase.j]);
      moves', u := PostRest(w, moves + [Post(true)], t, hook, p);
    } else {
      RunOne(w, moves, Record, hook, p);
      moves', u := moves + [Record], Next(v, Record, hook, p);
    }
  }

  /** `e` is what rolling back to `H` and committing the replacement blocks leaves. */
  ghost predicate Replaces(d: Database, H: int, blocks: seq<Block>, p: Projections, e: Database) {
    blocks != [] && Ascending(blocks) && Above(blocks, H) && InsertAll(Rollback(d, H), blocks, p) == Ok(e)
  }

  lemma LastStored(d: Database, blocks: seq<Block>, p: Projections)
    requires Good(d) && Ascending(blocks) && Above(blocks, Top(d)) && InsertAll(d, blocks, p).Ok? && blocks != []
    ensures var e := InsertAll(d, blocks, p).value; var h := blocks[|blocks| - 1].height;
      h in e.index.history.blocks && e.cursor == Some(h)
  {
    hide InsertIndex, Below, Valid;
    InsertAllGood(d, blocks, p);
    CursorAfter(d, blocks, p);
    assert blocks[|blocks| - 1].height in InsertAll(d, blocks, p).value.index.history.blocks.Keys;
  }

  /** The rollback and the commit of the replacement blocks, as two moves of a run. */
  lemma RunReplaces(w: World, front: seq<Move>, v: World, H: int, blocks: seq<Block>, e: Database, hook: Hook, p: Projections)
    requires v == Run(w, front, hook, p) && Readable(v.db) && v.finalized.None? && H >= -1
    requires Replaces(v.db, H, blocks, p, e)
    ensures Readable(e) && e.hooks.Keys == v.db.hooks.Keys
    ensures Top(e) == blocks[|blocks| - 1].height && e.cursor == Some(Top(e)) && Top(e) in e.index.history.blocks
    ensures Run(w, front + [Move.RollTo(H)] + [Move.Insert(blocks)], hook, p) == v.(db := e)
  {
    hide InsertAll, KeepIndex, GetBlock, Housed, OwnSignatures, Good, Run;
    RunOne(w, front, Move.RollTo(H), hook, p);
    RollbackReadable(v.db, H);
    RunOne(w, front + [Move.RollTo(H)], Move.Insert(blocks), hook, p);
    InsertAllReads(Rollback(v.db, H), blocks, p);
    LastStored(Rollback(v.db, H), blocks, p);
  }

  /** With one more block acknowledged in full, what is done up to it is what was done up to the height below. */
  lemma DoneStep(v: World, e: Database, u: World, c: int, row: BlockRow, start: int, hook: Hook, p: Projections)
    requires Housed(e.index.history) && u.db == e.(hooks := u.db.hooks) && row.height == c + 1
    requires GetBlock(e, c + 1) == Some(row) && PostedUpto(u.acked, row, |Deliveries(hook, row, p)|)
    requires v.acked <= u.acked && forall k :: |v.acked| <= k < |u.acked| ==> u.acked[k].height == c + 1
    ensures Housed(u.db.index.history)
    ensures Done(u, c + 1, start, hook, p) <==> Done(v.(db := e), c, start, hook, p)
  {
    hide GetBlock, Deliveries, Housed;
    SameHooksRead(e, u.db.hooks);
    StoredHash(e, c + 1);
    forall g, q | g <= c ensures AckedAt(u.acked, g, HashAt(e, g), q) <==> AckedAt(v.acked, g, HashAt(e, g), q) {
      OnlyAbove(v.acked, u.acked, c, g, HashAt(e, g), q);
    }
    assert forall g :: OwedAt(u.db, g, hook, p) == OwedAt(e, g, hook, p) && HashAt(u.db, g) == HashAt(e, g);
    if Done(v.(db := e), c, start, hook, p) {
      forall g, q | start < g <= c + 1 && 0 <= q < |OwedAt(u.db, g, hook, p)|
        ensures AckedAt(u.acked, g, HashAt(u.db, g), q)
      {
        if g <= c { assert AckedAt(v.acked, g, HashAt(e, g), q); }
      }
    }
  }

  lemma OnlyAbove(a: seq<Ack>, b: seq<Ack>, c: int, g: int, hash: Option<string>, q: int)
    requires a <= b && g <= c && forall k :: |a| <= k < |b| ==> b[k].height == c + 1
    ensures AckedAt(a, g, hash, q) <==> AckedAt(b, g, hash, q)
  {
    if AckedAt(a, g, hash, q) { AckedMore(a, b, g, hash, q); }
    if m :| 0 <= m < |b| && b[m].height == g && Some(b[m].hash) == hash && b[m].place == q { assert a[m] == b[m]; }
  }

  /**
   * Why rollbacks below the cursor are excluded. Take any state without finality where the
   * dispatcher has listed a hook at cursor `c`, any rollback below `c`, and any replacement blocks
   * up to `c + 1`. The rollback rewinds the hook's own cursor, but the dispatcher still pages from
   * `c`: it can post block `c + 1` alone and move the cursor there. Then everything up to the
   * cursor was acknowledged if and only if every replacement at or below `c` owed nothing that had
   * not been acknowledged for that very block before.
   */
  lemma ReplacementsSkipped(w: World, H: int, blocks: seq<Block>, e: Database, start: int, hook: Hook, p: Projections)
    returns (moves: seq<Move>)
    requires Readable(w.db) && w.finalized.None? && w.phase.Listed? && hook.id in w.db.hooks
    requires -1 <= H < w.phase.cursor && Replaces(w.db, H, blocks, p, e)
    requires blocks[|blocks| - 1].height == w.phase.cursor + 1
    ensures Housed(e.index.history)
    ensures var c, v := w.phase.cursor, Run(w, moves, hook, p);
      && v.db == e.(hooks := e.hooks[hook.id := c + 1]) && Housed(v.db.index.history)
      && (Done(v, v.db.hooks[hook.id], start, hook, p) <==> Done(w.(db := e), c, start, hook, p))
  {
    hide InsertAll, KeepIndex, Page, GetBlock, Housed, OwnSignatures, Good, Deliveries, Run, Done, PostedUpto;
    var c := w.phase.cursor;
    RunNone(w, hook, p);
    RunReplaces(w, [], w, H, blocks, e, hook, p);
    var m2 := [] + [Move.RollTo(H)] + [Move.Insert(blocks)];
    RunOne(w, m2, ReadTip, hook, p);
    var w3 := Next(w.(db := e), ReadTip, hook, p);
    assert w3.phase == Ready(c, c + 1);
    SinglePage(e, c + 1, c + 1, c + 1);
    RunOne(w, m2 + [ReadTip], ReadPage, hook, p);
    var w4 := Next(w3, ReadPage, hook, p);
    NothingPosted(w4);
    var u;
    moves, u := PostRest(w, m2 + [ReadTip] + [ReadPage], w4, hook, p);
    DoneStep(w, e, u, c, w4.phase.page[0], start, hook, p);
  }

  lemma NothingPosted(w: World)
    requires w.phase.Posting? && w.phase.i < |w.phase.page|
    ensures PostedUpto(w.acked, w.phase.page[w.phase.i], 0)
  {}
}

/** The block stream: subscribe, read the tip, replay in pages, then the filtered live tail. */
module Sse {
  import opened Wire
  import opened Storage
  import Replay
  import opened Order
  import opened Rows
  import opened RangeRead
  import opened Broadcast
  import Source

  /** A broadcast receiver: what it holds, and whether messages were overwritten before it read them. */
  datatype Receiver = Receiver(rows: seq<BlockRow>, lagged: bool)

  datatype Client =
    | Connecting
    | Subscribed(live: Receiver)
    | Replaying(ceiling: int, next: int, live: Receiver)
    | Tailing(ceiling: int, live: Receiver)
    | Ended

  /**
   * What was noted of committed blocks: the heights whose actions came with identities of their
   * own, and those that drop no signature twice.
   */
  datatype Notes = Notes(named: set<int>, single: set<int>)

  /**
   * The writer and one subscriber. `pending` holds rows committed but not yet broadcast; `since`
   * is the last height broadcast when the client subscribed.
   */
  datatype Stream =
    Stream(db: Database, pending: seq<BlockRow>, client: Client, emitted: seq<BlockRow>, since: int, notes: Notes)

  datatype Move = Commit(blocks: seq<Block>) | Send | Subscribe | ReadTip | ReadPage | ReadFails | Receive | Overflow

  predicate HasReceiver(c: Client) { c.Subscribed? || c.Replaying? || c.Tailing? }

  predicate Enabled(s: Stream, m: Move) {
    match m
    case Commit(_) => s.pending == []
    case Send => s.pending != []
    case Subscribe => s.client.Connecting?
    case ReadTip => s.client.Subscribed?
    case ReadPage => s.client.Replaying?
    case ReadFails => s.client.Replaying?
    case Receive => s.client.Tailing? && (s.client.live.lagged || s.client.live.rows != [])
    case Overflow => HasReceiver(s.client)
  }

  /** The last height broadcast. */
  function Heard(s: Stream, base: int): int {
    Frontier(s.db, base) - |s.pending|
  }

  /** The last height of an index that starts at `base`. */
  function Frontier(d: Database, base: int): int {
    if d.cursor.None? then base - 1 else d.cursor.value
  }

  function Note(heights: set<int>, h: int, holds: bool): set<int> {
    if holds then heights + {h} else heights - {h}
  }

  /** The notes after a batch: each block is judged against the tables it is inserted into. */
  ghost function Noted(notes: Notes, d: Database, blocks: seq<Block>, p: Projections): Notes {
    if blocks == [] then notes
    else
      var front, b := blocks[..|blocks| - 1], blocks[|blocks| - 1];
      var before := Noted(notes, d, front, p);
      Notes(Note(before.named, b.height,
                 InsertAll(d, front, p).Ok? && FreshIdentities(InsertAll(d, front, p).value.index.history, b)),
            Note(before.single, b.height, DistinctSignatures(b)))
  }

  ghost function Next(s: Stream, m: Move, from: Option<nat>, base: int, p: Projections): Stream
    requires Enabled(s, m) && Housed(s.db.index.history)
    requires m.Commit? ==> InsertAll(s.db, m.blocks, p).Ok?
  {
    match m
    case Commit(blocks) =>
      s.(db := InsertAll(s.db, blocks, p).value, pending := RowsOf(blocks), notes := Noted(s.notes, s.db, blocks, p))
    case Send =>
      s.(pending := s.pending[1..],
         client := if HasReceiver(s.client) then s.client.(live := s.client.live.(rows := s.client.live.rows + [s.pending[0]]))
                   else s.client)
    case Subscribe => s.(client := Subscribed(Receiver([], false)), since := Heard(s, base))
    case ReadTip =>
      var tip := if from.None? then -1 else if s.db.cursor.None? then from.value - 1 else s.db.cursor.value;
      s.(client := Replaying(tip, if from.None? then tip + 1 else from.value, s.client.live))
    case ReadPage =>
      var c := s.client;
      if c.next > c.ceiling then s.(client := Tailing(c.ceiling, c.live))
      else
        var page := Page(s.db, c.next, c.ceiling, BLOCK_PAGE);
        if page == [] then s.(client := Tailing(c.ceiling, c.live))
        else s.(emitted := s.emitted + page, client := c.(next := page[|page| - 1].height + 1))
    case ReadFails => s.(client := Tailing(s.client.ceiling, s.client.live))
    case Receive =>
      var c := s.client;
      if c.live.lagged then s.(client := Ended)
      else
        var row := c.live.rows[0];
        s.(client := Tailing(c.ceiling, c.live.(rows := c.live.rows[1..])),
           emitted := if row.height > c.ceiling then s.emitted + [row] else s.emitted)
    case Overflow => s.(client := s.client.(live := Receiver([], true)))
  }

  // --------------------------------------------------------------- hypotheses

  /** Heights `base` to the cursor are stored, and no others. */
  ghost predicate Contiguous(d: Database, base: int) {
    && base >= 0 && (d.cursor.Some? ==> base <= d.cursor.value)
    && forall h :: h in d.index.history.blocks <==> base <= h <= Frontier(d, base)
  }

  /** The batches the writer commits: the next heights, whatever identities and signatures they repeat. */
  ghost predicate NextBatch(d: Database, blocks: seq<Block>, base: int, p: Projections) {
    Source.Consecutive(blocks, Frontier(d, base) + 1) && InsertAll(d, blocks, p).Ok?
  }

  /** What a move may be: batches run on, replay reads succeed, and a resume is at most the next height. */
  ghost predicate Fair(s: Stream, m: Move, from: Option<nat>, base: int, p: Projections) {
    match m
    case Commit(blocks) => NextBatch(s.db, blocks, base, p)
    case ReadTip => from.Some? ==> base <= from.value && (s.db.cursor.Some? ==> from.value <= s.db.cursor.value + 1)
    case ReadFails => false
    case _ => true
  }

  // ---------------------------------------------------------------- invariant

  /**
   * The row has the header a read of its height returns; the actions too, if its block brought
   * identities of its own, and the dropped rows, up to their order, if it drops no signature twice.
   */
  ghost predicate AsStored(d: Database, notes: Notes, row: BlockRow)
    requires Housed(d.index.history)
  {
    var read := GetBlock(d, row.height);
    read.Some? && var stored := read.value;
    && row == stored.(actions := row.actions, undecoded := row.undecoded, dropped := row.dropped, disputed := row.disputed)
    && (row.height in notes.named ==> row.actions == stored.actions && row.undecoded == stored.undecoded)
    && (row.height in notes.single ==> multiset(row.dropped) == multiset(stored.dropped))
  }

  /** The rows run on from `start`, each as stored. */
  ghost predicate Shows(d: Database, notes: Notes, rows: seq<BlockRow>, start: int)
    requires Housed(d.index.history)
  {
    forall i :: 0 <= i < |rows| ==> rows[i].height == start + i && AsStored(d, notes, rows[i])
  }

  function Start(s: Stream, from: Option<nat>): int {
    if from.Some? then from.value else s.since + 1
  }

  function Higher(a: int, b: int): int { if a < b then b else a }

  /** The last height the receiver has handed out; its rows are the ones after it up to the last broadcast. */
  function Received(s: Stream, base: int): int
    requires HasReceiver(s.client)
  {
    Heard(s, base) - |s.client.live.rows|
  }

  ghost predicate ReceiverOk(s: Stream, base: int)
    requires Housed(s.db.index.history)
  {
    HasReceiver(s.client) && !s.client.live.lagged ==>
      && s.since <= Received(s, base)
      && Shows(s.db, s.notes, s.client.live.rows, Received(s, base) + 1)
  }

  ghost predicate StageOk(s: Stream, from: Option<nat>, base: int) {
    match s.client
    case Connecting => s.emitted == []
    case Subscribed(live) => s.emitted == [] && (live.lagged || Received(s, base) == s.since)
    case Replaying(ceiling, next, live) =>
      && (live.lagged || Received(s, base) == s.since)
      && (if from.None? then s.emitted == [] && ceiling == -1 && next == 0
          else base <= from.value <= next <= ceiling + 1 && |s.emitted| == next - from.value && s.since <= ceiling
               && (ceiling <= Frontier(s.db, base) || next == ceiling + 1))
    case Tailing(ceiling, live) =>
      live.lagged || |s.emitted| == Higher(ceiling, Received(s, base)) - Start(s, from) + 1
    case Ended => true
  }

  ghost predicate Inv(s: Stream, from: Option<nat>, base: int) {
    && Readable(s.db) && Contiguous(s.db, base)
    && |s.pending| <= Frontier(s.db, base) - base + 1 && Shows(s.db, s.notes, s.pending, Heard(s, base) + 1)
    && ReceiverOk(s, base) && StageOk(s, from, base)
    && Shows(s.db, s.notes, s.emitted, Start(s, from))
    && (HasReceiver(s.client) ==> base - 1 <= s.since <= Heard(s, base))
  }

  // ----------------------------------------------------------- batches and pages

  /** The notes agree up to `top`. */
  ghost predicate SameNotes(a: Notes, b: Notes, top: int) {
    forall h :: h <= top ==> (h in a.named <==> h in b.named) && (h in a.single <==> h in b.single)
  }

  lemma ShownStays(d: Database, n: Notes, e: Database, o: Notes, rows: seq<BlockRow>, start: int, top: int)
    requires Housed(d.index.history) && Housed(e.index.history) && Shows(d, n, rows, start) && SameNotes(n, o, top)
    requires forall h :: h <= top ==> Content(GetBlock(e, h)) == Content(GetBlock(d, h))
    requires rows == [] || start + |rows| <= top + 1
    ensures Shows(e, o, rows, start)
  {
    hide GetBlock, Housed;
    forall i | 0 <= i < |rows| ensures AsStored(e, o, rows[i]) {
      assert AsStored(d, n, rows[i]);
      assert Content(GetBlock(e, rows[i].height)) == Content(GetBlock(d, rows[i].height));
    }
  }

  lemma CommitOne(d: Database, n: Notes, b: Block, base: int, p: Projections)
    requires Readable(d) && Contiguous(d, base) && b.height == Frontier(d, base) + 1 && InsertBlock(d, b, p).Ok?
    requires b.height in n.named ==> FreshIdentities(d.index.history, b)
    requires b.height in n.single ==> DistinctSignatures(b)
    ensures var e := InsertBlock(d, b, p).value;
      && Readable(e) && Contiguous(e, base) && Frontier(e, base) == Frontier(d, base) + 1
      && AsStored(e, n, RowFromWire(b))
      && forall h :: h <= Frontier(d, base) ==> Content(GetBlock(e, h)) == Content(GetBlock(d, h))
  {
    hide InsertIndex, GetBlock, Housed, OwnSignatures, DroppedHoused, FreshIdentities, DistinctSignatures, Below, Valid;
    Replay.InsertGood(d, b, p);
    BroadcastAgrees(d, b, p);
    forall h | h <= Frontier(d, base)
      ensures Content(GetBlock(InsertBlock(d, b, p).value, h)) == Content(GetBlock(d, h))
    {
      InsertReads(d, b, p, h);
    }
  }

  lemma FrontBatch(d: Database, blocks: seq<Block>, base: int, p: Projections)
    requires NextBatch(d, blocks, base, p) && blocks != []
    ensures NextBatch(d, blocks[..|blocks| - 1], base, p)
    ensures InsertBlock(InsertAll(d, blocks[..|blocks| - 1], p).value, blocks[|blocks| - 1], p).Ok?
  {
    hide InsertBlock;
  }

  lemma {:induction false} NotedAbove(n: Notes, d: Database, blocks: seq<Block>, top: int, p: Projections)
    requires forall i :: 0 <= i < |blocks| ==> blocks[i].height > top
    ensures SameNotes(n, Noted(n, d, blocks, p), top)
  {
    hide InsertAll, FreshIdentities, DistinctSignatures;
    if blocks != [] {
      NotedAbove(n, d, blocks[..|blocks| - 1], top, p);
    }
  }

  /** The last block of a batch is noted as it is judged. */
  lemma NotedLast(n: Notes, d: Database, blocks: seq<Block>, p: Projections)
    requires blocks != [] && InsertAll(d, blocks[..|blocks| - 1], p).Ok?
    ensures var o, b := Noted(n, d, blocks, p), blocks[|blocks| - 1];
      && (b.height in o.named <==> FreshIdentities(InsertAll(d, blocks[..|blocks| - 1], p).value.index.history, b))
      && (b.height in o.single <==> DistinctSignatures(b))
      && SameNotes(Noted(n, d, blocks[..|blocks| - 1], p), o, b.height - 1)
  {
    hide InsertAll, FreshIdentities, DistinctSignatures;
  }

  /**
   * A committed batch: the index grows by it, older rows read as before, and its broadcast rows
   * are the stored ones as far as their blocks brought their own identities and signatures.
   */
  lemma {:induction false} CommitBatch(d: Database, n: Notes, blocks: seq<Block>, base: int, p: Projections)
    requires Readable(d) && Contiguous(d, base) && NextBatch(d, blocks, base, p)
    ensures var e := InsertAll(d, blocks, p).value;
      && Readable(e) && Contiguous(e, base) && Frontier(e, base) == Frontier(d, base) + |blocks|
      && Shows(e, Noted(n, d, blocks, p), RowsOf(blocks), Frontier(d, base) + 1)
      && forall h :: h <= Frontier(d, base) ==> Content(GetBlock(e, h)) == Content(GetBlock(d, h))
  {
    hide InsertBlock, GetBlock, Readable, FreshIdentities, DistinctSignatures, RowFromWire, Contiguous, AsStored, Noted;
    if blocks != [] {
      var front, b := blocks[..|blocks| - 1], blocks[|blocks| - 1];
      FrontBatch(d, blocks, base, p);
      CommitBatch(d, n, front, base, p);
      var d' := InsertAll(d, front, p).value;
      var o := Noted(n, d, blocks, p);
      NotedLast(n, d, blocks, p);
      CommitOne(d', o, b, base, p);
      var e := InsertAll(d, blocks, p).value;
      ReadableHouses(d');
      ReadableHouses(e);
      ShownStays(d', Noted(n, d, front, p), e, o, RowsOf(front), Frontier(d, base) + 1, Frontier(d', base));
      assert RowsOf(blocks) == RowsOf(front) + [RowFromWire(b)];
      WireHeight(b);
    }
  }

  lemma WireHeight(b: Block)
    ensures RowFromWire(b).height == b.height
  {}

  /** The stored heights of a stretch of a contiguous index, listed. */
  lemma ContiguousKeys(d: Database, from: int, to: int, base: int)
    requires Contiguous(d, base) && base <= from <= to <= Frontier(d, base)
    ensures var keys := Sort(BlockKeys(d.index.history, from, to));
      |keys| == to - from + 1 && forall i :: 0 <= i < |keys| ==> keys[i] == Key(from + i, 0, "")
  {
    hide Sort;
    var keys := BlockKeys(d.index.history, from, to);
    var run := seq(to - from + 1, i requires 0 <= i < to - from + 1 => Key(from + i, 0, ""));
    forall k ensures k in keys <==> k in Elements(run) {
      if k in Elements(run) {
        var i :| 0 <= i < |run| && run[i] == k;
      }
      if k in keys { assert run[k.height - from] == k; }
    }
    SortedUnique(Sort(keys), run);
  }

  /** In a contiguous index a page starts at the height asked for and has no hole. */
  lemma ContiguousPage(d: Database, n: Notes, from: int, to: int, base: int)
    requires Readable(d) && Contiguous(d, base) && base <= from <= to <= Frontier(d, base)
    ensures var page := Page(d, from, to, BLOCK_PAGE);
      page != [] && from + |page| <= to + 1 && Shows(d, n, page, from)
  {
    hide Sort, GetBlock, Housed, OwnSignatures, DroppedHoused, Replay.Good, Page, BlockKeys, Contiguous;
    ReadableHouses(d);
    ContiguousKeys(d, from, to, base);
    PageRows(d, from, to, BLOCK_PAGE);
    var page := Page(d, from, to, BLOCK_PAGE);
    forall i | 0 <= i < |page| ensures page[i].height == from + i && AsStored(d, n, page[i]) {
      RowHeight(d, from + i);
    }
  }

  // ------------------------------------------------------------------- steps

  lemma CommitKeeps(s: Stream, blocks: seq<Block>, from: Option<nat>, base: int, p: Projections)
    requires Inv(s, from, base) && s.pending == [] && NextBatch(s.db, blocks, base, p)
    ensures Inv(Next(s, Commit(blocks), from, base, p), from, base)
  {
    hide InsertAll, GetBlock, Readable, Contiguous, Shows, NextBatch, Noted, SameNotes;
    ReadableHouses(s.db);
    BatchCommits(s.db, blocks, base, p);
    CommitBatch(s.db, s.notes, blocks, base, p);
    var e, o := InsertAll(s.db, blocks, p).value, Noted(s.notes, s.db, blocks, p);
    ReadableHouses(e);
    var top := Frontier(s.db, base);
    BatchAbove(s.db, blocks, base, p);
    NotedAbove(s.notes, s.db, blocks, top, p);
    EmittedReach(s, from, base);
    ShownStays(s.db, s.notes, e, o, s.emitted, Start(s, from), top);
    if HasReceiver(s.client) && !s.client.live.lagged {
      ShownStays(s.db, s.notes, e, o, s.client.live.rows, Received(s, base) + 1, top);
    }
  }

  lemma BatchAbove(d: Database, blocks: seq<Block>, base: int, p: Projections)
    requires NextBatch(d, blocks, base, p)
    ensures forall i :: 0 <= i < |blocks| ==> blocks[i].height > Frontier(d, base)
  {}

  lemma BatchCommits(d: Database, blocks: seq<Block>, base: int, p: Projections)
    requires NextBatch(d, blocks, base, p)
    ensures InsertAll(d, blocks, p).Ok?
  {}

  /** Nothing is emitted that is not indexed. */
  lemma EmittedReach(s: Stream, from: Option<nat>, base: int)
    requires Inv(s, from, base)
    ensures s.emitted == [] || Start(s, from) + |s.emitted| <= Frontier(s.db, base) + 1
  {
    hide Readable;
    ReadableHouses(s.db);
    if s.emitted != [] {
      var i := |s.emitted| - 1;
      assert AsStored(s.db, s.notes, s.emitted[i]);
      assert s.emitted[i].height in s.db.index.history.blocks;
    }
  }

  lemma SendKeeps(s: Stream, from: Option<nat>, base: int, p: Projections)
    requires Inv(s, from, base) && s.pending != []
    ensures Inv(Next(s, Send, from, base, p), from, base)
  {
    hide AsStored, Readable, Contiguous;
    ReadableHouses(s.db);
    var t := Next(s, Send, from, base, p);
    forall i | 0 <= i < |t.pending| ensures t.pending[i].height == Heard(t, base) + 1 + i && AsStored(s.db, s.notes, t.pending[i]) {
      assert t.pending[i] == s.pending[i + 1];
    }
  }

  lemma ReadPageKeeps(s: Stream, from: Option<nat>, base: int, p: Projections)
    requires Inv(s, from, base) && s.client.Replaying?
    ensures Inv(Next(s, ReadPage, from, base, p), from, base)
  {
    hide AsStored, Readable, Page;
    ReadableHouses(s.db);
    var c := s.client;
    if c.next <= c.ceiling {
      ContiguousPage(s.db, s.notes, c.next, c.ceiling, base);
    }
  }

  lemma ReceiveKeeps(s: Stream, from: Option<nat>, base: int, p: Projections)
    requires Inv(s, from, base) && Enabled(s, Receive)
    ensures Inv(Next(s, Receive, from, base, p), from, base)
  {
    hide AsStored, Readable, Contiguous;
    ReadableHouses(s.db);
    if !s.client.live.lagged {
      var t, rows := Next(s, Receive, from, base, p), s.client.live.rows;
      forall i | 0 <= i < |rows| - 1
        ensures rows[1..][i].height == Received(t, base) + 1 + i && AsStored(s.db, s.notes, rows[1..][i])
      {
        assert rows[1..][i] == rows[i + 1];
      }
    }
  }

  lemma HandshakeKeeps(s: Stream, m: Move, from: Option<nat>, base: int, p: Projections)
    requires Inv(s, from, base) && Enabled(s, m) && Fair(s, m, from, base, p) && (m.Subscribe? || m.ReadTip? || m.Overflow?)
    ensures Inv(Next(s, m, from, base, p), from, base)
  {
    hide AsStored, Readable;
    ReadableHouses(s.db);
  }

  lemma MoveKeeps(s: Stream, m: Move, from: Option<nat>, base: int, p: Projections)
    requires Inv(s, from, base) && Enabled(s, m) && Fair(s, m, from, base, p)
    ensures m.Commit? ==> InsertAll(s.db, m.blocks, p).Ok?
    ensures Housed(s.db.index.history) && Inv(Next(s, m, from, base, p), from, base)
  {
    hide Inv, NextBatch, Next;
    InvHouses(s, from, base);
    match m {
      case Commit(blocks) =>
        BatchCommits(s.db, blocks, base, p);
        CommitKeeps(s, blocks, from, base, p);
      case Send => SendKeeps(s, from, base, p);
      case ReadPage => ReadPageKeeps(s, from, base, p);
      case Receive => ReceiveKeeps(s, from, base, p);
      case _ => HandshakeKeeps(s, m, from, base, p);
    }
  }

  lemma InvHouses(s: Stream, from: Option<nat>, base: int)
    requires Inv(s, from, base)
    ensures Housed(s.db.index.history)
  {}

  // -------------------------------------------------------------------- runs

  /** A move where it can happen and its commit succeeds; otherwise nothing. */
  ghost function After(s: Stream, m: Move, from: Option<nat>, base: int, p: Projections): Stream {
    if Enabled(s, m) && Housed(s.db.index.history) && (m.Commit? ==> InsertAll(s.db, m.blocks, p).Ok?)
    then Next(s, m, from, base, p) else s
  }

  ghost function Run(s: Stream, moves: seq<Move>, from: Option<nat>, base: int, p: Projections): Stream {
    if moves == [] then s
    else After(Run(s, moves[..|moves| - 1], from, base, p), moves[|moves| - 1], from, base, p)
  }

  ghost predicate FairRun(s: Stream, moves: seq<Move>, from: Option<nat>, base: int, p: Projections) {
    moves == [] ||
    (FairRun(s, moves[..|moves| - 1], from, base, p)
     && var t := Run(s, moves[..|moves| - 1], from, base, p);
        Enabled(t, moves[|moves| - 1]) ==> Fair(t, moves[|moves| - 1], from, base, p))
  }

  /** A client about to connect to an index whose committed rows are partly still to be broadcast. */
  ghost predicate Opens(s: Stream, base: int) {
    && Readable(s.db) && Contiguous(s.db, base) && s.client == Connecting && s.emitted == []
    && |s.pending| <= Frontier(s.db, base) - base + 1 && Shows(s.db, s.notes, s.pending, Heard(s, base) + 1)
  }

  lemma {:induction false} RunKeeps(s: Stream, moves: seq<Move>, from: Option<nat>, base: int, p: Projections)
    requires Opens(s, base) && FairRun(s, moves, from, base, p)
    ensures Inv(Run(s, moves, from, base, p), from, base)
  {
    hide Inv, Next, Fair, Enabled;
    if moves == [] {
      OpensInv(s, from, base);
    } else {
      var front, m := moves[..|moves| - 1], moves[|moves| - 1];
      RunKeeps(s, front, from, base, p);
      var t := Run(s, front, from, base, p);
      if Enabled(t, m) {
        MoveKeeps(t, m, from, base, p);
      }
    }
  }

  lemma OpensInv(s: Stream, from: Option<nat>, base: int)
    requires Opens(s, base)
    ensures Inv(s, from, base)
  {}

  /**
   * Replay then live. Over every interleaving of batch commits, single broadcasts and the
   * client's own steps - subscribing, reading the tip, reading pages, receiving - and whatever
   * messages a slow client loses: the rows emitted are the heights from, from + 1, ... with none
   * skipped and none repeated (without a `from`, those after the last broadcast before it
   * subscribed), each with the header a read of that height returns. A row carries the stored
   * actions whenever its block brought identities of its own, and the stored dropped rows whenever
   * it drops no signature twice. When the client has caught up with the broadcast and nothing was
   * lost, the rows reach the index's last height.
   */
  lemma HandoffIsSeamless(s: Stream, moves: seq<Move>, from: Option<nat>, base: int, p: Projections)
    requires Opens(s, base) && FairRun(s, moves, from, base, p)
    ensures var t := Run(s, moves, from, base, p);
      && Housed(t.db.index.history) && Shows(t.db, t.notes, t.emitted, Start(t, from))
      && (t.client.Tailing? && t.client.live == Receiver([], false) && t.pending == [] ==>
            |t.emitted| == Higher(t.client.ceiling, Frontier(t.db, base)) - Start(t, from) + 1)
  {
    RunKeeps(s, moves, from, base, p);
  }

  // ---------------------------------------------------------------- progress

  /** The client is live, has read everything broadcast, and everything committed was broadcast. */
  predicate CaughtUp(t: Stream) { t.client.Tailing? && t.client.live == Receiver([], false) && t.pending == [] }

  predicate Idle(m: Move) { m.Subscribe? || m.ReadTip? || m.ReadPage? || m.Send? || m.Receive? }

  /** Some run of reads, broadcasts and receptions, each possible where it stands, leads there. */
  ghost predicate Reaches(s: Stream, t: Stream, from: Option<nat>, base: int, p: Projections) {
    exists moves: seq<Move> ::
      && (forall i :: 0 <= i < |moves| ==> Idle(moves[i]))
      && FairRun(s, moves, from, base, p) && Run(s, moves, from, base, p) == t
  }

  lemma {:induction false} RunJoins(s: Stream, first: seq<Move>, rest: seq<Move>, from: Option<nat>, base: int, p: Projections)
    requires FairRun(s, first, from, base, p) && FairRun(Run(s, first, from, base, p), rest, from, base, p)
    ensures FairRun(s, first + rest, from, base, p)
    ensures Run(s, first + rest, from, base, p) == Run(Run(s, first, from, base, p), rest, from, base, p)
  {
    hide Next, Fair, Enabled;
    if rest == [] {
      assert first + rest == first;
    } else {
      RunJoins(s, first, rest[..|rest| - 1], from, base, p);
      assert (first + rest)[..|first + rest| - 1] == first + rest[..|rest| - 1];
    }
  }

  lemma ReachNext(s: Stream, m: Move, t: Stream, from: Option<nat>, base: int, p: Projections)
    requires Idle(m) && Enabled(s, m) && Fair(s, m, from, base, p) && Housed(s.db.index.history)
    requires Reaches(Next(s, m, from, base, p), t, from, base, p)
    ensures Reaches(s, t, from, base, p)
  {
    hide Next, Fair, Enabled;
    var rest: seq<Move> :|
      && (forall i :: 0 <= i < |rest| ==> Idle(rest[i]))
      && FairRun(Next(s, m, from, base, p), rest, from, base, p) && Run(Next(s, m, from, base, p), rest, from, base, p) == t;
    assert [m][..|[m]| - 1] == [];
    assert FairRun(s, [], from, base, p) && Run(s, [], from, base, p) == s;
    assert FairRun(s, [m], from, base, p) && Run(s, [m], from, base, p) == Next(s, m, from, base, p);
    RunJoins(s, [m], rest, from, base, p);
    assert forall i :: 0 <= i < |[m] + rest| ==> Idle(([m] + rest)[i]);
  }

  lemma ReachHere(s: Stream, from: Option<nat>, base: int, p: Projections)
    ensures Reaches(s, s, from, base, p)
  {
    var none: seq<Move> := [];
    assert FairRun(s, none, from, base, p) && Run(s, none, from, base, p) == s;
  }

  /** The rows above a height, in order. */
  function Above(rows: seq<BlockRow>, ceiling: int): seq<BlockRow> {
    if rows == [] then []
    else Above(rows[..|rows| - 1], ceiling) + if rows[|rows| - 1].height > ceiling then [rows[|rows| - 1]] else []
  }

  lemma {:induction false} AboveJoins(a: seq<BlockRow>, b: seq<BlockRow>, ceiling: int)
    ensures Above(a + b, ceiling) == Above(a, ceiling) + Above(b, ceiling)
  {
    if b == [] {
      assert a + b == a;
    } else {
      AboveJoins(a, b[..|b| - 1], ceiling);
      assert (a + b)[..|a + b| - 1] == a + b[..|b| - 1];
    }
  }

  /** What a live client was sent, and will be sent of what was committed. */
  function Owed(s: Stream): seq<BlockRow>
    requires s.client.Tailing?
  {
    s.emitted + Above(s.client.live.rows + s.pending, s.client.ceiling)
  }

  lemma TailStep(s: Stream, m: Move, from: Option<nat>, base: int, p: Projections)
    requires s.client.Tailing? && !s.client.live.lagged && !m.Overflow?
    ensures var t := After(s, m, from, base, p);
      && t.client.Tailing? && !t.client.live.lagged && t.client.ceiling == s.client.ceiling
      && Owed(t) == Owed(s) + (if m.Commit? && t != s then Above(t.pending, s.client.ceiling) else [])
  {
    hide InsertAll, Housed, Noted, Above, Owed;
    var t := After(s, m, from, base, p);
    if t != s {
      match m {
        case Commit(_) => OwedCommit(s, t);
        case Send => OwedSend(s, t);
        case Receive => OwedReceive(s, t);
        case _ =>
      }
    }
  }

  lemma OwedCommit(s: Stream, t: Stream)
    requires s.client.Tailing? && s.pending == [] && t.client == s.client && t.emitted == s.emitted
    ensures Owed(t) == Owed(s) + Above(t.pending, s.client.ceiling)
  {
    hide Above;
    AboveJoins(s.client.live.rows, t.pending, s.client.ceiling);
    assert s.client.live.rows + s.pending == s.client.live.rows;
  }

  lemma OwedSend(s: Stream, t: Stream)
    requires s.client.Tailing? && t.client.Tailing? && t.client.ceiling == s.client.ceiling && s.pending != []
    requires t.client.live.rows == s.client.live.rows + [s.pending[0]] && t.pending == s.pending[1..] && t.emitted == s.emitted
    ensures Owed(t) == Owed(s)
  {
    hide Above;
    assert s.client.live.rows + [s.pending[0]] + s.pending[1..] == s.client.live.rows + s.pending;
  }

  lemma OwedReceive(s: Stream, t: Stream)
    requires s.client.Tailing? && t.client.Tailing? && t.client.ceiling == s.client.ceiling && s.client.live.rows != []
    requires t.client.live.rows == s.client.live.rows[1..] && t.pending == s.pending
    requires t.emitted == s.emitted + if s.client.live.rows[0].height > s.client.ceiling then [s.client.live.rows[0]] else []
    ensures Owed(t) == Owed(s)
  {
    var rows := s.client.live.rows;
    AboveJoins([rows[0]], rows[1..] + s.pending, s.client.ceiling);
    assert [rows[0]] + (rows[1..] + s.pending) == rows + s.pending;
  }

  /** A live client takes what it holds and what is still to be broadcast. */
  lemma {:induction false} TailCatchesUp(s: Stream, from: Option<nat>, base: int, p: Projections) returns (t: Stream)
    requires Housed(s.db.index.history) && s.client.Tailing? && !s.client.live.lagged
    ensures Reaches(s, t, from, base, p) && CaughtUp(t) && t.db == s.db && t.client.ceiling == s.client.ceiling
    ensures t.emitted == Owed(s)
    decreases 2 * |s.pending| + |s.client.live.rows|
  {
    hide Reaches, Run, FairRun;
    if s.client.live.rows != [] {
      TailStep(s, Receive, from, base, p);
      t := TailCatchesUp(Next(s, Receive, from, base, p), from, base, p);
      ReachNext(s, Receive, t, from, base, p);
    } else if s.pending != [] {
      TailStep(s, Send, from, base, p);
      t := TailCatchesUp(Next(s, Send, from, base, p), from, base, p);
      ReachNext(s, Send, t, from, base, p);
    } else {
      t := s;
      ReachHere(s, from, base, p);
    }
  }

  /** Pages move the replay on, to its end. */
  lemma {:induction false} ReplayCatchesUp(s: Stream, from: Option<nat>, base: int, p: Projections) returns (t: Stream)
    requires Inv(s, from, base) && Housed(s.db.index.history) && s.client.Replaying? && !s.client.live.lagged
    ensures Reaches(s, t, from, base, p) && CaughtUp(t) && t.db == s.db && t.client.ceiling == s.client.ceiling
    decreases 1 + s.client.ceiling - s.client.next
  {
    hide Reaches, Run, FairRun, Shows, Contiguous, Page, Readable;
    var u := Next(s, ReadPage, from, base, p);
    ReadPageKeeps(s, from, base, p);
    if s.client.next <= s.client.ceiling {
      ContiguousPage(s.db, s.notes, s.client.next, s.client.ceiling, base);
      PageEnds(s, from, base);
    }
    if u.client.Replaying? {
      t := ReplayCatchesUp(u, from, base, p);
    } else {
      t := TailCatchesUp(u, from, base, p);
    }
    ReachNext(s, ReadPage, t, from, base, p);
  }

  lemma PageEnds(s: Stream, from: Option<nat>, base: int)
    requires Inv(s, from, base) && Housed(s.db.index.history) && s.client.Replaying? && s.client.next <= s.client.ceiling
    ensures var page := Page(s.db, s.client.next, s.client.ceiling, BLOCK_PAGE);
      page != [] && page[|page| - 1].height >= s.client.next
  {
    hide Page, Readable;
    ContiguousPage(s.db, s.notes, s.client.next, s.client.ceiling, base);
    var page := Page(s.db, s.client.next, s.client.ceiling, BLOCK_PAGE);
    assert page[|page| - 1].height == s.client.next + |page| - 1;
  }

  /**
   * Nothing stands in the way of a stream: from where a client is about to connect, with a resume
   * the index reaches, reads, broadcasts and receptions alone bring it live with everything read,
   * and it was then sent every height from `from` to the last one indexed, once - none, where
   * `from` is the next height or nothing is indexed.
   */
  lemma StreamCatchesUp(s: Stream, from: Option<nat>, base: int, p: Projections) returns (t: Stream)
    requires Opens(s, base) && Fair(s, ReadTip, from, base, p)
    ensures Reaches(s, t, from, base, p) && CaughtUp(t) && t.db == s.db
    ensures from.Some? ==>
      |t.emitted| == (if s.db.cursor.None? then 0 else s.db.cursor.value - from.value + 1)
      && forall i :: 0 <= i < |t.emitted| ==> t.emitted[i].height == from.value + i
  {
    hide Reaches, Run, FairRun, Shows, Readable;
    ReadableHouses(s.db);
    OpensInv(s, from, base);
    var u := Next(s, Subscribe, from, base, p);
    HandshakeKeeps(s, Subscribe, from, base, p);
    var v := Next(u, ReadTip, from, base, p);
    HandshakeKeeps(u, ReadTip, from, base, p);
    t := ReplayCatchesUp(v, from, base, p);
    ReachNext(u, ReadTip, t, from, base, p);
    ReachNext(s, Subscribe, t, from, base, p);
    if from.Some? {
      ReachedRows(s, t, from, base, p);
    }
  }

  lemma ReachedRows(s: Stream, t: Stream, from: Option<nat>, base: int, p: Projections)
    requires Opens(s, base) && Reaches(s, t, from, base, p) && CaughtUp(t) && t.db == s.db && from.Some?
    requires Fair(s, ReadTip, from, base, p)
    requires t.client.ceiling == if s.db.cursor.None? then from.value - 1 else s.db.cursor.value
    ensures |t.emitted| == if s.db.cursor.None? then 0 else s.db.cursor.value - from.value + 1
    ensures forall i :: 0 <= i < |t.emitted| ==> t.emitted[i].height == from.value + i
  {
    hide Run, FairRun, Opens, AsStored;
    var moves: seq<Move> :| FairRun(s, moves, from, base, p) && Run(s, moves, from, base, p) == t;
    HandoffIsSeamless(s, moves, from, base, p);
    RunKeeps(s, moves, from, base, p);
  }

  /** A client that lost messages is sent nothing more, and its next reception ends the stream. */
  lemma {:induction false} LaggedEnds(s: Stream, moves: seq<Move>, from: Option<nat>, base: int, p: Projections)
    requires s.client.Tailing? && Housed(s.db.index.history)
    ensures var u := Run(s, [Overflow], from, base, p);
      && u == s.(client := u.client) && Run(s, [Overflow, Receive], from, base, p) == s.(client := Ended)
      && Run(u, moves, from, base, p).emitted == s.emitted
      && (Run(u, moves, from, base, p).client == u.client || Run(u, moves, from, base, p).client == Ended
          || (Run(u, moves, from, base, p).client.Tailing? && Run(u, moves, from, base, p).client.live.lagged))
  {
    hide InsertAll, Housed, Noted;
    var two := [Overflow, Receive];
    assert two[..1] == [Overflow] && [Overflow][..0] == [];
    assert Run(s, [], from, base, p) == s;
    if moves != [] {
      LaggedEnds(s, moves[..|moves| - 1], from, base, p);
    }
  }

  /**
   * A replay read that fails does not end the stream, as the source's warning says, but only the
   * replay: the live tail follows, filtered above the tip. So unless the replay was already
   * complete, the heights not yet replayed are never sent, whatever happens next. As long as no
   * message is lost, the tail goes on and owes no less than it did.
   */
  lemma {:induction false} FailedReadSkips(s: Stream, moves: seq<Move>, from: Option<nat>, base: int, p: Projections)
    requires s.client.Replaying? && Housed(s.db.index.history)
    ensures var t := Run(Next(s, ReadFails, from, base, p), moves, from, base, p);
      && s.emitted <= t.emitted
      && (forall i :: |s.emitted| <= i < |t.emitted| ==> t.emitted[i].height > s.client.ceiling)
      && (t.client.Tailing? ==> t.client.ceiling == s.client.ceiling)
      && (t.client.Tailing? || t.client.Ended?)
    ensures var u, t := Next(s, ReadFails, from, base, p), Run(Next(s, ReadFails, from, base, p), moves, from, base, p);
      !s.client.live.lagged && (forall i :: 0 <= i < |moves| ==> moves[i] != Overflow) ==>
        t.client.Tailing? && !t.client.live.lagged && u.client.Tailing? && Owed(u) <= Owed(t)
  {
    hide InsertAll, Housed, Noted, Above;
    if moves != [] {
      var t := Run(Next(s, ReadFails, from, base, p), moves[..|moves| - 1], from, base, p);
      if t.client.Tailing? && !t.client.live.lagged && moves[|moves| - 1] != Overflow {
        TailStep(t, moves[|moves| - 1], from, base, p);
      }
      FailedReadSkips(s, moves[..|moves| - 1], from, base, p);
    }
  }
}

/** A fork resolves: the loop peels back to the common ancestor and ends with the served chain. */
module Convergence {
  import opened Wire
  import opened Storage
  import Store
  import opened TipRules
  import opened Indexer
  import opened Replay
  import Source
  import opened Pipeline

  /** A chain a node can serve: heights from 0, linked by parent, hashes distinct. */
  ghost predicate Served(c: seq<Block>) {
    && Source.Consecutive(c, 0)
    && (forall i :: 0 < i < |c| ==> HashesMatch(c[i].parentHash, c[i - 1].hash))
    && (forall i, j :: 0 <= i < j < |c| ==> c[i].hash != c[j].hash)
    && (forall i :: 0 <= i < |c| ==> |c[i].actions| <= MAX_ACTIONS)
  }

  lemma ConsecutiveAscends(c: seq<Block>)
    requires Source.Consecutive(c, 0)
    ensures Ascending(c)
  {}

  /** The hash stored at each height is that of the block replayed there. */
  lemma {:induction false} ReplayedHash(c: seq<Block>, p: Projections, i: int)
    requires Source.Consecutive(c, 0) && InsertAll(EMPTY, c, p).Ok? && 0 <= i < |c|
    ensures Store.HashAt(InsertAll(EMPTY, c, p).value, i) == Some(c[i].hash)
  {
    hide InsertIndex, Below, Valid;
    var front := c[..|c| - 1];
    ConsecutiveAscends(front);
    EmptyGood();
    InsertAllGood(EMPTY, front, p);
    BlocksAreHeights(InsertAll(EMPTY, front, p).value);
    InsertGood(InsertAll(EMPTY, front, p).value, c[|c| - 1], p);
    if i < |c| - 1 {
      ReplayedHash(front, p, i);
    }
  }

  /** A served chain always commits. */
  lemma {:induction false} ServedCommits(c: seq<Block>, p: Projections)
    requires Served(c)
    ensures InsertAll(EMPTY, c, p).Ok?
  {
    hide InsertIndex, Below, Valid;
    if c != [] {
      var front, last := c[..|c| - 1], c[|c| - 1];
      ServedCommits(front, p);
      var d := InsertAll(EMPTY, front, p).value;
      ConsecutiveAscends(front);
      EmptyGood();
      InsertAllGood(EMPTY, front, p);
      BlocksAreHeights(d);
      forall h | h in d.index.history.blocks
        ensures d.index.history.blocks[h].hash != last.hash
      {
        ReplayedHash(front, p, h);
      }
    }
  }

  /** The setting: `own` is what is stored, it agrees with the served chain `c` up to `a` and no further. */
  ghost predicate Forked(own: seq<Block>, c: seq<Block>, a: int, depth: nat) {
    && Served(c) && Source.Consecutive(own, 0)
    && -1 <= a < |own| < |c| && |own| - 1 - a <= depth
    && own[..a + 1] == c[..a + 1]
    && (forall h :: a < h < |own| ==> !HashesMatch(c[h].hash, own[h].hash))
  }

  /** Still peeling `own` back, or already following `c`; `h` is the tip's height. */
  datatype Phase = Peeling(h: int) | Following(h: int)

  ghost predicate Converging(s: Sys, ph: Phase, own: seq<Block>, c: seq<Block>, a: int, r0: nat, p: Projections) {
    var h := ph.h;
    var chain := if ph.Peeling? then own else c;
    && -1 <= a <= h < |chain| && (ph.Following? ==> a < h)
    && s.loop.tip == (if h < 0 then None else Some(Tip(h, chain[h].hash)))
    && Replays(s.loop.db, chain[..h + 1], p) && Top(s.loop.db) == h
    && s.loop.rewoundFrom == (if ph.Following? || h == |own| - 1 then None else Some(|own| - 1))
    && |s.loop.rewinds| == r0 + |own| - 1 - (if ph.Peeling? then h else a)
    && s.read <= |s.loop.rewinds| && s.next <= |c|
    && if s.read < |s.loop.rewinds| then
         s.queue == [] && s.loop.rewinds[|s.loop.rewinds| - 1] == h + 1 && h < |c| - 1
       else s.next == h + 1 + |s.queue| && s.queue == c[h + 1..s.next]
  }

  /** The node serves `c` and nothing else, and certifies nothing above the common ancestor. */
  predicate FromNode(s: Sys, m: Move, c: seq<Block>, a: int) {
    match m
    case Page(blocks) => s.next + |blocks| <= |c| && blocks == c[s.next..s.next + |blocks|]
    case Take(finalized) => finalized.Some? ==> finalized.value <= a
    case _ => true
  }

  function Rewinding(s: Sys): int {
    if s.read < |s.loop.rewinds| then 1 else 0
  }

  /** What remains: rollbacks, then blocks to index, then blocks to fetch. */
  function Rollbacks(s: Sys, ph: Phase, a: int): int {
    2 * (if ph.Peeling? then ph.h - a else 0) + Rewinding(s)
  }

  function ToFetch(s: Sys, c: seq<Block>): int {
    2 * (|c| - s.next) + if s.fetching then 0 else 1
  }

  predicate Less(s': Sys, ph': Phase, s: Sys, ph: Phase, c: seq<Block>, a: int) {
    || Rollbacks(s', ph', a) < Rollbacks(s, ph, a)
    || (Rollbacks(s', ph', a) == Rollbacks(s, ph, a) && ph.h < ph'.h)
    || (Rollbacks(s', ph', a) == Rollbacks(s, ph, a) && ph.h == ph'.h && ToFetch(s', c) < ToFetch(s, c))
  }

  lemma PeelOne(s: Sys, ph: Phase, finalized: Option<int>, own: seq<Block>, c: seq<Block>, a: int, depth: nat, r0: nat,
                p: Projections)
    requires Forked(own, c, a, depth) && Converging(s, ph, own, c, a, r0, p) && ph.Peeling? && ph.h > a
    requires s.queue != [] && FromNode(s, Take(finalized), c, a) && Calm(s, Take(finalized), depth)
    ensures Next(s, Take(finalized), depth, p).Ok?
    ensures Converging(Next(s, Take(finalized), depth, p).value, Peeling(ph.h - 1), own, c, a, r0, p)
    ensures Less(Next(s, Take(finalized), depth, p).value, Peeling(ph.h - 1), s, ph, c, a)
  {
    hide InsertBlock, Rollback, Good, Replays, HashesMatch, TipAt, Served, Top;
    var h := ph.h;
    assert s.queue[0] == c[h + 1];
    Disagrees(own, c, a, depth, h);
    assert ActionOf(s.loop, Arrival(s.queue[0], finalized), depth) == Fork(h - 1);
    PeelDatabase(s.loop.db, own, h, p);
  }

  /** Above the common ancestor the served block does not name our block as its parent. */
  lemma Disagrees(own: seq<Block>, c: seq<Block>, a: int, depth: nat, h: int)
    requires Forked(own, c, a, depth) && a < h < |own|
    ensures c[h + 1].height == h + 1 && !HashesMatch(c[h + 1].parentHash, own[h].hash)
  {
    assert HashesMatch(c[h + 1].parentHash, c[h].hash);
  }

  lemma PeelDatabase(d: Database, own: seq<Block>, h: int, p: Projections)
    requires Source.Consecutive(own, 0) && 0 <= h < |own| && Replays(d, own[..h + 1], p)
    ensures var d' := Rollback(d, h - 1);
      Replays(d', own[..h], p) && Top(d') == h - 1 && (h > 0 ==> TipAt(d', h - 1) == Some(Tip(h - 1, own[h - 1].hash)))
  {
    hide InsertIndex, KeepIndex, Below, Valid;
    RollbackReplays(d, own[..h + 1], h - 1, p);
    RollbackGood(d, h - 1);
    assert own[..h + 1][..h] == own[..h];
    assert Upto(own[..h + 1], h - 1) == own[..h];
    if h > 0 {
      ReplayedHash(own[..h], p, h - 1);
    }
  }

  /** A block right above the tip that names it as parent is committed and becomes the tip. */
  lemma ExtendStep(loop: Loop, b: Block, finalized: Option<int>, depth: nat, p: Projections)
    requires InsertBlock(loop.db, b, p).Ok?
    requires loop.tip.Some? ==> b.height == loop.tip.value.height + 1 && HashesMatch(b.parentHash, loop.tip.value.hash)
    ensures ActionOf(loop, Arrival(b, finalized), depth) == Extend
    ensures var loop' := Step(loop, Arrival(b, finalized), depth, p);
      loop'.Ok? && loop'.value == Loop(Some(Tip(b.height, b.hash)), None, InsertBlock(loop.db, b, p).value, loop'.value.sent, loop.rewinds)
  {
    hide InsertBlock, HashesMatch;
  }

  /** Where the queue begins. */
  lemma QueueHead(s: Sys, ph: Phase, own: seq<Block>, c: seq<Block>, a: int, r0: nat, p: Projections)
    requires Converging(s, ph, own, c, a, r0, p) && s.queue != []
    ensures s.read == |s.loop.rewinds| && ph.h + 1 < s.next <= |c| && s.queue[0] == c[ph.h + 1]
    ensures s.queue[1..] == c[ph.h + 2..s.next] && s.next == ph.h + 2 + |s.queue[1..]|
  {
    hide Replays, Top;
  }

  /** The state once the served chain's next block is the tip. */
  lemma FollowState(s: Sys, ph: Phase, loop: Loop, own: seq<Block>, c: seq<Block>, a: int, r0: nat, p: Projections)
    requires Converging(s, ph, own, c, a, r0, p) && (ph.Following? || ph.h == a) && s.queue != []
    requires loop.tip == Some(Tip(ph.h + 1, c[ph.h + 1].hash)) && loop.rewoundFrom == None && loop.rewinds == s.loop.rewinds
    requires Replays(loop.db, c[..ph.h + 2], p) && Top(loop.db) == ph.h + 1
    ensures Converging(s.(loop := loop, queue := s.queue[1..]), Following(ph.h + 1), own, c, a, r0, p)
    ensures Less(s.(loop := loop, queue := s.queue[1..]), Following(ph.h + 1), s, ph, c, a)
  {
    hide Replays, Top;
    QueueHead(s, ph, own, c, a, r0, p);
  }

  lemma FollowOne(s: Sys, ph: Phase, finalized: Option<int>, own: seq<Block>, c: seq<Block>, a: int, depth: nat, r0: nat,
                  p: Projections)
    requires Forked(own, c, a, depth) && Converging(s, ph, own, c, a, r0, p) && (ph.Following? || ph.h == a)
    requires s.queue != []
    ensures Next(s, Take(finalized), depth, p).Ok?
    ensures Converging(Next(s, Take(finalized), depth, p).value, Following(ph.h + 1), own, c, a, r0, p)
    ensures Less(Next(s, Take(finalized), depth, p).value, Following(ph.h + 1), s, ph, c, a)
  {
    hide InsertBlock, Replays, HashesMatch, Top, Step, Forked, Converging, Less, ActionOf;
    QueueHead(s, ph, own, c, a, r0, p);
    NextCommits(s, ph, own, c, a, depth, r0, p);
    ExtendStep(s.loop, s.queue[0], finalized, depth, p);
    FollowState(s, ph, Step(s.loop, Arrival(s.queue[0], finalized), depth, p).value, own, c, a, r0, p);
  }

  /** The served chain's next block commits, and its tip is the one it names. */
  lemma NextCommits(s: Sys, ph: Phase, own: seq<Block>, c: seq<Block>, a: int, depth: nat, r0: nat, p: Projections)
    requires Forked(own, c, a, depth) && Converging(s, ph, own, c, a, r0, p) && (ph.Following? || ph.h == a)
    requires ph.h + 1 < |c|
    ensures InsertBlock(s.loop.db, c[ph.h + 1], p).Ok?
    ensures var d := InsertBlock(s.loop.db, c[ph.h + 1], p).value; Replays(d, c[..ph.h + 2], p) && Top(d) == ph.h + 1
    ensures c[ph.h + 1].height == ph.h + 1
    ensures s.loop.tip.Some? ==>
      s.loop.tip.value.height == ph.h && HashesMatch(c[ph.h + 1].parentHash, s.loop.tip.value.hash)
  {
    hide InsertBlock, Replays, Good, HashesMatch, Served, Top;
    SharedPrefix(s, ph, own, c, a, depth, r0, p);
    FollowDatabase(s.loop.db, c, ph.h, p);
  }

  /** At the ancestor or past it, what is stored is the served chain's beginning, and its next block extends it. */
  lemma SharedPrefix(s: Sys, ph: Phase, own: seq<Block>, c: seq<Block>, a: int, depth: nat, r0: nat, p: Projections)
    requires Forked(own, c, a, depth) && Converging(s, ph, own, c, a, r0, p) && (ph.Following? || ph.h == a)
    requires ph.h + 1 < |c|
    ensures Replays(s.loop.db, c[..ph.h + 1], p) && c[ph.h + 1].height == ph.h + 1
    ensures ph.h >= 0 ==> s.loop.tip == Some(Tip(ph.h, c[ph.h].hash)) && HashesMatch(c[ph.h + 1].parentHash, c[ph.h].hash)
  {
    hide Replays, Good, HashesMatch, Top;
    if ph.Peeling? {
      assert own[..ph.h + 1] == c[..ph.h + 1];
      if ph.h >= 0 { assert own[..ph.h + 1][ph.h] == c[..ph.h + 1][ph.h]; }
    }
  }

  lemma FollowDatabase(d: Database, c: seq<Block>, h: int, p: Projections)
    requires Served(c) && -1 <= h < |c| - 1 && Replays(d, c[..h + 1], p) && Top(d) == h
    ensures InsertBlock(d, c[h + 1], p).Ok?
    ensures Replays(InsertBlock(d, c[h + 1], p).value, c[..h + 2], p) && Top(InsertBlock(d, c[h + 1], p).value) == h + 1
  {
    hide InsertIndex, KeepIndex, Below, Valid;
    var live, b := c[..h + 1], c[h + 1];
    assert c[..h + 2] == live + [b];
    ServedCommits(c[..h + 2], p);
    assert (live + [b])[..h + 1] == live;
    assert [b][..0] == [];
    assert InsertAll(d, [], p) == Ok(d);
    assert InsertAll(d, [b], p) == InsertBlock(d, b, p);
    InsertReplays(d, live, [b], p);
    InsertGood(d, b, p);
  }

  /** Each move keeps converging, and every move but a failed fetch strictly shrinks what remains. */
  lemma ConvergeStep(s: Sys, ph: Phase, m: Move, own: seq<Block>, c: seq<Block>, a: int, depth: nat, r0: nat, p: Projections)
    returns (ph': Phase)
    requires Forked(own, c, a, depth) && Converging(s, ph, own, c, a, r0, p)
    requires Enabled(s, m) && FromNode(s, m, c, a) && Calm(s, m, depth)
    ensures Next(s, m, depth, p).Ok? && Converging(Next(s, m, depth, p).value, ph', own, c, a, r0, p)
    ensures m.PageFailed? || Less(Next(s, m, depth, p).value, ph', s, ph, c, a)
  {
    hide Next, Converging, Less, Forked, Calm;
    if !m.Take? {
      ph' := ph;
      FetchStep(s, ph, m, own, c, a, depth, r0, p);
    } else if ph.Peeling? && ph.h > a {
      ph' := Peeling(ph.h - 1);
      PeelOne(s, ph, m.finalized, own, c, a, depth, r0, p);
    } else {
      ph' := Following(ph.h + 1);
      AboveAncestor(s, ph, own, c, a, r0, p);
      FollowOne(s, ph, m.finalized, own, c, a, depth, r0, p);
    }
  }

  lemma AboveAncestor(s: Sys, ph: Phase, own: seq<Block>, c: seq<Block>, a: int, r0: nat, p: Projections)
    requires Converging(s, ph, own, c, a, r0, p)
    ensures a <= ph.h
  {}

  /** A page adds the served blocks it brings to the queue. */
  lemma PageStep(s: Sys, ph: Phase, blocks: seq<Block>, own: seq<Block>, c: seq<Block>, a: int, r0: nat, p: Projections)
    requires Converging(s, ph, own, c, a, r0, p) && s.fetching && blocks != [] && s.read == |s.loop.rewinds|
    requires s.next + |blocks| <= |c| && blocks == c[s.next..s.next + |blocks|]
    ensures var t := s.(queue := s.queue + blocks, next := s.next + |blocks|, fetching := false);
      Converging(t, ph, own, c, a, r0, p) && Less(t, ph, s, ph, c, a)
  {
    hide Replays, Top;
    assert c[ph.h + 1..s.next] + c[s.next..s.next + |blocks|] == c[ph.h + 1..s.next + |blocks|];
  }

  /** Reading the rewinds puts the source right above the tip. */
  lemma DrainStep(s: Sys, ph: Phase, own: seq<Block>, c: seq<Block>, a: int, r0: nat, p: Projections)
    requires Converging(s, ph, own, c, a, r0, p) && !s.fetching
    ensures var next := if s.read < |s.loop.rewinds| then s.loop.rewinds[|s.loop.rewinds| - 1] else s.next;
      var t := s.(next := next, read := |s.loop.rewinds|, fetching := true);
      Converging(t, ph, own, c, a, r0, p) && Less(t, ph, s, ph, c, a)
  {
    hide Replays, Top;
    if s.read < |s.loop.rewinds| { assert c[ph.h + 1..ph.h + 1] == []; }
  }

  lemma FailStep(s: Sys, ph: Phase, own: seq<Block>, c: seq<Block>, a: int, r0: nat, p: Projections)
    requires Converging(s, ph, own, c, a, r0, p) && s.fetching
    ensures Converging(s.(fetching := false), ph, own, c, a, r0, p)
  {
    hide Replays, Top;
  }

  lemma FetchStep(s: Sys, ph: Phase, m: Move, own: seq<Block>, c: seq<Block>, a: int, depth: nat, r0: nat, p: Projections)
    requires Converging(s, ph, own, c, a, r0, p) && !m.Take?
    requires Enabled(s, m) && FromNode(s, m, c, a) && Calm(s, m, depth)
    ensures Next(s, m, depth, p).Ok? && Converging(Next(s, m, depth, p).value, ph, own, c, a, r0, p)
    ensures m.PageFailed? || Less(Next(s, m, depth, p).value, ph, s, ph, c, a)
  {
    hide Converging, Less, Step, Source.RunOn;
    match m {
      case Page(blocks) => PageStep(s, ph, blocks, own, c, a, r0, p);
      case Drain => DrainStep(s, ph, own, c, a, r0, p);
      case PageFailed => FailStep(s, ph, own, c, a, r0, p);
    }
  }

  ghost predicate ConvergingRun(s: Sys, moves: seq<Move>, c: seq<Block>, a: int, depth: nat, p: Projections) {
    moves == [] ||
    (ConvergingRun(s, moves[..|moves| - 1], c, a, depth, p)
     && (Exec(s, moves[..|moves| - 1], depth, p).Ok? ==>
           var s', m := Exec(s, moves[..|moves| - 1], depth, p).value, moves[|moves| - 1];
           Enabled(s', m) && FromNode(s', m, c, a) && Calm(s', m, depth)))
  }

  /** The pair at the start: `own` stored, no episode open, the source about to ask for the next height. */
  ghost predicate AtFork(s: Sys, own: seq<Block>, p: Projections) {
    && own != [] && s.loop.tip == Some(Tip(|own| - 1, own[|own| - 1].hash)) && s.loop.rewoundFrom == None
    && Replays(s.loop.db, own, p) && Top(s.loop.db) == |own| - 1
    && s.queue == [] && !s.fetching && s.read == |s.loop.rewinds| && s.next == |own|
  }

  ghost predicate Quiet(s: Sys, c: seq<Block>) {
    s.queue == [] && s.read == |s.loop.rewinds| && s.next == |c|
  }

  lemma {:induction false} RunConverges(s: Sys, moves: seq<Move>, own: seq<Block>, c: seq<Block>, a: int, depth: nat, p: Projections)
    returns (ph: Phase)
    requires Forked(own, c, a, depth) && AtFork(s, own, p) && ConvergingRun(s, moves, c, a, depth, p)
    ensures Exec(s, moves, depth, p).Ok?
    ensures Converging(Exec(s, moves, depth, p).value, ph, own, c, a, |s.loop.rewinds|, p)
  {
    hide Next, Replays, Calm, Forked, FromNode;
    if moves == [] {
      ph := Peeling(|own| - 1);
      ForkedLengths(own, c, a, depth);
      assert own[..|own|] == own && c[|own|..|own|] == [];
    } else {
      var front := moves[..|moves| - 1];
      var ph0 := RunConverges(s, front, own, c, a, depth, p);
      ph := ConvergeStep(Exec(s, front, depth, p).value, ph0, moves[|moves| - 1], own, c, a, depth, |s.loop.rewinds|, p);
    }
  }

  lemma ForkedLengths(own: seq<Block>, c: seq<Block>, a: int, depth: nat)
    requires Forked(own, c, a, depth)
    ensures -1 <= a < |own| < |c| && |own| - 1 - a <= depth
  {}

  lemma QuietIsServed(s: Sys, ph: Phase, own: seq<Block>, c: seq<Block>, a: int, depth: nat, r0: nat, p: Projections)
    requires Forked(own, c, a, depth) && Converging(s, ph, own, c, a, r0, p)
    ensures |s.loop.rewinds| - r0 <= |own| - 1 - a
    ensures Quiet(s, c) ==>
      && InsertAll(EMPTY, c, p).Ok? && s.loop.db.index == InsertAll(EMPTY, c, p).value.index
      && s.loop.db.cursor == Some(|c| - 1) && s.loop.tip == Some(Tip(|c| - 1, c[|c| - 1].hash))
      && |s.loop.rewinds| - r0 == |own| - 1 - a
  {
    hide InsertAll, Good, Forked;
    ForkedLengths(own, c, a, depth);
    if Quiet(s, c) {
      QuietFollows(s, ph, own, c, a, depth, r0, p);
      assert c[..|c|] == c;
    }
  }

  lemma QuietFollows(s: Sys, ph: Phase, own: seq<Block>, c: seq<Block>, a: int, depth: nat, r0: nat, p: Projections)
    requires Forked(own, c, a, depth) && Converging(s, ph, own, c, a, r0, p) && Quiet(s, c)
    ensures ph == Following(|c| - 1)
  {
    hide Replays, Top, Served;
  }

  /**
   * Convergence. A node serves a fixed chain longer than ours that parts from it after height
   * `a`, no deeper than the finality depth and no lower than the finalized height; nothing is
   * queued behind a forking block, and a page being fetched behind it brings nothing. However the
   * two interleave: no insert ever fails, every move but a failed fetch brings the end nearer
   * (ConvergeStep), and when nothing is left in flight the loop has rolled back exactly t - a
   * times and stores exactly the served chain.
   */
  lemma Converges(s: Sys, moves: seq<Move>, own: seq<Block>, c: seq<Block>, a: int, depth: nat, p: Projections)
    requires Forked(own, c, a, depth) && AtFork(s, own, p) && ConvergingRun(s, moves, c, a, depth, p)
    ensures Exec(s, moves, depth, p).Ok?
    ensures var s' := Exec(s, moves, depth, p).value;
      |s'.loop.rewinds| - |s.loop.rewinds| <= |own| - 1 - a
      && (Quiet(s', c) ==>
            && InsertAll(EMPTY, c, p).Ok? && s'.loop.db.index == InsertAll(EMPTY, c, p).value.index
            && s'.loop.db.cursor == Some(|c| - 1) && s'.loop.tip == Some(Tip(|c| - 1, c[|c| - 1].hash))
            && |s'.loop.rewinds| - |s.loop.rewinds| == |own| - 1 - a)
  {
    hide InsertBlock, Next, ConvergingRun, Converging, Forked, AtFork;
    var ph := RunConverges(s, moves, own, c, a, depth, p);
    QuietIsServed(Exec(s, moves, depth, p).value, ph, own, c, a, depth, |s.loop.rewinds|, p);
  }

  lemma ServedHeights(own: seq<Block>, c: seq<Block>, a: int, depth: nat)
    requires Forked(own, c, a, depth)
    ensures forall i :: 0 <= i < |c| ==> c[i].height == i
  {}

  /** The one block queued can be taken: it forks off our own chain or extends the served one. */
  lemma TakeIsCalm(s: Sys, ph: Phase, own: seq<Block>, c: seq<Block>, a: int, depth: nat, r0: nat, p: Projections)
    requires Forked(own, c, a, depth) && Converging(s, ph, own, c, a, r0, p) && |s.queue| == 1 && !s.fetching
    ensures Calm(s, Take(None), depth)
  {
    hide Replays, Good, HashesMatch, Forked, Top;
    QueueHead(s, ph, own, c, a, r0, p);
    if ph.Peeling? && ph.h > a {
      ForkedLengths(own, c, a, depth);
      Disagrees(own, c, a, depth, ph.h);
      assert ActionOf(s.loop, Arrival(s.queue[0], None), depth) == Fork(ph.h - 1);
    } else {
      SharedPrefix(s, ph, own, c, a, depth, r0, p);
      assert ActionOf(s.loop, Arrival(s.queue[0], None), depth) == Extend;
    }
  }

  /** The node can always be asked for the next block. */
  lemma OneBlockPage(s: Sys, own: seq<Block>, c: seq<Block>, a: int, depth: nat)
    requires Forked(own, c, a, depth) && s.next < |c| && s.fetching
    ensures Enabled(s, Page([c[s.next]])) && FromNode(s, Page([c[s.next]]), c, a)
  {
    ServedHeights(own, c, a, depth);
    assert Source.RunOn([c[s.next]][1..], s.next + 1) == [];
    assert c[s.next..s.next + 1] == [c[s.next]];
  }

  /** At most one block is on its way, and none while a rewind waits. */
  predicate OneInFlight(s: Sys) {
    && |s.queue| <= 1 && (s.fetching ==> s.queue == [])
    && (s.read < |s.loop.rewinds| ==> !s.fetching)
  }

  /** Such a schedule exists: fetch one block at a time, and drain rewinds in between. */
  lemma ScheduleExists(s: Sys, ph: Phase, own: seq<Block>, c: seq<Block>, a: int, depth: nat, r0: nat, p: Projections)
    returns (m: Move)
    requires Forked(own, c, a, depth) && Converging(s, ph, own, c, a, r0, p) && !Quiet(s, c)
    requires OneInFlight(s)
    ensures Enabled(s, m) && FromNode(s, m, c, a) && Calm(s, m, depth) && !m.PageFailed?
    ensures Next(s, m, depth, p).Ok? ==> OneInFlight(Next(s, m, depth, p).value)
  {
    hide Replays, Step, Forked, Top, ActionOf, Source.RunOn;
    if s.queue != [] {
      m := Take(None);
      TakeIsCalm(s, ph, own, c, a, depth, r0, p);
    } else if !s.fetching {
      m := Drain;
    } else {
      m := Page([c[s.next]]);
      OneBlockPage(s, own, c, a, depth);
    }
  }

  lemma {:induction false} PrependMove(s: Sys, m: Move, rest: seq<Move>, c: seq<Block>, a: int, depth: nat, p: Projections)
    requires Enabled(s, m) && FromNode(s, m, c, a) && Calm(s, m, depth) && Next(s, m, depth, p).Ok?
    requires ConvergingRun(Next(s, m, depth, p).value, rest, c, a, depth, p)
    ensures ConvergingRun(s, [m] + rest, c, a, depth, p)
    ensures Exec(s, [m] + rest, depth, p) == Exec(Next(s, m, depth, p).value, rest, depth, p)
  {
    hide Next, Enabled, FromNode, Calm;
    var moves := [m] + rest;
    if rest == [] {
      assert moves == [m] && moves[..0] == [];
      assert Exec(s, [], depth, p) == Ok(s);
    } else {
      assert moves[..|moves| - 1] == [m] + rest[..|rest| - 1];
      PrependMove(s, m, rest[..|rest| - 1], c, a, depth, p);
    }
  }

  /** From any converging state with at most one block in flight a calm run reaches quiet. */
  lemma ReachesQuiet(s: Sys, ph: Phase, own: seq<Block>, c: seq<Block>, a: int, depth: nat, r0: nat, p: Projections)
    returns (moves: seq<Move>)
    requires Forked(own, c, a, depth) && Converging(s, ph, own, c, a, r0, p)
    requires OneInFlight(s)
    ensures ConvergingRun(s, moves, c, a, depth, p)
    ensures Exec(s, moves, depth, p).Ok? && Quiet(Exec(s, moves, depth, p).value, c)
    decreases Rollbacks(s, ph, a), |c| - ph.h, ToFetch(s, c)
  {
    hide Next, Forked, FromNode, Calm, Enabled, Replays, Good;
    if Quiet(s, c) {
      moves := [];
    } else {
      var m := ScheduleExists(s, ph, own, c, a, depth, r0, p);
      var ph' := ConvergeStep(s, ph, m, own, c, a, depth, r0, p);
      var rest := ReachesQuiet(Next(s, m, depth, p).value, ph', own, c, a, depth, r0, p);
      PrependMove(s, m, rest, c, a, depth, p);
      moves := [m] + rest;
    }
  }

  /** The fork is resolved by some calm run: fetching one block at a time, the loop ends with the served chain. */
  lemma ForkResolves(s: Sys, own: seq<Block>, c: seq<Block>, a: int, depth: nat, p: Projections)
    returns (moves: seq<Move>)
    requires Forked(own, c, a, depth) && AtFork(s, own, p)
    ensures ConvergingRun(s, moves, c, a, depth, p) && Exec(s, moves, depth, p).Ok?
    ensures var s' := Exec(s, moves, depth, p).value;
      && InsertAll(EMPTY, c, p).Ok? && s'.loop.db.index == InsertAll(EMPTY, c, p).value.index
      && |s'.loop.rewinds| - |s.loop.rewinds| == |own| - 1 - a
  {
    hide Next, Forked, FromNode, Calm, Replays, Good, ConvergingRun;
    var ph := RunConverges(s, [], own, c, a, depth, p) by { EmptyRun(s, c, a, depth, p); }
    assert Exec(s, [], depth, p) == Ok(s);
    moves := ReachesQuiet(s, ph, own, c, a, depth, |s.loop.rewinds|, p);
    Converges(s, moves, own, c, a, depth, p);
  }

  lemma EmptyRun(s: Sys, c: seq<Block>, a: int, depth: nat, p: Projections)
    ensures ConvergingRun(s, [], c, a, depth, p)
  {}

  /** Any chain a node can serve can be the one that is stored when the fork begins. */
  lemma StoredState(own: seq<Block>, p: Projections) returns (s: Sys)
    requires Served(own) && own != []
    ensures AtFork(s, own, p)
  {
    hide InsertBlock, Served;
    ServedCommits(own, p);
    ServedAscends(own);
    var d := InsertAll(EMPTY, own, p).value;
    EmptyReplays(p);
    assert [] + own == own;
    InsertReplays(EMPTY, [], own, p);
    CursorOf(own, p);
    s := Sys(Loop(Some(Tip(|own| - 1, own[|own| - 1].hash)), None, d, [], []), [], |own|, 0, false);
  }

  lemma ServedAscends(own: seq<Block>)
    requires Served(own)
    ensures Ascending(own) && Above(own, Top(EMPTY)) && (own != [] ==> own[|own| - 1].height == |own| - 1)
  {}

  /** The setting is not empty: after one shared block, ours is `b` and the node's chain went on with `c` and `d`. */
  lemma ForkHappens(p: Projections) returns (s: Sys, own: seq<Block>, c: seq<Block>)
    ensures Forked(own, c, 0, 1) && AtFork(s, own, p)
  {
    hide AtFork;
    own, c := ForkedChains();
    s := StoredState(own, p);
  }

  lemma ForkedChains() returns (own: seq<Block>, c: seq<Block>)
    ensures Forked(own, c, 0, 1) && Served(own) && own != []
  {
    hide HashesMatch;
    var shared := Block(0, "a", "", 0, None, 0, [], None);
    own := [shared, Block(1, "b", "a", 1, None, 0, [], None)];
    c := [shared, Block(1, "c", "a", 1, None, 0, [], None), Block(2, "d", "c", 2, None, 0, [], None)];
    SelfMatches("a");
    SelfMatches("c");
    Different();
    assert own[..1] == [shared] == c[..1];
  }

  lemma Different()
    ensures !HashesMatch("c", "b")
  {
    OnlySpellingIsForgiven("c", "b");
    assert "c"[0] == 'c' && "b"[0] == 'b';
    assert !SameLetter("c"[0], "b"[0]);
  }
}

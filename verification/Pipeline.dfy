/** The source and the indexer together: when the stored chain stays linked, and when it cannot. */
module Pipeline {
  import opened Wire
  import opened Storage
  import Store
  import opened TipRules
  import opened Indexer
  import opened Replay
  import Source

  // ------------------------------------------------------------ linked chains

  /** Every height from `base` to `top` is stored, each block naming the one below as its parent. */
  ghost predicate ChainFrom(blocks: map<int, Header>, base: int, top: int) {
    && (forall h :: h in blocks <==> base <= h <= top)
    && (forall h :: base < h <= top ==> HashesMatch(blocks[h].parentHash, blocks[h - 1].hash))
  }

  /** The stored rows are one linked chain that ends at the tip, and the cursor stands on it. */
  ghost predicate LinkedChain(s: Loop) {
    var blocks := s.db.index.history.blocks;
    && Good(s.db)
    && match s.tip
       case None => blocks == map[]
       case Some(t) =>
         && s.db.cursor == Some(t.height) && Store.HashAt(s.db, t.height) == Some(t.hash)
         && exists base :: base <= t.height && ChainFrom(blocks, base, t.height)
  }

  lemma AcceptLinks(s: Loop, b: Block, p: Projections)
    requires LinkedChain(s) && Accept(s, b, p).Ok?
    requires match s.tip { case None => b.height > Top(s.db)
                           case Some(t) => b.height == t.height + 1 && HashesMatch(b.parentHash, t.hash) }
    ensures LinkedChain(Accept(s, b, p).value)
  {
    hide InsertIndex, Below, Valid;
    InsertGood(s.db, b, p);
    var blocks := Accept(s, b, p).value.db.index.history.blocks;
    if s.tip.None? {
      assert ChainFrom(blocks, b.height, b.height);
    } else {
      var base :| base <= s.tip.value.height && ChainFrom(s.db.index.history.blocks, base, s.tip.value.height);
      assert ChainFrom(blocks, base, b.height);
    }
  }

  lemma UnwindLinks(s: Loop, b: Block)
    requires LinkedChain(s) && s.tip.Some?
    ensures var s' := Unwind(s, b, s.tip.value.height - 1);
      LinkedChain(s') && Top(s'.db) == s.tip.value.height - 1
      && (s'.tip.Some? ==> s'.tip.value.height == s.tip.value.height - 1)
      && (s'.tip.Some? <==> s.tip.value.height - 1 in s.db.index.history.blocks)
  {
    hide KeepIndex, Below, Valid, HashesMatch;
    var t := s.tip.value.height;
    var base :| base <= t && ChainFrom(s.db.index.history.blocks, base, t);
    assert t in s.db.index.history.blocks;
    BlocksAreHeights(s.db);
    RollbackGood(s.db, t - 1);
    KeepBelow(s.db.index, Top(s.db), t - 1);
    var s' := Unwind(s, b, t - 1);
    ShorterChain(s.db.index.history.blocks, s'.db.index.history.blocks, base, t);
  }

  /** A linked chain without its last block: linked still, or empty. */
  lemma ShorterChain(blocks: map<int, Header>, rest: map<int, Header>, base: int, t: int)
    requires base <= t && ChainFrom(blocks, base, t)
    requires rest == map k | k in blocks && k <= t - 1 :: blocks[k]
    ensures if t - 1 >= base then ChainFrom(rest, base, t - 1) else rest == map[]
  {
    hide HashesMatch;
  }

  lemma BlocksAreHeights(d: Database)
    requires Good(d)
    ensures forall h :: h in d.index.history.blocks ==> 0 <= h <= Top(d)
  {}

  /** Every step but a gap keeps the chain linked. */
  lemma StepLinks(s: Loop, a: Arrival, depth: nat, p: Projections)
    requires LinkedChain(s) && Step(s, a, depth, p).Ok? && !ActionOf(s, a, depth).Gap?
    requires s.tip.None? ==> a.block.height > Top(s.db)
    ensures LinkedChain(Step(s, a, depth, p).value)
  {
    hide LinkedChain, Accept, Unwind;
    match ActionOf(s, a, depth)
    case Extend => AcceptLinks(s, a.block, p);
    case Fork(_) => UnwindLinks(s, a.block);
    case _ =>
  }

  // ------------------------------------------------------ source and indexer

  /**
   * `queue` holds what the source has sent and the indexer has not taken; `read` counts the
   * rewinds the source has taken; `fetching` is the time between reading rewinds and sending
   * the page asked for next.
   */
  datatype Sys = Sys(loop: Loop, queue: seq<Block>, next: nat, read: nat, fetching: bool)

  datatype Move = Drain | Page(blocks: seq<Block>) | PageFailed | Take(finalized: Option<int>)

  predicate Enabled(s: Sys, m: Move) {
    match m
    case Drain => !s.fetching
    case Page(blocks) => s.fetching && blocks != [] && Source.RunOn(blocks, s.next) == blocks
    case PageFailed => s.fetching
    case Take(_) => s.queue != []
  }

  function Next(s: Sys, m: Move, depth: nat, p: Projections): Result<Sys>
    requires Enabled(s, m)
  {
    match m
    case Drain =>
      Ok(s.(next := if s.read < |s.loop.rewinds| then s.loop.rewinds[|s.loop.rewinds| - 1] else s.next,
            read := |s.loop.rewinds|, fetching := true))
    case Page(blocks) => Ok(s.(queue := s.queue + blocks, next := s.next + |blocks|, fetching := false))
    case PageFailed => Ok(s.(fetching := false))
    case Take(finalized) =>
      match Step(s.loop, Arrival(s.queue[0], finalized), depth, p)
      case Err(e) => Err(e)
      case Ok(loop) => Ok(s.(loop := loop, queue := s.queue[1..]))
  }

  /**
   * No fork is refused, when one is obeyed nothing is queued behind it, and a page that was being
   * fetched meanwhile brings nothing.
   */
  predicate Calm(s: Sys, m: Move, depth: nat)
    requires Enabled(s, m)
  {
    match m
    case Take(finalized) => (
      match ActionOf(s.loop, Arrival(s.queue[0], finalized), depth)
      case Fork(_) => |s.queue| == 1
      case ForkBelowFinalized(_, _) => false
      case ForkTooDeep(_, _) => false
      case _ => true)
    case Page(_) => s.read == |s.loop.rewinds|
    case _ => true
  }

  /**
   * A rewind waits for the source: then nothing is queued, and the source is past the height it
   * will be told. Otherwise the queue runs on from the tip.
   */
  ghost predicate InStep(s: Sys) {
    var start := s.next - |s.queue|;
    && s.read <= |s.loop.rewinds|
    && if s.read < |s.loop.rewinds| then
         && s.queue == [] && s.next == s.loop.rewinds[|s.loop.rewinds| - 1] + 2
         && RunsOn(s.loop, s.loop.rewinds[|s.loop.rewinds| - 1])
       else Source.Consecutive(s.queue, start) && RunsOn(s.loop, start)
  }

  /** `start` is the height the indexer needs next. */
  ghost predicate RunsOn(loop: Loop, start: int) {
    match loop.tip
    case None => start > Top(loop.db)
    case Some(t) => start == t.height + 1
  }

  lemma MoveKeeps(s: Sys, m: Move, depth: nat, p: Projections)
    requires LinkedChain(s.loop) && InStep(s) && Enabled(s, m) && Calm(s, m, depth) && Next(s, m, depth, p).Ok?
    ensures m.Take? ==> !ActionOf(s.loop, Arrival(s.queue[0], m.finalized), depth).Gap?
    ensures LinkedChain(Next(s, m, depth, p).value.loop) && InStep(Next(s, m, depth, p).value)
  {
    hide InsertBlock, Rollback, Good, HashesMatch;
    match m {
      case Drain =>
      case PageFailed =>
      case Page(blocks) => Source.RunOnIsConsecutive(blocks, s.next);
      case Take(finalized) =>
        var a := Arrival(s.queue[0], finalized);
        StepLinks(s.loop, a, depth, p);
        assert Source.Consecutive(s.queue[1..], s.next - |s.queue| + 1);
        if ActionOf(s.loop, a, depth).Fork? {
          UnwindLinks(s.loop, a.block);
          TipIsStored(s.loop);
        }
    }
  }

  lemma TipIsStored(s: Loop)
    requires LinkedChain(s) && s.tip.Some?
    ensures s.tip.value.height >= 0
  {
    BlocksAreHeights(s.db);
    assert s.tip.value.height in s.db.index.history.blocks;
  }

  function Exec(s: Sys, moves: seq<Move>, depth: nat, p: Projections): Result<Sys> {
    if moves == [] then Ok(s)
    else match Exec(s, moves[..|moves| - 1], depth, p)
      case Err(e) => Err(e)
      case Ok(s') =>
        if Enabled(s', moves[|moves| - 1]) then Next(s', moves[|moves| - 1], depth, p) else Ok(s')
  }

  /**
   * A failed request costs nothing: wherever the source is fetching, failing and starting again
   * leads where going on would have, but for a rewind that came meanwhile, which it then obeys.
   */
  lemma FailedPageIsRetried(s: Sys, depth: nat, p: Projections)
    requires s.fetching && s.read <= |s.loop.rewinds|
    ensures var t := Exec(s, [PageFailed, Drain], depth, p);
      && (s.read == |s.loop.rewinds| ==> t == Ok(s))
      && (s.read < |s.loop.rewinds| ==>
            t == Ok(s.(next := s.loop.rewinds[|s.loop.rewinds| - 1], read := |s.loop.rewinds|)))
  {
    var moves := [PageFailed, Drain];
    assert moves[..1] == [PageFailed] && [PageFailed][..0] == [];
    assert Exec(s, [], depth, p) == Ok(s);
    assert Exec(s, [PageFailed], depth, p) == Ok(s.(fetching := false));
  }

  ghost predicate CalmRun(s: Sys, moves: seq<Move>, depth: nat, p: Projections) {
    moves == [] ||
    (CalmRun(s, moves[..|moves| - 1], depth, p)
     && (Exec(s, moves[..|moves| - 1], depth, p).Ok? ==>
           var s' := Exec(s, moves[..|moves| - 1], depth, p).value;
           Enabled(s', moves[|moves| - 1]) ==> Calm(s', moves[|moves| - 1], depth)))
  }

  ghost predicate GapRun(s: Sys, moves: seq<Move>, depth: nat, p: Projections) {
    moves != [] &&
    (GapRun(s, moves[..|moves| - 1], depth, p)
     || (Exec(s, moves[..|moves| - 1], depth, p).Ok? &&
         var s', m := Exec(s, moves[..|moves| - 1], depth, p).value, moves[|moves| - 1];
         Enabled(s', m) && m.Take? && ActionOf(s'.loop, Arrival(s'.queue[0], m.finalized), depth).Gap?))
  }

  /** The pair as a process starts it: the tip is the cursor's block, the source starts after the cursor. */
  ghost predicate Started(s: Sys) {
    && LinkedChain(s.loop) && s.queue == [] && s.read == |s.loop.rewinds| && !s.fetching
    && s.next == Top(s.loop.db) + 1
  }

  /**
   * Linked-chain invariant. Started on an empty index or on a linked chain, whatever the node
   * serves and whatever finality it reports: as long as flushes commit, no fork is refused, nothing
   * is queued behind an obeyed fork and a page being fetched behind it brings nothing, no block
   * ever arrives as a gap and the stored rows stay one parent-linked chain ending at the tip.
   */
  lemma {:induction false} StaysLinked(s: Sys, moves: seq<Move>, depth: nat, p: Projections)
    requires Started(s) && CalmRun(s, moves, depth, p) && Exec(s, moves, depth, p).Ok?
    ensures LinkedChain(Exec(s, moves, depth, p).value.loop) && InStep(Exec(s, moves, depth, p).value)
    ensures !GapRun(s, moves, depth, p)
  {
    hide LinkedChain, InStep, Next, Calm, ActionOf;
    if moves == [] {
      StartsInStep(s);
    } else {
      var front, m := moves[..|moves| - 1], moves[|moves| - 1];
      StaysLinked(s, front, depth, p);
      var s' := Exec(s, front, depth, p).value;
      if Enabled(s', m) {
        MoveKeeps(s', m, depth, p);
      }
    }
  }

  lemma StartsInStep(s: Sys)
    requires Started(s)
    ensures LinkedChain(s.loop) && InStep(s)
  {}

  /** A hole in the stored heights is not a linked chain. */
  lemma HoleBreaksChain(s: Loop, g: int, h: int)
    requires s.tip.Some? && g < h < s.tip.value.height
    requires g in s.db.index.history.blocks && h !in s.db.index.history.blocks
    ensures !LinkedChain(s)
  {
    hide Good, HashesMatch;
  }

  /** A gap indexed across a missing height leaves that hole. */
  lemma GapBreaksChain(s: Loop, a: Arrival, depth: nat, p: Projections, g: int, h: int)
    requires Good(s.db) && ActionOf(s, a, depth).Gap? && Step(s, a, depth, p).Ok?
    requires g < h < a.block.height && g in s.db.index.history.blocks && h !in s.db.index.history.blocks
    ensures !LinkedChain(Step(s, a, depth, p).value)
  {
    hide InsertIndex, Below, Valid, HashesMatch, LinkedChain;
    InsertGood(s.db, a.block, p);
    HoleBreaksChain(Step(s, a, depth, p).value, g, h);
  }

  /**
   * Why "nothing queued" is needed: when a block that forks off the tip has another one queued
   * right behind it, obeying the fork and then taking the next block always ends with that next
   * block indexed across a hole - a gap - so the stored rows are no longer a linked chain. This
   * holds for every such state with a stored parent of the tip, not for some.
   */
  lemma QueuedBehindForkBreaksChain(s: Sys, finalized: Option<int>, finalized': Option<int>, depth: nat, p: Projections)
    requires LinkedChain(s.loop) && InStep(s) && |s.queue| >= 2
    requires ActionOf(s.loop, Arrival(s.queue[0], finalized), depth).Fork?
    requires s.loop.tip.value.height - 1 in s.loop.db.index.history.blocks
    ensures var s1 := Next(s, Take(finalized), depth, p).value;
      && ActionOf(s1.loop, Arrival(s1.queue[0], finalized'), depth).Gap?
      && (Next(s1, Take(finalized'), depth, p).Ok? ==>
            !LinkedChain(Next(s1, Take(finalized'), depth, p).value.loop))
  {
    hide InsertBlock, KeepIndex, Below, Valid, HashesMatch;
    var t := s.loop.tip.value.height;
    UnwindLinks(s.loop, s.queue[0]);
    var s1 := Next(s, Take(finalized), depth, p).value;
    assert s.queue[1].height == t + 2 && s1.queue[0] == s.queue[1];
    BlocksAreHeights(s1.loop.db);
    hide LinkedChain, InStep;
    if Next(s1, Take(finalized'), depth, p).Ok? {
      GapBreaksChain(s1.loop, Arrival(s1.queue[0], finalized'), depth, p, t - 1, t);
    }
  }

  /**
   * When the tip's parent is not stored - the tip was the whole chain - the queued block is no gap:
   * with nothing left and no tip it is accepted whatever it names as its parent, and the chain
   * starts over above the height the source was asked for, which is left out.
   */
  lemma QueuedBehindForkRestartsChain(s: Sys, finalized: Option<int>, finalized': Option<int>, depth: nat, p: Projections)
    requires LinkedChain(s.loop) && InStep(s) && |s.queue| >= 2
    requires ActionOf(s.loop, Arrival(s.queue[0], finalized), depth).Fork?
    requires s.loop.tip.value.height - 1 !in s.loop.db.index.history.blocks
    ensures var t, s1 := s.loop.tip.value.height, Next(s, Take(finalized), depth, p).value;
      && s1.loop.db.index.history.blocks == map[] && s1.loop.rewinds[|s1.loop.rewinds| - 1] == t
      && ActionOf(s1.loop, Arrival(s1.queue[0], finalized'), depth).Extend?
      && (Next(s1, Take(finalized'), depth, p).Ok? ==>
            var s2 := Next(s1, Take(finalized'), depth, p).value;
            LinkedChain(s2.loop) && t !in s2.loop.db.index.history.blocks && s2.loop.tip.value.height == t + 2)
  {
    hide InsertBlock, KeepIndex, Below, Valid, HashesMatch;
    var t := s.loop.tip.value.height;
    TipIsStored(s.loop);
    UnwindLinks(s.loop, s.queue[0]);
    var s1 := Next(s, Take(finalized), depth, p).value;
    assert s.queue[1].height == t + 2 && s1.queue[0] == s.queue[1];
    hide InStep;
    if Next(s1, Take(finalized'), depth, p).Ok? {
      AcceptLinks(s1.loop, s1.queue[0], p);
      OneStored(s1.loop, s1.queue[0], p);
    }
  }

  lemma OneStored(s: Loop, b: Block, p: Projections)
    requires Good(s.db) && s.db.index.history.blocks == map[] && Accept(s, b, p).Ok?
    ensures forall h :: h in Accept(s, b, p).value.db.index.history.blocks ==> h == b.height
  {
    hide InsertIndex, Below, Valid;
    InsertGood(s.db, b, p);
  }

  /**
   * Why a page fetched behind an obeyed fork must bring nothing: whenever a rewind waits and the
   * page asked for before it arrives with any block, the first of them is a gap and indexing it
   * leaves a hole.
   */
  lemma FetchedBehindForkBreaksChain(s: Sys, blocks: seq<Block>, finalized: Option<int>, depth: nat, p: Projections)
    requires LinkedChain(s.loop) && InStep(s) && s.read < |s.loop.rewinds| && s.loop.tip.Some?
    requires Enabled(s, Page(blocks))
    ensures var s1 := Next(s, Page(blocks), depth, p).value;
      && ActionOf(s1.loop, Arrival(s1.queue[0], finalized), depth).Gap?
      && (Next(s1, Take(finalized), depth, p).Ok? ==> !LinkedChain(Next(s1, Take(finalized), depth, p).value.loop))
  {
    hide InsertBlock, KeepIndex, Below, Valid, HashesMatch;
    var t := s.loop.tip.value.height;
    var s1 := Next(s, Page(blocks), depth, p).value;
    assert s1.queue[0] == blocks[0] && blocks[0].height == t + 3;
    StoredTip(s.loop);
    hide LinkedChain, InStep;
    if Next(s1, Take(finalized), depth, p).Ok? {
      GapBreaksChain(s1.loop, Arrival(s1.queue[0], finalized), depth, p, t, t + 1);
    }
  }

  lemma StoredTip(s: Loop)
    requires LinkedChain(s) && s.tip.Some?
    ensures var blocks, t := s.db.index.history.blocks, s.tip.value.height;
      Good(s.db) && t in blocks && t + 1 !in blocks
  {
    hide HashesMatch, Good;
  }

  ghost predicate TakesNothing(moves: seq<Move>) {
    forall i :: 0 <= i < |moves| ==> !moves[i].Take?
  }

  /** No rewind is on its way, and the next block to arrive is one above the block after the tip. */
  ghost predicate Stranded(s: Sys) {
    && s.loop.tip.Some? && s.read == |s.loop.rewinds|
    && (if s.queue == [] then s.next == s.loop.tip.value.height + 2 else s.queue[0].height == s.loop.tip.value.height + 2)
  }

  lemma {:induction false} StaysStranded(s: Sys, moves: seq<Move>, depth: nat, p: Projections)
    requires Stranded(s) && TakesNothing(moves)
    ensures Exec(s, moves, depth, p).Ok? && Exec(s, moves, depth, p).value.loop == s.loop
    ensures Stranded(Exec(s, moves, depth, p).value)
  {
    if moves != [] {
      StaysStranded(s, moves[..|moves| - 1], depth, p);
      assert !moves[|moves| - 1].Take?;
    }
  }

  /**
   * Why no fork may be refused, whether anything was queued behind it or not: no rewind is asked
   * for, so whatever the source does next - reading rewinds, pages, failed pages, in any number -
   * the next block that arrives is a gap, and indexing it leaves a hole.
   */
  lemma RefusalBreaksChain(s: Sys, finalized: Option<int>, moves: seq<Move>, finalized': Option<int>, depth: nat, p: Projections)
    requires LinkedChain(s.loop) && InStep(s) && s.queue != [] && TakesNothing(moves)
    requires var action := ActionOf(s.loop, Arrival(s.queue[0], finalized), depth);
      action.ForkBelowFinalized? || action.ForkTooDeep?
    ensures var s1 := Exec(Next(s, Take(finalized), depth, p).value, moves, depth, p);
      s1.Ok? && (s1.value.queue != [] ==>
        && ActionOf(s1.value.loop, Arrival(s1.value.queue[0], finalized'), depth).Gap?
        && (Next(s1.value, Take(finalized'), depth, p).Ok? ==>
              !LinkedChain(Next(s1.value, Take(finalized'), depth, p).value.loop)))
  {
    hide InsertBlock, KeepIndex, Below, Valid, HashesMatch, Exec;
    var t := s.loop.tip.value.height;
    var refused := Next(s, Take(finalized), depth, p).value;
    assert Stranded(refused);
    StaysStranded(refused, moves, depth, p);
    var s1 := Exec(refused, moves, depth, p).value;
    StoredTip(s.loop);
    hide LinkedChain, InStep;
    if s1.queue != [] && Next(s1, Take(finalized'), depth, p).Ok? {
      GapBreaksChain(s1.loop, Arrival(s1.queue[0], finalized'), depth, p, t, t + 1);
    }
  }
}

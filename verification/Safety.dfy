/** What no run of the indexing loop can do: touch finalized blocks, or unwind past the finality depth. */
module Safety {
  import opened Wire
  import Tables
  import opened Storage
  import opened Store
  import TipRules
  import opened Indexer

  // ---------------------------------------------------------------- finality

  /** The reported finalized height never decreases and never disappears. */
  ghost predicate Monotone(arrivals: seq<Arrival>) {
    forall i, j :: 0 <= i < j < |arrivals| && arrivals[i].finalized.Some? ==>
      arrivals[j].finalized.Some? && arrivals[i].finalized.value <= arrivals[j].finalized.value
  }

  lemma StepKeepsFinalized(s: Loop, a: Arrival, depth: nat, p: Projections, f: int)
    requires a.finalized.Some? && f <= a.finalized.value
    requires HeaderAt(s.db, f).Some? && Step(s, a, depth, p).Ok?
    ensures HeaderAt(Step(s, a, depth, p).value.db, f) == HeaderAt(s.db, f)
  {
    hide InsertIndex;
    match ActionOf(s, a, depth)
    case Extend => InsertKeepsHeaders(s.db, a.block, p, f);
    case Gap => InsertKeepsHeaders(s.db, a.block, p, f);
    case _ =>
  }

  lemma {:induction false} RunKeepsFinalized(s: Loop, arrivals: seq<Arrival>, depth: nat, p: Projections, f: int)
    requires Certifies(arrivals, f)
    requires HeaderAt(s.db, f).Some? && Steps(s, arrivals, depth, p).Ok?
    ensures HeaderAt(Steps(s, arrivals, depth, p).value.db, f) == HeaderAt(s.db, f)
  {
    hide Step, HeaderAt;
    if arrivals != [] {
      var front := arrivals[..|arrivals| - 1];
      RunKeepsFinalized(s, front, depth, p, f);
      StepKeepsFinalized(Steps(s, front, depth, p).value, arrivals[|arrivals| - 1], depth, p, f);
    }
  }

  /**
   * Finality. Over every run, gaps and refused forks included: once arrival `n` is classified
   * under a finalized height, a block stored at or below that height is never removed or changed.
   */
  lemma FinalizedIsForever(s: Loop, arrivals: seq<Arrival>, n: nat, depth: nat, p: Projections, f: int)
    requires Monotone(arrivals) && n < |arrivals| && Steps(s, arrivals, depth, p).Ok?
    requires arrivals[n].finalized.Some? && f <= arrivals[n].finalized.value
    requires Steps(s, arrivals[..n], depth, p).Ok? && HeaderAt(Steps(s, arrivals[..n], depth, p).value.db, f).Some?
    ensures HeaderAt(Steps(s, arrivals, depth, p).value.db, f) == HeaderAt(Steps(s, arrivals[..n], depth, p).value.db, f)
  {
    hide Steps, HeaderAt, Monotone;
    var rest := arrivals[n..];
    assert arrivals == arrivals[..n] + rest;
    StepsAppend(s, arrivals[..n], rest, depth, p);
    RestIsFinal(arrivals, n, f);
    RunKeepsFinalized(Steps(s, arrivals[..n], depth, p).value, rest, depth, p, f);
  }

  lemma RestIsFinal(arrivals: seq<Arrival>, n: nat, f: int)
    requires Monotone(arrivals) && n < |arrivals| && arrivals[n].finalized.Some? && f <= arrivals[n].finalized.value
    ensures Certifies(arrivals[n..], f)
  {
    forall i | 0 <= i < |arrivals[n..]|
      ensures arrivals[n..][i].finalized.Some? && f <= arrivals[n..][i].finalized.value
    {
      assert arrivals[n..][i] == arrivals[n + i];
    }
  }

  // ----------------------------------------------------------------- episodes

  /** No arrival of the run is accepted: one rollback episode, stale and refused blocks included. */
  ghost predicate NoAccept(s: Loop, arrivals: seq<Arrival>, depth: nat, p: Projections) {
    arrivals == [] ||
    (NoAccept(s, arrivals[..|arrivals| - 1], depth, p)
     && (Steps(s, arrivals[..|arrivals| - 1], depth, p).Ok? ==>
           var action := ActionOf(Steps(s, arrivals[..|arrivals| - 1], depth, p).value, arrivals[|arrivals| - 1], depth);
           !action.Extend? && !action.Gap?))
  }

  lemma KeepKeepState(s: State, H: int, G: int)
    requires G <= H
    ensures KeepState(KeepState(s, H), G) == KeepState(s, G)
  {
    KeepKeepVersioned(s.accounts, H, G);
    KeepKeepVersioned(s.assetBalances, H, G);
    KeepKeepVersioned(s.holderStates, H, G);
    KeepKeepVersioned(s.stakes, H, G);
    KeepKeepVersioned(s.validatorStatus, H, G);
    KeepKeepVersioned(s.validatorSets, H, G);
    KeepKeepVersioned(s.registrations, H, G);
    KeepKeepVersioned(s.evidence, H, G);
    KeepKeepVersioned(s.blsKeys, H, G);
    KeepKeepVersioned(s.operators, H, G);
    KeepKeepVersioned(s.attestors, H, G);
    KeepKeepVersioned(s.dropped, H, G);
  }

  lemma KeepKeepVersioned<K, V>(m: Tables.Versioned<K, V>, H: int, G: int)
    requires G <= H
    ensures Tables.KeepVersioned(Tables.KeepVersioned(m, H), G) == Tables.KeepVersioned(m, G)
  {}

  lemma KeepKeepKeyed<K, V>(m: Tables.Keyed<K, V>, H: int, G: int)
    requires G <= H
    ensures Tables.KeepKeyed(Tables.KeepKeyed(m, H), G) == Tables.KeepKeyed(m, G)
  {}

  lemma KeepKeepHistory(x: History, H: int, G: int)
    requires G <= H
    ensures KeepHistory(KeepHistory(x, H), G) == KeepHistory(x, G)
  {
    KeepKeepKeyed(x.actions, H, G);
    KeepKeepVersioned(x.accountActions, H, G);
    KeepKeepKeyed(x.actionAddresses, H, G);
    KeepKeepKeyed(x.tokenEvents, H, G);
    var y, z := KeepHistory(KeepHistory(x, H), G), KeepHistory(x, G);
    assert y.blocks == z.blocks;
    assert y.assetActions == z.assetActions;
  }

  /** Rolling back twice is rolling back to the lower height. */
  lemma KeepKeep(x: Index, H: int, G: int)
    requires G <= H
    ensures KeepIndex(KeepIndex(x, H), G) == KeepIndex(x, G)
  {
    KeepKeepHistory(x.history, H, G);
    KeepKeepState(x.state, H, G);
  }

  /**
   * How far an episode that began at `s` has gone in `m`: n rollbacks of depth one to n, the tip n
   * lower, the last rewind right above it, and the original rows up to there.
   */
  ghost predicate InEpisode(s: Loop, m: Loop, depth: nat)
    requires s.tip.Some?
  {
    var T, n := s.tip.value.height, |m.rewinds| - |s.rewinds|;
    && 0 <= n <= depth && s.rewinds <= m.rewinds
    && (m.tip.None? || m.tip.value.height == T - n)
    && m.rewoundFrom == (if n == 0 then None else Some(T))
    && (n > 0 ==> m.rewinds[|m.rewinds| - 1] == if T - n + 1 < 0 then 0 else T - n + 1)
    && (m.tip.Some? ==> TipRules.Depth(m.tip.value, m.rewoundFrom) == n + 1)
    && m.db.index == (if n == 0 then s.db.index else KeepIndex(s.db.index, T - n))
    && m.sent == s.sent
  }

  lemma EpisodeStep(s: Loop, m: Loop, a: Arrival, depth: nat, p: Projections)
    requires s.tip.Some? && s.rewoundFrom.None? && InEpisode(s, m, depth)
    requires !ActionOf(m, a, depth).Extend? && !ActionOf(m, a, depth).Gap?
    ensures Step(m, a, depth, p).Ok? && InEpisode(s, Step(m, a, depth, p).value, depth)
  {
    hide InsertBlock, KeepIndex, TipRules.HashesMatch, HashAt;
    var T, n := s.tip.value.height, |m.rewinds| - |s.rewinds|;
    if ActionOf(m, a, depth).Fork? && n > 0 {
      KeepKeep(s.db.index, T - n, T - n - 1);
    }
  }

  /**
   * Bounded unwinding. From a tip at T outside any episode, through any run that accepts nothing:
   * the n-th rollback has depth n and asks the source for T - n + 1, at most `depth` of them
   * happen, and the rows are exactly the original rows up to T - n. So nothing at or below
   * T - depth is ever removed before a block is accepted again.
   */
  lemma {:induction false} EpisodeIsBounded(s: Loop, arrivals: seq<Arrival>, depth: nat, p: Projections)
    requires s.tip.Some? && s.rewoundFrom.None? && NoAccept(s, arrivals, depth, p)
    ensures Steps(s, arrivals, depth, p).Ok? && InEpisode(s, Steps(s, arrivals, depth, p).value, depth)
  {
    hide Step, InEpisode, ActionOf;
    if arrivals == [] {
      EpisodeBegins(s, depth);
    } else {
      var front, a := arrivals[..|arrivals| - 1], arrivals[|arrivals| - 1];
      EpisodeIsBounded(s, front, depth, p);
      EpisodeStep(s, Steps(s, front, depth, p).value, a, depth, p);
    }
  }

  lemma EpisodeBegins(s: Loop, depth: nat)
    requires s.tip.Some? && s.rewoundFrom.None?
    ensures InEpisode(s, s, depth)
  {}
}

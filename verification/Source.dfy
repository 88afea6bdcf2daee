/** The source: it pages the node from a cursor and reads rewinds only between pages. */
module Source {
  import opened Wire

  /** The longest prefix of a page whose heights run on from `next`. */
  function RunOn(page: seq<Block>, next: nat): seq<Block> {
    if page == [] || page[0].height != next then [] else [page[0]] + RunOn(page[1..], next + 1)
  }

  ghost predicate Consecutive(blocks: seq<Block>, start: int) {
    forall i :: 0 <= i < |blocks| ==> blocks[i].height == start + i
  }

  lemma RunOnIsConsecutive(page: seq<Block>, next: nat)
    ensures Consecutive(RunOn(page, next), next) && RunOn(page, next) <= page
    ensures |RunOn(page, next)| < |page| ==> page[|RunOn(page, next)|].height != next + |RunOn(page, next)|
  {
    if page != [] && page[0].height == next {
      RunOnIsConsecutive(page[1..], next + 1);
    }
  }

  const PAGE_SIZE := 100

  /** The effects a page of effects holds for a height: a later entry for the same height wins. */
  function EffectsFor(effects: seq<(nat, BlockEffects)>, height: nat): Option<BlockEffects> {
    if effects == [] then None
    else if effects[|effects| - 1].0 == height then Some(effects[|effects| - 1].1)
    else EffectsFor(effects[..|effects| - 1], height)
  }

  /** The i-th record is the last one listed for the height. */
  ghost predicate LastListed(effects: seq<(nat, BlockEffects)>, height: nat, i: int) {
    0 <= i < |effects| && effects[i].0 == height && forall j :: i < j < |effects| ==> effects[j].0 != height
  }

  lemma {:induction false} EffectsAreLast(effects: seq<(nat, BlockEffects)>, height: nat)
    ensures EffectsFor(effects, height).Some? <==> exists i :: 0 <= i < |effects| && effects[i].0 == height
    ensures forall i :: LastListed(effects, height, i) ==> EffectsFor(effects, height) == Some(effects[i].1)
    ensures EffectsFor(effects, height).Some? ==> exists i :: LastListed(effects, height, i)
  {
    if effects != [] {
      var last := |effects| - 1;
      var front := effects[..last];
      EffectsAreLast(front, height);
      if effects[last].0 == height {
        assert LastListed(effects, height, last);
      } else {
        forall i ensures LastListed(effects, height, i) <==> LastListed(front, height, i) {
          assert 0 <= i < last ==> front[i] == effects[i];
        }
        if i :| 0 <= i < |effects| && effects[i].0 == height { assert front[i].0 == height; }
        if i :| 0 <= i < |front| && front[i].0 == height { assert effects[i].0 == height; }
      }
    }
  }

  function WithEffects(b: Block, effects: seq<(nat, BlockEffects)>): Block {
    match EffectsFor(effects, b.height)
    case None => b
    case Some(e) => b.(effects := Some(e))
  }

  function AllWithEffects(blocks: seq<Block>, effects: seq<(nat, BlockEffects)>): seq<Block> {
    seq(|blocks|, i requires 0 <= i < |blocks| => WithEffects(blocks[i], effects))
  }

  /** Indexes a page of effects by height; a later entry for a height replaces an earlier one. */
  method ByHeight(effects: seq<(nat, BlockEffects)>) returns (attached: map<nat, BlockEffects>)
    ensures forall h: nat :: h in attached <==> EffectsFor(effects, h).Some?
    ensures forall h :: h in attached ==> EffectsFor(effects, h) == Some(attached[h])
    ensures forall h: nat :: h in attached <==> exists i :: 0 <= i < |effects| && effects[i].0 == h
    ensures forall h, i :: h in attached && LastListed(effects, h, i) ==> attached[h] == effects[i].1
  {
    forall h: nat { EffectsAreLast(effects, h); }
    attached := map[];
    for i := 0 to |effects|
      invariant forall h: nat :: h in attached <==> EffectsFor(effects[..i], h).Some?
      invariant forall h :: h in attached ==> EffectsFor(effects[..i], h) == Some(attached[h])
    {
      assert effects[..i + 1][..i] == effects[..i];
      attached := attached[effects[i].0 := effects[i].1];
    }
    assert effects[..|effects|] == effects;
  }

  /** What goes out is the run of blocks, each with the effects listed last for its height, or as it was if none is. */
  lemma SentAre(run: seq<Block>, effects: seq<(nat, BlockEffects)>)
    ensures var sent := AllWithEffects(run, effects);
      |sent| == |run| && forall i :: 0 <= i < |run| ==> (
        && sent[i] == run[i].(effects := sent[i].effects)
        && ((forall j :: 0 <= j < |effects| ==> effects[j].0 != run[i].height) ==> sent[i] == run[i])
        && forall j :: LastListed(effects, run[i].height, j) ==> sent[i].effects == Some(effects[j].1))
  {
    hide EffectsFor;
    forall i | 0 <= i < |run| { EffectsAreLast(effects, run[i].height); }
  }

  lemma NoneSent(run: seq<Block>, effects: seq<(nat, BlockEffects)>)
    ensures AllWithEffects(run[..0], effects) == []
  {}

  lemma OneSent(run: seq<Block>, i: nat, effects: seq<(nat, BlockEffects)>)
    requires i < |run|
    ensures AllWithEffects(run[..i + 1], effects) == AllWithEffects(run[..i], effects) + [WithEffects(run[i], effects)]
  {}

  lemma AttachedIs(b: Block, attached: map<nat, BlockEffects>, effects: seq<(nat, BlockEffects)>)
    requires b.height in attached <==> EffectsFor(effects, b.height).Some?
    requires b.height in attached ==> EffectsFor(effects, b.height) == Some(attached[b.height])
    ensures WithEffects(b, effects) == if b.height in attached then b.(effects := Some(attached[b.height])) else b
  {
    hide EffectsFor;
  }

  class RpcSource {
    var next: nat
    var sent: seq<Block>

    constructor (resumeFrom: Option<nat>)
      ensures next == (if resumeFrom.Some? then resumeFrom.value else 0) && sent == []
    {
      next := if resumeFrom.Some? then resumeFrom.value else 0;
      sent := [];
    }

    /** Takes every waiting rewind; the last one decides where the next page starts. */
    method DrainRewinds(waiting: seq<nat>)
      modifies this`next
      ensures next == if waiting == [] then old(next) else waiting[|waiting| - 1]
    {
      for i := 0 to |waiting|
        invariant next == if i == 0 then old(next) else waiting[i - 1]
      {
        next := waiting[i];
      }
    }

    /** The heights one request covers: at most a page, never past the node's tip. */
    function PageEnd(tip: nat): (to: nat)
      requires next <= tip
      reads this
      ensures next <= to <= tip && to - next < 100
      ensures to < tip ==> to - next == 99
    {
      if tip < next + PAGE_SIZE - 1 then tip else next + PAGE_SIZE - 1
    }

    /**
     * Sends a page block by block, each with its effects. Whatever the node answered, what goes
     * out runs on height by height from the cursor, and the source stops at the first height
     * that does not.
     */
    method SendPage(page: seq<Block>, effects: seq<(nat, BlockEffects)>) returns (ok: bool)
      requires forall i :: 0 <= i < |page| ==> page[i].effects == None
      modifies this
      ensures sent == old(sent) + AllWithEffects(RunOn(page, old(next)), effects)
      ensures next == old(next) + |RunOn(page, old(next))|
      ensures ok <==> page != [] && RunOn(page, old(next)) == page
    {
      if page == [] {
        assert AllWithEffects([], effects) == [];
        return false;
      }
      hide RunOn, EffectsFor, AllWithEffects, WithEffects;
      ghost var run := RunOn(page, next);
      RunOnIsConsecutive(page, next);
      NoneSent(run, effects);
      var attached: map<nat, BlockEffects> := ByHeight(effects);
      for i := 0 to |page|
        invariant i <= |run| && next == old(next) + i
        invariant forall h: nat :: h >= next ==> (h in attached <==> EffectsFor(effects, h).Some?)
        invariant forall h: nat :: h in attached ==> EffectsFor(effects, h) == Some(attached[h])
        invariant sent == old(sent) + AllWithEffects(run[..i], effects)
      {
        var block := page[i];
        if block.height != next {
          assert run[..i] == run;
          return false;
        }
        AttachedIs(block, attached, effects);
        if block.height in attached {
          block := block.(effects := Some(attached[block.height]));
          attached := attached - {block.height};
        }
        OneSent(run, i, effects);
        assert run[i] == page[i];
        sent := sent + [block];
        next := block.height + 1;
      }
      assert run[..|page|] == run == page;
      ok := true;
    }
  }
}

/** Redelivering blocks that are stored changes no row and not the cursor. */
module Redelivery {
  import opened Wire
  import opened Tables
  import opened Storage
  import opened Replay

  ghost predicate HasVersioned<K(!new), V>(m: Versioned<K, V>, h: int, entries: seq<(K, V)>) {
    forall k :: FirstFor(entries, k).Some? ==> (k, h) in m
  }

  ghost predicate HasKeyed<K(!new), V>(m: Keyed<K, V>, entries: seq<(K, V)>) {
    forall k :: FirstFor(entries, k).Some? ==> k in m
  }

  /** Every key the block's history rows need is taken. */
  ghost predicate HoldsHistory(x: History, b: Block, p: Projections) {
    && b.height in x.blocks
    && HasKeyed(x.actions, ActionEntries(b))
    && HasVersioned(x.accountActions, b.height, SenderEntries(b))
    && HasKeyed(x.actionAddresses, AddressEntries(b, |b.actions|, p))
    && (b.actions != [] ==> TokenRows(x.actions, b.height, b.timestamp, p).Keys <= x.tokenEvents.Keys)
  }

  ghost predicate HoldsState(s: State, h: int, e: BlockEffects) {
    && HasVersioned(s.accounts, h, e.accounts)
    && HasVersioned(s.assetBalances, h, e.assetBalances)
    && HasVersioned(s.holderStates, h, e.holderStates)
    && HasVersioned(s.stakes, h, e.stakes)
    && HasVersioned(s.validatorStatus, h, e.validatorStatuses)
    && HasVersioned(s.validatorSets, h, SetEntries(e))
    && HasVersioned(s.registrations, h, Numbered(e.assetRegistrations))
    && HasVersioned(s.evidence, h, Marked(e.evidence))
    && HasVersioned(s.blsKeys, h, e.blsKeys)
    && HasVersioned(s.operators, h, e.operators)
    && HasVersioned(s.attestors, h, AttestorEntries(e))
    && HasVersioned(s.dropped, h, DroppedEntries(e))
  }

  ghost predicate Holds(x: Index, b: Block, p: Projections) {
    HoldsHistory(x.history, b, p) && (b.effects.Some? ==> HoldsState(x.state, b.height, b.effects.value))
  }

  lemma HeldHistoryNoop(x: History, b: Block, p: Projections)
    requires HoldsHistory(x, b, p)
    ensures InsertHistory(x, b, p) == x
  {
    hide ActionEntries, SenderEntries, AddressEntries, TokenRows, AssetRows, Under;
    PutKeyedNoop(x.actions, b.height, ActionEntries(b));
    PutVersionedNoop(x.accountActions, b.height, SenderEntries(b));
    PutKeyedNoop(x.actionAddresses, b.height, AddressEntries(b, |b.actions|, p));
    NoNewAssets(x, p);
    if b.actions != [] {
      UnderNoop(x.tokenEvents, TokenRows(x.actions, b.height, b.timestamp, p));
    }
  }

  lemma NoNewAssets(x: History, p: Projections)
    ensures Under(x.assetActions, AssetRows(x.actions, x.actions, p)) == x.assetActions
  {}

  lemma UnderNoop<K, V>(m: Keyed<K, V>, rows: Keyed<K, V>)
    requires rows.Keys <= m.Keys
    ensures Under(m, rows) == m
  {}

  lemma HeldStateNoop(s: State, h: int, e: BlockEffects)
    requires HoldsState(s, h, e)
    ensures InsertState(s, h, e) == s
  {
    PutVersionedNoop(s.accounts, h, e.accounts);
    PutVersionedNoop(s.assetBalances, h, e.assetBalances);
    PutVersionedNoop(s.holderStates, h, e.holderStates);
    PutVersionedNoop(s.stakes, h, e.stakes);
    PutVersionedNoop(s.validatorStatus, h, e.validatorStatuses);
    PutVersionedNoop(s.validatorSets, h, SetEntries(e));
    PutVersionedNoop(s.registrations, h, Numbered(e.assetRegistrations));
    PutVersionedNoop(s.evidence, h, Marked(e.evidence));
    PutVersionedNoop(s.blsKeys, h, e.blsKeys);
    PutVersionedNoop(s.operators, h, e.operators);
    PutVersionedNoop(s.attestors, h, AttestorEntries(e));
    PutVersionedNoop(s.dropped, h, DroppedEntries(e));
  }

  lemma HeldNoop(x: Index, b: Block, p: Projections)
    requires Holds(x, b, p)
    ensures InsertIndex(x, b, p) == x
  {
    hide InsertHistory, InsertState, HoldsHistory, HoldsState;
    HeldHistoryNoop(x.history, b, p);
    if b.effects.Some? {
      HeldStateNoop(x.state, b.height, b.effects.value);
    }
  }

  lemma InsertHoldsHistory(x: History, b: Block, p: Projections)
    ensures HoldsHistory(InsertHistory(x, b, p), b, p)
  {
    hide ActionEntries, SenderEntries, AddressEntries, TokenRows, AssetRows;
  }

  lemma InsertHoldsState(s: State, h: int, e: BlockEffects)
    ensures HoldsState(InsertState(s, h, e), h, e)
  {}

  lemma InsertHolds(x: Index, b: Block, p: Projections)
    ensures Holds(InsertIndex(x, b, p), b, p)
  {
    hide InsertHistory, InsertState, HoldsHistory, HoldsState, ProjectCreations;
    InsertHoldsHistory(x.history, b, p);
    if b.effects.Some? {
      var e := b.effects.value;
      InsertHoldsState(x.state, b.height, e);
      ProjectKeepsHeld(InsertHistory(x.history, b, p), b, x.state, InsertState(x.state, b.height, e), b.height, p);
    }
  }

  lemma InsertKeepsHeldHistory(x: History, b: Block, c: Block, p: Projections)
    requires HoldsHistory(x, b, p) && b.height < c.height
    ensures HoldsHistory(InsertHistory(x, c, p), b, p)
  {
    var y := InsertHistory(x, c, p);
    assert TokenRows(y.actions, b.height, b.timestamp, p).Keys <= TokenRows(x.actions, b.height, b.timestamp, p).Keys;
  }

  lemma InsertKeepsHeldState(s: State, h: int, e: BlockEffects, h': int, e': BlockEffects)
    requires HoldsState(s, h, e)
    ensures HoldsState(InsertState(s, h', e'), h, e)
  {}

  lemma ProjectKeepsHeld(x: History, b: Block, before: State, after: State, h: int, p: Projections)
    requires HoldsHistory(x, b, p)
    ensures HoldsHistory(ProjectCreations(x, before, after, h, p), b, p)
  {}

  /** A later block takes no key away, and adds no action at an older height. */
  lemma InsertKeepsHeld(x: Index, b: Block, c: Block, p: Projections)
    requires Holds(x, b, p) && b.height < c.height
    ensures Holds(InsertIndex(x, c, p), b, p)
  {
    hide InsertHistory, InsertState, HoldsHistory, HoldsState, ProjectCreations;
    InsertKeepsHeldHistory(x.history, b, c, p);
    if c.effects.Some? {
      var s := InsertState(x.state, c.height, c.effects.value);
      if b.effects.Some? {
        InsertKeepsHeldState(x.state, b.height, b.effects.value, c.height, c.effects.value);
      }
      ProjectKeepsHeld(InsertHistory(x.history, c, p), b, x.state, s, c.height, p);
    }
  }

  lemma {:induction false} ReplayHolds(live: seq<Block>, p: Projections, i: int)
    requires Ascending(live) && InsertAll(EMPTY, live, p).Ok? && 0 <= i < |live|
    ensures Holds(InsertAll(EMPTY, live, p).value.index, live[i], p) && |live[i].actions| <= MAX_ACTIONS
  {
    hide InsertIndex, Holds;
    var front, last := live[..|live| - 1], live[|live| - 1];
    var d := InsertAll(EMPTY, front, p).value;
    if i == |live| - 1 {
      InsertHolds(d.index, last, p);
    } else {
      ReplayHolds(front, p, i);
      InsertKeepsHeld(d.index, live[i], last, p);
    }
  }

  /** Some of the blocks disputes `h`. */
  ghost predicate Disputed(blocks: seq<Block>, h: int) {
    exists i :: 0 <= i < |blocks| && h in Disputes(blocks[i])
  }

  lemma DisputedBoth(front: seq<Block>, b: Block, h: int)
    ensures Disputed(front + [b], h) <==> Disputed(front, h) || h in Disputes(b)
  {
    hide Disputes;
    if i :| 0 <= i < |front| && h in Disputes(front[i]) { assert (front + [b])[i] == front[i]; }
    if h in Disputes(b) { assert (front + [b])[|front|] == b; }
    if i :| 0 <= i < |front + [b]| && h in Disputes((front + [b])[i]) { assert i < |front| ==> front[i] == (front + [b])[i]; }
  }

  /**
   * Redelivery. A transaction of blocks that are all stored - any of them, in any order, any
   * number of times - commits, and leaves the cursor, the webhooks and every row alone, but for
   * the disputed flag: exactly the stored heights those blocks dispute are flagged on top of those
   * that were.
   */
  lemma {:induction false} RedeliveryIsNoop(d: Database, live: seq<Block>, again: seq<Block>, p: Projections)
    requires Replays(d, live, p) && forall b :: b in again ==> b in live
    ensures InsertAll(d, again, p).Ok?
    ensures var d' := InsertAll(d, again, p).value;
      && d'.index == d.index && d'.cursor == d.cursor && d'.hooks == d.hooks
      && forall h :: h in d'.disputed <==> h in d.disputed || (h in d.index.history.blocks && Disputed(again, h))
  {
    hide InsertIndex, Below, Valid, HoldsState, Disputes, Disputed;
    if again == [] {
      NoneDisputed();
    } else {
      var front, b := again[..|again| - 1], again[|again| - 1];
      assert again == front + [b];
      RedeliveryIsNoop(d, live, front, p);
      var d' := InsertAll(d, front, p).value;
      assert b in again;
      var i :| 0 <= i < |live| && live[i] == b;
      ReplayHolds(live, p, i);
      HeldNoop(d'.index, b, p);
      forall h { DisputedBoth(front, b, h); }
    }
  }

  lemma NoneDisputed()
    ensures forall h :: !Disputed([], h)
  {}

  /** So redelivery changes nothing at all if and only if every stored height it disputes is flagged already. */
  lemma RedeliveryChangesNothing(d: Database, live: seq<Block>, again: seq<Block>, p: Projections)
    requires Replays(d, live, p) && forall b :: b in again ==> b in live
    ensures InsertAll(d, again, p) == Ok(d)
      <==> forall h :: h in d.index.history.blocks && Disputed(again, h) ==> h in d.disputed
  {
    hide InsertBlock, Replays, Disputed;
    RedeliveryIsNoop(d, live, again, p);
    var d' := InsertAll(d, again, p).value;
    if forall h :: h in d.index.history.blocks && Disputed(again, h) ==> h in d.disputed {
      forall h ensures h in d'.disputed <==> h in d.disputed {
        assert h in d'.disputed <==> h in d.disputed || (h in d.index.history.blocks && Disputed(again, h));
      }
      assert d'.disputed == d.disputed && d' == d;
    }
  }

  /** It can: genesis disputes height 1 before that is stored, and flags it when it is delivered again. */
  lemma RedeliveryCanFlag(p: Projections) returns (d: Database, live: seq<Block>)
    ensures |live| == 2 && Replays(d, live, p) && InsertAll(d, [live[0]], p) != Ok(d)
  {
    hide InsertIndex, Good, Replays;
    var effects := BlockEffects([], [], [], [], [], None, [], [], [], [], [], [], [], [1]);
    var first, second := Block(0, "a", "", 0, None, 0, [], Some(effects)), Block(1, "bb", "a", 0, None, 0, [], None);
    live := [first, second];
    var e := FirstStored(first, p);
    InsertGood(e, second, p);
    d := InsertBlock(e, second, p).value;
    ExtendReplays(e, [first], second, p);
    assert [first] + [second] == live;
    assert effects.disputedBlocks[0] == 1 && 1 in Disputes(first);
    assert [first][0] == first && Disputed([first], 1);
    RedeliveryChangesNothing(d, live, [first], p);
  }

  lemma FirstStored(b: Block, p: Projections) returns (e: Database)
    requires |b.actions| <= MAX_ACTIONS
    ensures InsertBlock(EMPTY, b, p) == Ok(e) && Replays(e, [b], p) && Top(e) == b.height
    ensures e.index.history.blocks == map[b.height := Header(b.hash, b.parentHash, b.timestamp, b.proposer, b.round)]
    ensures e.disputed == Disputes(b) * {b.height} && e.hooks == map[] && Good(e)
  {
    hide InsertIndex, Below, Valid;
    EmptyReplays(p);
    EmptyGood();
    InsertGood(EMPTY, b, p);
    e := InsertBlock(EMPTY, b, p).value;
    ExtendReplays(EMPTY, [], b, p);
    assert [] + [b] == [b];
  }
}

/** The broadcast row against the stored row, and what the reads of a block see when others come and go. */
module Broadcast {
  import opened Wire
  import opened Tables
  import opened Storage
  import opened Replay
  import opened Order
  import opened Rows
  import opened RangeRead
  import Identities

  // ----------------------------------------------------------- housed actions

  lemma InsertHouses(x: Index, b: Block, p: Projections)
    requires Housed(x.history)
    ensures Housed(InsertIndex(x, b, p).history)
  {
    hide InsertIndex, InsertHistory;
    InsertGrows(x, b, p);
    InsertHistoryGrows(x.history, b, p);
  }

  lemma RollbackHouses(d: Database, H: int)
    requires Housed(d.index.history)
    ensures Housed(Rollback(d, H).index.history)
  {
    hide KeepState;
  }

  lemma {:induction false} ReplayHouses(live: seq<Block>, p: Projections)
    requires InsertAll(EMPTY, live, p).Ok?
    ensures Housed(InsertAll(EMPTY, live, p).value.index.history)
  {
    hide InsertIndex;
    if live != [] {
      ReplayHouses(live[..|live| - 1], p);
      InsertHouses(InsertAll(EMPTY, live[..|live| - 1], p).value.index, live[|live| - 1], p);
    }
  }

  // ------------------------------------------------------ broadcast and stored

  function IdOf(b: Block, i: nat): string
    requires i < |b.actions|
  {
    ActionId(b.height, i, b.actions[i])
  }

  /** The block's identities are its own: none is stored, none is used twice in it. */
  ghost predicate FreshIdentities(x: History, b: Block) {
    && (forall i :: 0 <= i < |b.actions| ==> IdOf(b, i) !in x.actions)
    && (forall i, j :: 0 <= i < j < |b.actions| ==> IdOf(b, i) != IdOf(b, j))
  }

  ghost predicate NoActionAt(m: Keyed<string, ActionRow>, h: int) {
    forall id :: id in m ==> m[id].height != h
  }

  ghost predicate NoRowAt(m: Versioned<string, DroppedEffect>, h: int) {
    forall k :: k in m ==> k.1 != h
  }

  ghost function WireKeys(b: Block): seq<Key> {
    seq(|b.actions|, i requires 0 <= i < |b.actions| => Key(b.height, i, IdOf(b, i)))
  }

  /** After inserting a block with fresh identities, the rows at its height are its actions, in order. */
  lemma FreshKeys(x: History, b: Block, p: Projections)
    requires FreshIdentities(x, b) && NoActionAt(x.actions, b.height)
    ensures Sort(ActionKeys(InsertHistory(x, b, p), b.height, b.height)) == WireKeys(b)
  {
    hide Sort, InsertHistory, ActionKeys, WireKeys, FreshIdentities;
    var keys := ActionKeys(InsertHistory(x, b, p), b.height, b.height);
    forall k ensures k in keys <==> k in Elements(WireKeys(b)) { FreshKey(x, b, p, k); }
    WireSorted(b);
    SortedUnique(Sort(keys), WireKeys(b));
  }

  lemma WireSorted(b: Block)
    ensures Sorted(WireKeys(b))
  {}

  lemma FreshKey(x: History, b: Block, p: Projections, k: Key)
    requires FreshIdentities(x, b) && NoActionAt(x.actions, b.height)
    ensures k in ActionKeys(InsertHistory(x, b, p), b.height, b.height) <==> k in Elements(WireKeys(b))
  {
    hide InsertHistory, FreshIdentities, WireKeys, PutKeyed, ActionEntries;
    InsertHistoryGrows(x, b, p);
    var actions := PutKeyed(x.actions, b.height, ActionEntries(b));
    Identities.NewActionRow(x, b, k.name);
    if k in Elements(WireKeys(b)) {
      var i := WireKeyIs(b, k);
      FreshRow(x, b, i);
      EntryIs(b, i);
    }
    if k in ActionKeys(InsertHistory(x, b, p), b.height, b.height) {
      EntryIs(b, actions[k.name].row.index);
      WireKeyAt(b, k.index);
    }
  }

  lemma WireKeyIs(b: Block, k: Key) returns (i: nat)
    requires k in Elements(WireKeys(b))
    ensures i < |b.actions| && k == Key(b.height, i, IdOf(b, i))
  {
    i :| 0 <= i < |b.actions| && WireKeys(b)[i] == k;
  }

  lemma WireKeyAt(b: Block, i: nat)
    ensures i < |b.actions| ==> Key(b.height, i, IdOf(b, i)) in Elements(WireKeys(b))
  {
    assert i < |b.actions| ==> WireKeys(b)[i] == Key(b.height, i, IdOf(b, i));
  }

  lemma EntryIs(b: Block, i: nat)
    ensures i < |b.actions| ==> |ActionEntries(b)| == |b.actions| && ActionEntries(b)[i].0 == IdOf(b, i) && ActionEntries(b)[i].1.index == i
  {}

  lemma FreshRow(x: History, b: Block, i: nat)
    requires FreshIdentities(x, b) && i < |b.actions|
    ensures var actions := PutKeyed(x.actions, b.height, ActionEntries(b));
      IdOf(b, i) in actions && actions[IdOf(b, i)] == At(b.height, ActionEntries(b)[i].1)
  {
    assert Identities.Names(b, IdOf(b, i));
    Identities.NewActionRow(x, b, IdOf(b, i));
    var j := PutKeyed(x.actions, b.height, ActionEntries(b))[IdOf(b, i)].row.index;
    assert IdOf(b, j) == IdOf(b, i);
  }

  lemma FreshActions(x: History, b: Block, p: Projections)
    requires Housed(x) && FreshIdentities(x, b) && NoActionAt(x.actions, b.height) && b.height !in x.blocks
    requires Housed(InsertHistory(x, b, p))
    ensures Actions(InsertHistory(x, b, p), b.height, b.height) == WireActions(b)
  {
    hide Sort, InsertHistory;
    InsertHistoryGrows(x, b, p);
    FreshKeys(x, b, p);
    var y := InsertHistory(x, b, p);
    var keys := ActionKeys(y, b.height, b.height);
    assert |keys| == |Sort(keys)| == |b.actions|;
    forall i | 0 <= i < |b.actions| ensures Actions(y, b.height, b.height)[i] == WireActions(b)[i] {
      FreshRow(x, b, i);
      assert Sort(keys)[i] == WireKeys(b)[i];
    }
  }

  /** A row's view tells its key: rows of one height with the same name are one row. */
  lemma StoredViews(x: History, h: int, i: int)
    requires Housed(x) && 0 <= i < |Actions(x, h, h)|
    ensures var v := Actions(x, h, h)[i];
      v.id in x.actions && x.actions[v.id].height == h && v.index == x.actions[v.id].row.index
  {
    hide Sort;
    Listed(ActionKeys(x, h, h), i);
  }

  /** If what is stored for the block is what was broadcast, its identities were fresh. */
  lemma StoredMeansFresh(x: History, b: Block, p: Projections)
    requires NoActionAt(x.actions, b.height) && Housed(InsertHistory(x, b, p))
    requires Actions(InsertHistory(x, b, p), b.height, b.height) == WireActions(b)
    ensures FreshIdentities(x, b)
  {
    hide InsertHistory, Actions, ActionKeys;
    InsertHistoryGrows(x, b, p);
    forall i | 0 <= i < |b.actions| ensures IdOf(b, i) !in x.actions {
      StoredViews(InsertHistory(x, b, p), b.height, i);
    }
    forall i, j | 0 <= i < j < |b.actions| ensures IdOf(b, i) != IdOf(b, j) {
      StoredViews(InsertHistory(x, b, p), b.height, i);
      StoredViews(InsertHistory(x, b, p), b.height, j);
    }
  }

  // ------------------------------------------------------------ dropped actions

  ghost predicate DistinctSignatures(b: Block) {
    b.effects.Some? ==> Unique(DroppedEntries(b.effects.value))
  }

  ghost predicate NoRepeats<T(!new)>(s: seq<T>) {
    forall i, j :: 0 <= i < j < |s| ==> s[i] != s[j]
  }

  lemma CountOnce<T(!new)>(s: seq<T>, x: T)
    requires NoRepeats(s)
    ensures multiset(s)[x] == if x in s then 1 else 0
  {
    if s != [] {
      var front, last := s[..|s| - 1], s[|s| - 1];
      assert s == front + [last];
      CountOnce(front, x);
    }
  }

  lemma CountTwice<T(!new)>(s: seq<T>, i: int, j: int)
    requires 0 <= i < j < |s| && s[i] == s[j]
    ensures multiset(s)[s[i]] >= 2
  {
    var rest := s[..i] + s[i + 1..];
    assert s == s[..i] + [s[i]] + s[i + 1..];
    assert rest[j - 1] == s[i];
    assert multiset(s) == multiset(rest) + multiset{s[i]};
  }

  predicate FirstIs(e: BlockEffects, name: string, effect: DroppedEffect) {
    FirstFor(DroppedEntries(e), name) == Some(effect)
  }

  predicate DroppedIs(s: State, h: int, name: string, effect: DroppedEffect) {
    (name, h) in s.dropped && s.dropped[(name, h)] == effect
  }

  /** The dropped rows read back for `h`, each once. */
  lemma StoredDropped(s: State, h: int, v: DroppedView)
    ensures v in Dropped(s, h, h) <==> v.height == h && exists name :: DroppedIs(s, h, name, v.effect)
  {
    hide Sort;
    var keys := DroppedKeys(s, h, h);
    if v in Dropped(s, h, h) {
      var i :| 0 <= i < |keys| && Dropped(s, h, h)[i] == v;
      Listed(keys, i);
      assert DroppedIs(s, h, Sort(keys)[i].name, v.effect);
    }
    if name :| v.height == h && DroppedIs(s, h, name, v.effect) {
      assert Key(h, 0, name) in keys;
      assert Key(h, 0, name) in Elements(Sort(keys));
      var i :| 0 <= i < |keys| && Sort(keys)[i] == Key(h, 0, name);
      assert Dropped(s, h, h)[i] == v;
    }
  }

  ghost predicate OwnSignatures(s: State) {
    forall k :: k in s.dropped ==> s.dropped[k].signature == k.0
  }

  lemma DroppedOnce(s: State, h: int)
    requires OwnSignatures(s)
    ensures forall i, j :: 0 <= i < j < |Dropped(s, h, h)| ==>
      Dropped(s, h, h)[i].effect.signature != Dropped(s, h, h)[j].effect.signature
  {
    hide Sort, Less;
    var keys := DroppedKeys(s, h, h);
    forall i, j | 0 <= i < j < |keys|
      ensures Dropped(s, h, h)[i].effect.signature != Dropped(s, h, h)[j].effect.signature
    {
      Listed(keys, i);
      Listed(keys, j);
      Total(Sort(keys)[i], Sort(keys)[j]);
    }
  }

  lemma InsertOwnSignatures(s: State, h: int, e: BlockEffects)
    requires OwnSignatures(s)
    ensures OwnSignatures(InsertState(s, h, e))
  {
    var t := PutVersioned(s.dropped, h, DroppedEntries(e));
    assert InsertState(s, h, e).dropped == t;
    hide InsertState;
    forall k | k in t && k !in s.dropped ensures t[k].signature == k.0 {
      FirstIsEntry(DroppedEntries(e), k.0);
    }
  }

  /** What a block drops is stored under its signatures, the first of each. */
  lemma InsertDropped(s: State, h: int, e: BlockEffects)
    requires NoRowAt(s.dropped, h)
    ensures forall name :: (name, h) in InsertState(s, h, e).dropped <==> FirstFor(DroppedEntries(e), name).Some?
    ensures forall name :: (name, h) in InsertState(s, h, e).dropped ==>
      FirstFor(DroppedEntries(e), name) == Some(InsertState(s, h, e).dropped[(name, h)])
  {
    hide DroppedEntries;
    assert InsertState(s, h, e).dropped == PutVersioned(s.dropped, h, DroppedEntries(e));
    hide InsertState;
  }

  /** Read back and broadcast, the dropped rows are the same rows exactly when no signature repeats. */
  lemma DroppedAgree(s: State, h: int, e: BlockEffects, b: Block)
    requires OwnSignatures(s) && NoRowAt(s.dropped, h) && b.effects == Some(e) && b.height == h
    ensures multiset(Dropped(InsertState(s, h, e), h, h)) == multiset(WireDropped(b)) <==> DistinctSignatures(b)
  {
    hide InsertState, Dropped;
    InsertDropped(s, h, e);
    InsertOwnSignatures(s, h, e);
    var t := InsertState(s, h, e);
    var stored, wire := Dropped(t, h, h), WireDropped(b);
    DroppedOnce(t, h);
    if DistinctSignatures(b) {
      forall v ensures multiset(stored)[v] == multiset(wire)[v] {
        CountOnce(stored, v);
        WireOnce(b);
        CountOnce(wire, v);
        SameRows(t, e, b, v);
      }
      assert multiset(stored) == multiset(wire);
    } else {
      var i, j :| 0 <= i < j < |e.dropped| && DroppedEntries(e)[i].0 == DroppedEntries(e)[j].0;
      RepeatShows(stored, wire, i, j);
    }
  }

  lemma WireOnce(b: Block)
    requires DistinctSignatures(b)
    ensures NoRepeats(WireDropped(b))
  {
    forall i, j | 0 <= i < j < |WireDropped(b)| ensures WireDropped(b)[i] != WireDropped(b)[j] {
      assert DroppedEntries(b.effects.value)[i].0 != DroppedEntries(b.effects.value)[j].0;
    }
  }

  lemma SameRows(t: State, e: BlockEffects, b: Block, v: DroppedView)
    requires b.effects == Some(e) && DistinctSignatures(b)
    requires forall name :: (name, b.height) in t.dropped <==> FirstFor(DroppedEntries(e), name).Some?
    requires forall name :: (name, b.height) in t.dropped ==>
      FirstFor(DroppedEntries(e), name) == Some(t.dropped[(name, b.height)])
    ensures v in Dropped(t, b.height, b.height) <==> v in WireDropped(b)
  {
    hide Dropped, DroppedEntries, FirstFor;
    StoredDropped(t, b.height, v);
    WireDroppedIs(b, e, v);
    if v in WireDropped(b) {
      var name :| FirstIs(e, name, v.effect);
      assert DroppedIs(t, b.height, name, v.effect);
    }
    if v in Dropped(t, b.height, b.height) {
      var name :| DroppedIs(t, b.height, name, v.effect);
      assert FirstIs(e, name, v.effect);
    }
  }

  lemma RepeatShows(stored: seq<DroppedView>, wire: seq<DroppedView>, i: int, j: int)
    requires 0 <= i < j < |wire| && wire[i].effect.signature == wire[j].effect.signature
    requires forall m, n :: 0 <= m < n < |stored| ==> stored[m].effect.signature != stored[n].effect.signature
    ensures multiset(stored) != multiset(wire)
  {
    assert wire[i] in multiset(wire) && wire[j] in multiset(wire);
    if wire[i] == wire[j] {
      CountTwice(wire, i, j);
      CountOnce(stored, wire[i]);
    } else {
      NotBoth(stored, wire[i], wire[j]);
    }
  }

  lemma NotBoth(stored: seq<DroppedView>, v: DroppedView, w: DroppedView)
    requires v != w && v.effect.signature == w.effect.signature
    requires forall m, n :: 0 <= m < n < |stored| ==> stored[m].effect.signature != stored[n].effect.signature
    ensures v !in multiset(stored) || w !in multiset(stored)
  {}

  lemma WireDroppedIs(b: Block, e: BlockEffects, v: DroppedView)
    requires b.effects == Some(e) && DistinctSignatures(b)
    ensures v in WireDropped(b) <==> (
      v.height == b.height && exists name :: FirstIs(e, name, v.effect))
  {
    var entries := DroppedEntries(e);
    if v in WireDropped(b) {
      var i :| 0 <= i < |e.dropped| && WireDropped(b)[i] == v;
      FirstIsOnly(entries, i);
      assert FirstIs(e, entries[i].0, v.effect);
    }
    if name :| v.height == b.height && FirstIs(e, name, v.effect) {
      FirstIsEntry(entries, name);
      var i :| 0 <= i < |entries| && entries[i] == (name, v.effect);
      assert WireDropped(b)[i] == v;
    }
  }

  lemma {:induction false} ReplayOwnSignatures(live: seq<Block>, p: Projections)
    requires InsertAll(EMPTY, live, p).Ok?
    ensures OwnSignatures(InsertAll(EMPTY, live, p).value.index.state)
  {
    hide InsertHistory, InsertState, ProjectCreations, OwnSignatures;
    if live == [] {
      EmptyOwnSignatures();
    } else {
      var front, b := live[..|live| - 1], live[|live| - 1];
      ReplayOwnSignatures(front, p);
      if b.effects.Some? {
        InsertOwnSignatures(InsertAll(EMPTY, front, p).value.index.state, b.height, b.effects.value);
      }
    }
  }

  lemma EmptyOwnSignatures()
    ensures OwnSignatures(EMPTY_STATE)
  {}

  /** Every dropped action sits at a stored block's height. */
  ghost predicate DroppedHoused(x: Index) {
    forall k :: k in x.state.dropped ==> k.1 in x.history.blocks
  }

  lemma InsertDroppedHoused(x: Index, b: Block, p: Projections)
    requires DroppedHoused(x)
    ensures DroppedHoused(InsertIndex(x, b, p))
  {
    hide InsertIndex, InsertHistory;
    InsertGrows(x, b, p);
    InsertHistoryGrows(x.history, b, p);
  }

  lemma {:induction false} ReplayDroppedHoused(live: seq<Block>, p: Projections)
    requires InsertAll(EMPTY, live, p).Ok?
    ensures DroppedHoused(InsertAll(EMPTY, live, p).value.index)
  {
    hide InsertIndex, DroppedHoused;
    if live == [] {
      EmptyDroppedHoused();
    } else {
      ReplayDroppedHoused(live[..|live| - 1], p);
      InsertDroppedHoused(InsertAll(EMPTY, live[..|live| - 1], p).value.index, live[|live| - 1], p);
    }
  }

  lemma EmptyDroppedHoused()
    ensures DroppedHoused(EMPTY_INDEX)
  {}

  /** The database facts the reads rely on. */
  ghost predicate Readable(d: Database) {
    Good(d) && Housed(d.index.history) && OwnSignatures(d.index.state) && DroppedHoused(d.index)
  }

  lemma ReadableHouses(d: Database)
    requires Readable(d)
    ensures Housed(d.index.history)
  {}

  lemma ReplayReadable(d: Database, live: seq<Block>, p: Projections)
    requires Replays(d, live, p)
    ensures Readable(d)
  {
    hide InsertIndex, OwnSignatures, Housed, DroppedHoused, Below, Valid;
    ReplayHouses(live, p);
    ReplayOwnSignatures(live, p);
    ReplayDroppedHoused(live, p);
  }

  /**
   * The broadcast row of a block just committed at a height not stored before against what a read
   * of that height returns. Header fields always agree. The actions agree - same rows, same order - exactly when
   * no identity of the block was stored before or is used twice in it; the dropped rows agree, up
   * to their order, exactly when no signature is dropped twice. The broadcast row is not
   * disputed, the stored one is as the database has it.
   */
  lemma BroadcastAgrees(d: Database, b: Block, p: Projections)
    requires Readable(d) && InsertBlock(d, b, p).Ok? && b.height !in d.index.history.blocks
    ensures Readable(InsertBlock(d, b, p).value) && GetBlock(InsertBlock(d, b, p).value, b.height).Some?
    ensures var wire, row := RowFromWire(b), GetBlock(InsertBlock(d, b, p).value, b.height).value;
      && row == wire.(actions := row.actions, undecoded := Undecoded(row.actions), dropped := row.dropped,
                      disputed := row.disputed)
      && (row.actions == wire.actions <==> FreshIdentities(d.index.history, b))
      && (multiset(row.dropped) == multiset(wire.dropped) <==> DistinctSignatures(b))
      && (FreshIdentities(d.index.history, b) ==> row.undecoded == wire.undecoded)
      && !wire.disputed && (row.disputed <==> b.height in InsertBlock(d, b, p).value.disputed)
  {
    hide InsertIndex, Actions, Dropped, FreshIdentities, DistinctSignatures, Housed, OwnSignatures, DroppedHoused, Below, Valid;
    hide WireActions, WireDropped, Undecoded;
    InsertReadable(d, b, p);
    ActionsAgree(d, b, p);
    DroppedRowsAgree(d, b, p);
  }

  lemma NotStored(d: Database, h: int)
    requires Readable(d) && h !in d.index.history.blocks
    ensures NoActionAt(d.index.history.actions, h) && NoRowAt(d.index.state.dropped, h)
  {
    hide Good, OwnSignatures;
  }

  lemma NotStoredAbove(d: Database, h: int)
    requires Good(d) && h > Top(d)
    ensures h !in d.index.history.blocks
  {}

  /** Any block that commits, at whatever height, leaves a database that can be read. */
  lemma InsertReadable(d: Database, b: Block, p: Projections)
    requires Readable(d) && InsertBlock(d, b, p).Ok?
    ensures Readable(InsertBlock(d, b, p).value) && Housed(InsertHistory(d.index.history, b, p))
    ensures Top(InsertBlock(d, b, p).value) == (if Top(d) < b.height then b.height else Top(d))
    ensures InsertBlock(d, b, p).value.hooks == d.hooks
    ensures InsertBlock(d, b, p).value.index.history.blocks == StoreHeader(d.index.history.blocks, b)
  {
    hide InsertHistory, InsertState, ProjectCreations, OwnSignatures, DroppedHoused, Below, Valid;
    InsertGood(d, b, p);
    InsertHouses(d.index, b, p);
    InsertDroppedHoused(d.index, b, p);
    if b.effects.Some? {
      InsertOwnSignatures(d.index.state, b.height, b.effects.value);
    }
    InsertHistoryGrows(d.index.history, b, p);
  }

  /** The reads of a height depend on the actions, headers and dropped rows only. */
  lemma EventsDoNotMatter(x: History, y: History, lo: int, hi: int)
    requires y == x.(tokenEvents := y.tokenEvents) && Housed(x)
    ensures Housed(y) && Actions(y, lo, hi) == Actions(x, lo, hi)
  {
    assert ActionKeys(x, lo, hi) == ActionKeys(y, lo, hi);
  }

  lemma ActionsAgree(d: Database, b: Block, p: Projections)
    requires Readable(d) && b.height !in d.index.history.blocks && Housed(InsertIndex(d.index, b, p).history)
    requires Housed(InsertHistory(d.index.history, b, p))
    ensures Actions(InsertIndex(d.index, b, p).history, b.height, b.height) == WireActions(b)
      <==> FreshIdentities(d.index.history, b)
  {
    hide InsertIndex, InsertHistory, Actions, FreshIdentities, Housed, OwnSignatures, Good;
    var x, y := d.index.history, InsertHistory(d.index.history, b, p);
    NotStored(d, b.height);
    InsertGrows(d.index, b, p);
    EventsDoNotMatter(y, InsertIndex(d.index, b, p).history, b.height, b.height);
    if FreshIdentities(x, b) {
      FreshActions(x, b, p);
    }
    if Actions(y, b.height, b.height) == WireActions(b) {
      StoredMeansFresh(x, b, p);
    }
  }

  lemma DroppedRowsAgree(d: Database, b: Block, p: Projections)
    requires Readable(d) && b.height !in d.index.history.blocks
    ensures multiset(Dropped(InsertIndex(d.index, b, p).state, b.height, b.height)) == multiset(WireDropped(b))
      <==> DistinctSignatures(b)
  {
    hide InsertHistory, InsertState, ProjectCreations, DistinctSignatures, Housed, OwnSignatures, Good, Dropped;
    NotStored(d, b.height);
    if b.effects.Some? {
      DroppedAgree(d.index.state, b.height, b.effects.value, b);
    } else {
      NothingDropped(d.index.state, b);
    }
  }

  lemma NothingDropped(s: State, b: Block)
    requires NoRowAt(s.dropped, b.height) && b.effects.None?
    ensures Dropped(s, b.height, b.height) == WireDropped(b) == [] && DistinctSignatures(b)
  {
    assert DroppedKeys(s, b.height, b.height) == {};
  }

  // ------------------------------------------------------------------- frames

  /** A row without its `disputed` flag: all a subscriber is sent. */
  function Content(row: Option<BlockRow>): Option<BlockRow> {
    match row
    case None => None
    case Some(r) => Some(r.(disputed := false))
  }

  ghost predicate SameAt(x: Index, y: Index, h: int) {
    && (forall id :: id in x.history.actions && x.history.actions[id].height == h ==>
          id in y.history.actions && y.history.actions[id] == x.history.actions[id])
    && (forall name :: (name, h) in x.state.dropped ==>
          (name, h) in y.state.dropped && y.state.dropped[(name, h)] == x.state.dropped[(name, h)])
    && (h in x.history.blocks ==> h in y.history.blocks && y.history.blocks[h] == x.history.blocks[h])
  }

  lemma SameRead(d: Database, e: Database, h: int)
    requires Housed(d.index.history) && Housed(e.index.history)
    requires SameAt(d.index, e.index, h) && SameAt(e.index, d.index, h)
    ensures Content(GetBlock(d, h)) == Content(GetBlock(e, h))
  {
    hide Sort;
    var x, y, s, t := d.index.history, e.index.history, d.index.state, e.index.state;
    assert ActionKeys(x, h, h) == ActionKeys(y, h, h);
    assert DroppedKeys(s, h, h) == DroppedKeys(t, h, h);
    if h in x.blocks {
      assert Actions(x, h, h) == Actions(y, h, h);
      assert Dropped(s, h, h) == Dropped(t, h, h);
    }
  }

  /** A rollback leaves the rows at or below its target and nothing else. */
  lemma RollbackReads(d: Database, H: int, h: int)
    requires Housed(d.index.history)
    ensures Housed(Rollback(d, H).index.history)
    ensures Content(GetBlock(Rollback(d, H), h)) == if h <= H then Content(GetBlock(d, h)) else None
  {
    hide GetBlock, Housed;
    RollbackHouses(d, H);
    if h <= H {
      RollbackSame(d, H, h);
      SameRead(d, Rollback(d, H), h);
    } else {
      RollbackGone(d, H, h);
    }
  }

  lemma RollbackSame(d: Database, H: int, h: int)
    requires h <= H
    ensures SameAt(d.index, Rollback(d, H).index, h) && SameAt(Rollback(d, H).index, d.index, h)
  {}

  lemma RollbackGone(d: Database, H: int, h: int)
    requires h > H && Housed(Rollback(d, H).index.history)
    ensures GetBlock(Rollback(d, H), h) == None
  {
    hide KeepState;
  }

  /** A block committed at any height leaves the content of every other height alone. */
  lemma InsertReads(d: Database, b: Block, p: Projections, h: int)
    requires Housed(d.index.history) && InsertBlock(d, b, p).Ok? && h != b.height
    ensures Housed(InsertBlock(d, b, p).value.index.history)
    ensures Content(GetBlock(InsertBlock(d, b, p).value, h)) == Content(GetBlock(d, h))
  {
    hide InsertIndex, GetBlock, Housed;
    InsertHouses(d.index, b, p);
    InsertSame(d.index, b, p, h);
    SameRead(d, InsertBlock(d, b, p).value, h);
  }

  lemma InsertSame(x: Index, b: Block, p: Projections, h: int)
    requires h != b.height
    ensures SameAt(x, InsertIndex(x, b, p), h) && SameAt(InsertIndex(x, b, p), x, h)
  {
    hide InsertIndex, InsertHistory;
    InsertGrows(x, b, p);
    InsertHistoryGrows(x.history, b, p);
  }
}

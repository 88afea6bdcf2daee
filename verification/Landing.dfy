/** What a block committed above the tip leaves in the tables: every row it names, and no other. */
module Landing {
  import opened Wire
  import opened Tables
  import opened Storage
  import Replay

  /** At height `h` the table holds the first entry of each key, and nothing else. */
  ghost predicate Landed<K(!new), V>(m: Versioned<K, V>, h: int, entries: seq<(K, V)>) {
    forall k :: ((k, h) in m <==> FirstFor(entries, k).Some?) && ((k, h) in m ==> FirstFor(entries, k) == Some(m[(k, h)]))
  }

  /** Keys that were free hold their first entry at `h`; keys that were taken hold what they held. */
  ghost predicate LandedOn<K(!new), V>(before: Keyed<K, V>, after: Keyed<K, V>, h: int, entries: seq<(K, V)>) {
    forall k ::
      && (k in before ==> k in after && after[k] == before[k])
      && (k !in before ==> (k in after <==> FirstFor(entries, k).Some?))
      && (k !in before && k in after ==> after[k].height == h && FirstFor(entries, k) == Some(after[k].row))
  }

  lemma PutLands<K(!new), V>(m: Versioned<K, V>, h: int, entries: seq<(K, V)>)
    requires VersionedBelow(m, h - 1)
    ensures Landed(PutVersioned(m, h, entries), h, entries)
  {}

  lemma PutLandsOn<K(!new), V>(m: Keyed<K, V>, h: int, entries: seq<(K, V)>)
    ensures LandedOn(m, PutKeyed(m, h, entries), h, entries)
  {}

  /**
   * The attestor rows of a block: one for each attestor it registers or removes. A registration
   * holds the first record listed for it, whether the attestor is removed too or not; a removal
   * alone holds no record.
   */
  ghost predicate AttestorsLanded(m: Versioned<string, Option<Json>>, h: int, e: BlockEffects) {
    forall a ::
      && ((a, h) in m <==> Mentions(e.attestorRegistrations, a) || a in e.attestorDeregistrations)
      && ((a, h) in m && Mentions(e.attestorRegistrations, a) ==> m[(a, h)] == FirstFor(e.attestorRegistrations, a))
      && ((a, h) in m && !Mentions(e.attestorRegistrations, a) ==> m[(a, h)] == None)
  }

  /** The validator set, if the block has one. */
  ghost predicate SetLanded(m: Versioned<(), Json>, h: int, e: BlockEffects) {
    (((), h) in m <==> e.validatorSet.Some?) && (((), h) in m ==> e.validatorSet == Some(m[((), h)]))
  }

  /** Every asset registration, by its place in the block. */
  ghost predicate RegistrationsLanded(m: Versioned<nat, Json>, h: int, e: BlockEffects) {
    forall i: nat ::
      ((i, h) in m <==> i < |e.assetRegistrations|) && ((i, h) in m ==> i < |e.assetRegistrations| && m[(i, h)] == e.assetRegistrations[i])
  }

  ghost predicate EvidenceLanded(m: Versioned<(string, nat), ()>, h: int, e: BlockEffects) {
    forall k :: (k, h) in m <==> k in e.evidence
  }

  /** The first of the dropped actions under each signature. */
  ghost predicate DroppedLanded(m: Versioned<string, DroppedEffect>, h: int, e: BlockEffects) {
    forall name ::
      && ((name, h) in m <==> exists i :: 0 <= i < |e.dropped| && e.dropped[i].signature == name)
      && ((name, h) in m ==> exists i :: FirstDropped(e, name, i) && m[(name, h)] == e.dropped[i])
  }

  ghost predicate FirstDropped(e: BlockEffects, name: string, i: int) {
    0 <= i < |e.dropped| && e.dropped[i].signature == name && forall j :: 0 <= j < i ==> e.dropped[j].signature != name
  }

  ghost predicate StateLanded(t: State, h: int, e: BlockEffects) {
    && Landed(t.accounts, h, e.accounts) && Landed(t.assetBalances, h, e.assetBalances)
    && Landed(t.holderStates, h, e.holderStates) && Landed(t.stakes, h, e.stakes)
    && Landed(t.validatorStatus, h, e.validatorStatuses) && SetLanded(t.validatorSets, h, e)
    && RegistrationsLanded(t.registrations, h, e) && EvidenceLanded(t.evidence, h, e)
    && Landed(t.blsKeys, h, e.blsKeys) && Landed(t.operators, h, e.operators)
    && AttestorsLanded(t.attestors, h, e) && DroppedLanded(t.dropped, h, e)
  }

  /** Each of the twelve state tables holds at the block's height exactly what its effects set, first entry first. */
  lemma StateLands(s: State, h: int, e: BlockEffects)
    requires StateBelow(s, h - 1)
    ensures StateLanded(InsertState(s, h, e), h, e)
  {
    hide Landed, PutVersioned, SetLanded, RegistrationsLanded, EvidenceLanded, AttestorsLanded, DroppedLanded;
    hide SetEntries, Numbered, Marked, AttestorEntries, DroppedEntries;
    PutLands(s.accounts, h, e.accounts);
    PutLands(s.assetBalances, h, e.assetBalances);
    PutLands(s.holderStates, h, e.holderStates);
    PutLands(s.stakes, h, e.stakes);
    PutLands(s.validatorStatus, h, e.validatorStatuses);
    PutLands(s.validatorSets, h, SetEntries(e));
    PutLands(s.registrations, h, Numbered(e.assetRegistrations));
    PutLands(s.evidence, h, Marked(e.evidence));
    PutLands(s.blsKeys, h, e.blsKeys);
    PutLands(s.operators, h, e.operators);
    PutLands(s.attestors, h, AttestorEntries(e));
    PutLands(s.dropped, h, DroppedEntries(e));
    var t := InsertState(s, h, e);
    SetLands(t.validatorSets, h, e);
    NumbersLand(t.registrations, h, e);
    EvidenceLands(t.evidence, h, e);
    AttestorsLand(t.attestors, h, e);
    DroppedLands(t.dropped, h, e);
  }

  lemma SetLands(m: Versioned<(), Json>, h: int, e: BlockEffects)
    requires Landed(m, h, SetEntries(e))
    ensures SetLanded(m, h, e)
  {}

  lemma NumbersLand(m: Versioned<nat, Json>, h: int, e: BlockEffects)
    requires Landed(m, h, Numbered(e.assetRegistrations))
    ensures RegistrationsLanded(m, h, e)
  {
    hide Numbered;
    forall i: nat
      ensures ((i, h) in m <==> i < |e.assetRegistrations|)
        && ((i, h) in m ==> i < |e.assetRegistrations| && m[(i, h)] == e.assetRegistrations[i])
    {
      NumberedFirst(e.assetRegistrations, i);
    }
  }

  lemma EvidenceLands(m: Versioned<(string, nat), ()>, h: int, e: BlockEffects)
    requires Landed(m, h, Marked(e.evidence))
    ensures EvidenceLanded(m, h, e)
  {
    hide FirstFor;
    forall k ensures (k, h) in m <==> k in e.evidence {
      if k in e.evidence {
        var i :| 0 <= i < |e.evidence| && e.evidence[i] == k;
        assert Marked(e.evidence)[i].0 == k;
      }
    }
  }

  lemma {:induction false} RegisteredFirst(regs: seq<(string, Json)>, a: string)
    ensures var entries := seq(|regs|, i requires 0 <= i < |regs| => (regs[i].0, Some(regs[i].1)));
      FirstFor(entries, a) == if Mentions(regs, a) then Some(FirstFor(regs, a)) else None
  {
    var entries: seq<(string, Option<Json>)> := seq(|regs|, i requires 0 <= i < |regs| => (regs[i].0, Some(regs[i].1)));
    if regs != [] {
      RegisteredFirst(regs[1..], a);
      assert entries[1..] == seq(|regs[1..]|, i requires 0 <= i < |regs[1..]| => (regs[1..][i].0, Some(regs[1..][i].1)));
    }
  }

  lemma {:induction false} RemovedFirst(removed: seq<string>, a: string)
    ensures var entries: seq<(string, Option<Json>)> := seq(|removed|, i requires 0 <= i < |removed| => (removed[i], None));
      FirstFor(entries, a) == if a in removed then Some(None) else None
  {
    var entries: seq<(string, Option<Json>)> := seq(|removed|, i requires 0 <= i < |removed| => (removed[i], None));
    if removed != [] {
      RemovedFirst(removed[1..], a);
      assert removed == [removed[0]] + removed[1..];
      assert entries[1..] == seq(|removed[1..]|, i requires 0 <= i < |removed[1..]| => (removed[1..][i], None));
    }
  }

  /** What is found first for an attestor: its first registration, else its removal. */
  lemma AttestorFirst(e: BlockEffects, a: string)
    ensures FirstFor(AttestorEntries(e), a) ==
      if Mentions(e.attestorRegistrations, a) then Some(FirstFor(e.attestorRegistrations, a))
      else if a in e.attestorDeregistrations then Some(None) else None
  {
    hide FirstFor;
    var regs, removed := e.attestorRegistrations, e.attestorDeregistrations;
    var first: seq<(string, Option<Json>)> := seq(|regs|, i requires 0 <= i < |regs| => (regs[i].0, Some(regs[i].1)));
    var rest: seq<(string, Option<Json>)> := seq(|removed|, i requires 0 <= i < |removed| => (removed[i], None));
    assert AttestorEntries(e) == first + rest;
    FirstForBoth(first, rest, a);
    RegisteredFirst(regs, a);
    RemovedFirst(removed, a);
  }

  lemma AttestorsLand(m: Versioned<string, Option<Json>>, h: int, e: BlockEffects)
    requires Landed(m, h, AttestorEntries(e))
    ensures AttestorsLanded(m, h, e)
  {
    hide FirstFor, AttestorEntries;
    forall a
      ensures (a, h) in m <==> Mentions(e.attestorRegistrations, a) || a in e.attestorDeregistrations
      ensures (a, h) in m && Mentions(e.attestorRegistrations, a) ==> m[(a, h)] == FirstFor(e.attestorRegistrations, a)
      ensures (a, h) in m && !Mentions(e.attestorRegistrations, a) ==> m[(a, h)] == None
    {
      AttestorFirst(e, a);
    }
  }

  lemma DroppedLands(m: Versioned<string, DroppedEffect>, h: int, e: BlockEffects)
    requires Landed(m, h, DroppedEntries(e))
    ensures DroppedLanded(m, h, e)
  {
    hide FirstFor;
    var entries := DroppedEntries(e);
    forall name
      ensures (name, h) in m <==> exists i :: 0 <= i < |e.dropped| && e.dropped[i].signature == name
      ensures (name, h) in m ==> exists i :: FirstDropped(e, name, i) && m[(name, h)] == e.dropped[i]
    {
      if i :| 0 <= i < |e.dropped| && e.dropped[i].signature == name { assert entries[i].0 == name; }
      if FirstFor(entries, name).Some? {
        FirstIsEntry(entries, name);
        var i :| (0 <= i < |entries| && entries[i] == (name, FirstFor(entries, name).value)
          && forall j :: 0 <= j < i ==> entries[j].0 != name);
        assert forall j :: 0 <= j < i ==> entries[j].0 == e.dropped[j].signature;
        assert FirstDropped(e, name, i);
      }
    }
  }

  /**
   * What a block with effects leaves when it is committed above the cursor: each table at its
   * height holds what the effects list, and of the blocks it disputes exactly the stored ones -
   * itself included - are flagged on top of those that were.
   */
  lemma EffectsLand(d: Database, b: Block, p: Projections)
    requires Replay.Good(d) && b.height > Replay.Top(d) && InsertBlock(d, b, p).Ok? && b.effects.Some?
    ensures var t, e := InsertBlock(d, b, p).value, b.effects.value;
      && StateLanded(t.index.state, b.height, e)
      && forall h :: h in t.disputed <==> (
           h in d.disputed || ((h in d.index.history.blocks || h == b.height) && h in e.disputedBlocks))
  {
    hide InsertHistory, InsertState, ProjectCreations, StateLanded, StateBelow, Valid, HistoryBelow;
    BelowState(d, b.height - 1);
    StateLands(d.index.state, b.height, b.effects.value);
    Replay.InsertGood(d, b, p);
  }

  lemma BelowState(d: Database, h: int)
    requires Replay.Good(d) && Replay.Top(d) <= h
    ensures StateBelow(d.index.state, h)
  {}

  /** A removed attestor registered in the same block keeps its registration: registrations go in first. */
  lemma RegistrationWins(e: BlockEffects, i: nat)
    requires i < |e.attestorRegistrations|
    ensures FirstFor(AttestorEntries(e), e.attestorRegistrations[i].0).Some?
    ensures FirstFor(AttestorEntries(e), e.attestorRegistrations[i].0).value.Some?
  {
    var entries, k := AttestorEntries(e), e.attestorRegistrations[i].0;
    assert entries[i].0 == k;
    FirstComesFirst(entries, k, i);
  }

  /** The value found for a key is that of an entry no later than any entry for it. */
  lemma FirstComesFirst<K, V>(entries: seq<(K, V)>, k: K, i: nat)
    requires i < |entries| && entries[i].0 == k
    ensures exists j :: 0 <= j <= i && entries[j] == (k, FirstFor(entries, k).value)
  {
    if entries[0].0 == k {
      assert entries[0] == (k, FirstFor(entries, k).value);
    } else {
      assert entries[1..][i - 1] == entries[i];
      FirstComesFirst(entries[1..], k, i - 1);
      var j :| 0 <= j <= i - 1 && entries[1..][j] == (k, FirstFor(entries[1..], k).value);
      assert entries[j + 1] == (k, FirstFor(entries, k).value);
    }
  }

  /** An asset row for each asset each newly stored action mentions, at the action's height and place. */
  ghost predicate AssetsLanded(x: History, y: History, p: Projections) {
    forall asset, id ::
      && ((asset, id) in x.assetActions ==> (asset, id) in y.assetActions && y.assetActions[(asset, id)] == x.assetActions[(asset, id)])
      && ((asset, id) !in x.assetActions ==>
            ((asset, id) in y.assetActions <==> id in y.actions && id !in x.actions && asset in p.assets(y.actions[id].row.payload)))
      && ((asset, id) !in x.assetActions && (asset, id) in y.assetActions && id in y.actions ==>
            y.assetActions[(asset, id)] == At(y.actions[id].height, y.actions[id].row.index))
  }

  predicate IsToken(a: At<ActionRow>, h: int, p: Projections) {
    a.height == h && a.row.kind == "Token" && p.token(a.row).Some?
  }

  /** The new token events are those of the Token actions at the block's height whose key was not taken, no others. */
  ghost predicate TokensLanded(x: History, y: History, b: Block, p: Projections) {
    forall id ::
      && (id in x.tokenEvents ==> id in y.tokenEvents && y.tokenEvents[id] == x.tokenEvents[id])
      && (id !in x.tokenEvents ==> (id in y.tokenEvents <==> id in y.actions && IsToken(y.actions[id], b.height, p)))
      && (id !in x.tokenEvents && id in y.actions && IsToken(y.actions[id], b.height, p) && id in y.tokenEvents ==>
            y.tokenEvents[id] == At(b.height, TokenEvent(p.token(y.actions[id].row).value, y.actions[id].row.sender, b.timestamp)))
  }

  /**
   * The history rows of a block at a new height: its header, its actions and their sender and role
   * rows under first-wins keys, its token events, and the asset rows its new actions mention.
   * Nothing else is added and no row that was there changes.
   */
  lemma HistoryLands(x: History, b: Block, p: Projections)
    requires HistoryBelow(x, b.height - 1)
    ensures var y := InsertHistory(x, b, p);
      && y.blocks == x.blocks[b.height := Header(b.hash, b.parentHash, b.timestamp, b.proposer, b.round)]
      && LandedOn(x.actions, y.actions, b.height, ActionEntries(b))
      && Landed(y.accountActions, b.height, SenderEntries(b)) && GrowsVersioned(x.accountActions, y.accountActions, b.height)
      && LandedOn(x.actionAddresses, y.actionAddresses, b.height, AddressEntries(b, |b.actions|, p))
      && AssetsLanded(x, y, p) && (if b.actions == [] then y.tokenEvents == x.tokenEvents else TokensLanded(x, y, b, p))
  {
    hide ActionEntries, SenderEntries, AddressEntries, Landed, LandedOn, PutKeyed, PutVersioned, AssetsLanded, TokensLanded;
    PutLandsOn(x.actions, b.height, ActionEntries(b));
    PutLands(x.accountActions, b.height, SenderEntries(b));
    PutVersionedGrows(x.accountActions, b.height, SenderEntries(b));
    PutLandsOn(x.actionAddresses, b.height, AddressEntries(b, |b.actions|, p));
    AssetsLand(x, b, p);
    TokensLand(x, b, p);
  }

  lemma AssetsLand(x: History, b: Block, p: Projections)
    ensures AssetsLanded(x, InsertHistory(x, b, p), p)
  {
    hide ActionEntries, SenderEntries, AddressEntries, TokenRows, PutVersioned, PutKeyed, AssetRows, Under, AssetsLanded;
    var y := InsertHistory(x, b, p);
    InsertHistoryGrows(x, b, p);
    NewAssets(x, y, p);
  }

  lemma NewAssets(x: History, y: History, p: Projections)
    requires y.assetActions == Under(x.assetActions, AssetRows(x.actions, y.actions, p))
    ensures AssetsLanded(x, y, p)
  {}

  lemma TokensLand(x: History, b: Block, p: Projections)
    ensures var y := InsertHistory(x, b, p);
      if b.actions == [] then y.tokenEvents == x.tokenEvents else TokensLanded(x, y, b, p)
  {
    hide ActionEntries, SenderEntries, AddressEntries, AssetRows, PutVersioned;
  }

  /** The new token events are those of the created tokens whose key was not taken, no others. */
  ghost predicate CreationsLanded(x: History, y: History, h: int, time: nat, records: set<Json>, p: Projections) {
    forall id ::
      && (id in x.tokenEvents ==> id in y.tokenEvents && y.tokenEvents[id] == x.tokenEvents[id])
      && (id !in x.tokenEvents ==> (id in y.tokenEvents <==> id in x.actions && IsCreation(x.actions[id], h, records, p)))
      && (id !in x.tokenEvents && id in x.actions && IsCreation(x.actions[id], h, records, p) && id in y.tokenEvents ==>
            y.tokenEvents[id] == At(h, TokenEvent(p.create(x.actions[id].row, records).value, x.actions[id].row.sender, time)))
  }

  predicate IsCreation(a: At<ActionRow>, h: int, records: set<Json>, p: Projections) {
    a.height == h && a.row.kind == "Token" && p.create(a.row, records).Some?
  }

  /**
   * The registrations of a block at a new height project the tokens they created: every matching
   * Token action gets its create event, told from all the block's registrations, and no other row
   * changes. Without a registration nothing does.
   */
  lemma CreationsLand(x: History, s: State, h: nat, e: BlockEffects, p: Projections)
    requires StateBelow(s, h - 1) && h in x.blocks
    ensures var t := InsertState(s, h, e);
      var y := ProjectCreations(x, s, t, h, p);
      && (e.assetRegistrations == [] ==> y == x)
      && (e.assetRegistrations != [] ==>
            CreationsLanded(x, y, h, x.blocks[h].timestamp, (set r | r in e.assetRegistrations), p))
      && y == x.(tokenEvents := y.tokenEvents)
  {
    hide InsertState, CreateRows, PutVersioned, Numbered;
    var t := InsertState(s, h, e);
    ProjectGrows(x, s, t, h, p);
    RegistrationsLand(s, h, e);
    if e.assetRegistrations != [] {
      RowsCreated(x, h, x.blocks[h].timestamp, (set r | r in e.assetRegistrations), p);
    }
  }

  lemma RowsCreated(x: History, h: int, time: nat, records: set<Json>, p: Projections)
    ensures var rows := CreateRows(x.actions, records, h, time, p);
      CreationsLanded(x, x.(tokenEvents := Under(x.tokenEvents, rows)), h, time, records, p)
  {}

  lemma RegistrationsLand(s: State, h: nat, e: BlockEffects)
    requires StateBelow(s, h - 1)
    ensures var t := InsertState(s, h, e);
      && RecordsAt(t.registrations, h) == (set r | r in e.assetRegistrations)
      && (t.registrations == s.registrations <==> e.assetRegistrations == [])
  {
    hide RecordsAt;
    var m := PutVersioned(s.registrations, h, Numbered(e.assetRegistrations));
    assert InsertState(s, h, e).registrations == m;
    hide InsertState, PutVersioned, Numbered, StateBelow;
    RecordsLand(s.registrations, h, e.assetRegistrations);
    if e.assetRegistrations == [] { SameRegistrations(s, h, e); }
  }

  lemma RecordsLand(before: Versioned<nat, Json>, h: nat, records: seq<Json>)
    requires VersionedBelow(before, h - 1)
    ensures var m := PutVersioned(before, h, Numbered(records));
      RecordsAt(m, h) == (set r | r in records) && (records != [] ==> m != before)
  {
    hide PutVersioned, Numbered;
    PutLands(before, h, Numbered(records));
    var m := PutVersioned(before, h, Numbered(records));
    forall i: nat ensures ((i, h) in m <==> i < |records|) && ((i, h) in m ==> m[(i, h)] == records[i]) {
      NumberedFirst(records, i);
    }
    hide Landed;
    forall r ensures r in RecordsAt(m, h) <==> r in records {
      if r in records {
        var i :| 0 <= i < |records| && records[i] == r;
        assert (i, h) in m;
      }
    }
    if records != [] { assert (0, h) in m && (0, h) !in before; }
  }

  lemma SameRegistrations(s: State, h: nat, e: BlockEffects)
    requires e.assetRegistrations == []
    ensures InsertState(s, h, e).registrations == s.registrations
  {
    assert Numbered(e.assetRegistrations) == [];
  }

  lemma NumberedFirst(records: seq<Json>, i: nat)
    ensures FirstFor(Numbered(records), i) == if i < |records| then Some(records[i]) else None
  {
    if i < |records| {
      assert Numbered(records)[i] == (i, records[i]);
      FirstIsOnly(Numbered(records), i);
    }
  }

  // ---------------------------------------------------------------- block hashes

  /** No two heights carry one hash. */
  ghost predicate HashesUnique(d: Database) {
    var blocks := d.index.history.blocks;
    forall g, h :: g in blocks && h in blocks && blocks[g].hash == blocks[h].hash ==> g == h
  }

  lemma InsertKeepsHashes(d: Database, b: Block, p: Projections)
    requires HashesUnique(d) && InsertBlock(d, b, p).Ok?
    ensures HashesUnique(InsertBlock(d, b, p).value)
  {
    hide InsertIndex, InsertHistory;
    InsertGrows(d.index, b, p);
    InsertHistoryGrows(d.index.history, b, p);
  }

  lemma {:induction false} InsertAllKeepsHashes(d: Database, blocks: seq<Block>, p: Projections)
    requires HashesUnique(d) && InsertAll(d, blocks, p).Ok?
    ensures HashesUnique(InsertAll(d, blocks, p).value)
  {
    hide InsertBlock, HashesUnique;
    if blocks != [] {
      InsertAllKeepsHashes(d, blocks[..|blocks| - 1], p);
      InsertKeepsHashes(InsertAll(d, blocks[..|blocks| - 1], p).value, blocks[|blocks| - 1], p);
    }
  }

  lemma RollbackKeepsHashes(d: Database, H: int)
    requires HashesUnique(d)
    ensures HashesUnique(Rollback(d, H))
  {
    hide KeepState;
  }

  /** After any transactions and rollbacks, a hash names at most one stored block. */
  lemma {:induction false} HashesStayUnique(ops: seq<Replay.Op>, p: Projections)
    requires Replay.RunOps(ops, p).Ok?
    ensures HashesUnique(Replay.RunOps(ops, p).value)
  {
    hide InsertAll, Rollback, HashesUnique;
    if ops == [] {
      NoHashes();
    } else {
      HashesStayUnique(ops[..|ops| - 1], p);
      var d := Replay.RunOps(ops[..|ops| - 1], p).value;
      match ops[|ops| - 1] {
        case Insert(blocks) => InsertAllKeepsHashes(d, blocks, p);
        case RollbackTo(h) => RollbackKeepsHashes(d, h);
      }
    }
  }

  lemma NoHashes()
    ensures HashesUnique(EMPTY)
  {}
}

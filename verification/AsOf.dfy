/** State as of a height: picking each key's newest row agrees with replaying the blocks up to it. */
module AsOf {
  import opened Wire
  import opened Tables
  import opened Storage
  import Landing
  import Replay
  import Heights

  // ------------------------------------------------------------------- reads

  ghost function HeightsOf<K, V>(m: Versioned<K, V>, k: K, at: int): set<int> {
    set key | key in m && key.0 == k && key.1 <= at :: key.1
  }

  /** `WHERE key = k AND height <= at ORDER BY height DESC LIMIT 1`. */
  ghost function Newest<K, V>(m: Versioned<K, V>, k: K, at: int): (r: Option<(int, V)>)
    ensures r.None? <==> forall h :: h <= at ==> (k, h) !in m
    ensures r.Some? ==> var h := r.value.0;
      h <= at && (k, h) in m && r.value.1 == m[(k, h)] && forall h' :: h < h' <= at ==> (k, h') !in m
  {
    var hs := HeightsOf(m, k, at);
    assert forall h :: h <= at && (k, h) in m ==> h in hs by {
      forall h | h <= at && (k, h) in m ensures h in hs { assert (k, h).1 in hs; }
    }
    if hs == {} then None else Some((Heights.Max(hs), m[(k, Heights.Max(hs))]))
  }

  /** `SELECT DISTINCT ON (key) ... WHERE height <= at ORDER BY key, height DESC`. */
  ghost function Current<K(!new), V>(m: Versioned<K, V>, at: int): (r: map<K, (int, V)>)
    ensures forall k :: Lookup(r, k) == Newest(m, k, at)
  {
    var names := set key | key in m && key.1 <= at :: key.0;
    assert forall k, h :: (k, h) in m && h <= at ==> k in names by {
      forall k, h | (k, h) in m && h <= at ensures k in names { assert (k, h).0 in names; }
    }
    map k | k in names && Newest(m, k, at).Some? :: Newest(m, k, at).value
  }

  /** Holdings and stakes are listed under their whole key, (asset, holder) and (master, validator). */
  datatype AccountView = AccountView(
    height: int, account: AccountEffect,
    assets: map<(string, string), (int, nat)>, stakes: map<(string, string), (int, Option<Json>)>)

  /** An account with its non-zero holdings and live stakes; zero and removed rows go after picking the newest. */
  ghost function AccountAt(s: State, address: string, at: int): Option<AccountView> {
    var assets, stakes := Current(s.assetBalances, at), Current(s.stakes, at);
    match Newest(s.accounts, address, at)
    case None => None
    case Some(account) => Some(AccountView(
      account.0, account.1,
      map k | k in assets && k.1 == address && assets[k].1 > 0 :: assets[k],
      map k | k in stakes && k.0 == address && stakes[k].1.Some? :: stakes[k]))
  }

  datatype HolderView = HolderView(balance: nat, height: int, state: Option<Json>, jurisdiction: Option<string>)

  function Jurisdiction(account: Option<(int, AccountEffect)>, read: Json -> Option<string>): Option<string> {
    if account.None? then None else read(account.value.1.entry)
  }

  predicate Listed(balance: (int, nat), account: Option<(int, AccountEffect)>, wanted: Option<string>, read: Json -> Option<string>) {
    balance.1 > 0 && (wanted.None? || Jurisdiction(account, read) == wanted)
  }

  function HolderRow(balance: (int, nat), state: Option<(int, Json)>, account: Option<(int, AccountEffect)>,
                     read: Json -> Option<string>): HolderView
  {
    HolderView(balance.1, balance.0, if state.None? then None else Some(state.value.1), Jurisdiction(account, read))
  }

  /** The holders of an asset with a non-zero balance, optionally of one jurisdiction. */
  ghost function HoldersAt(s: State, asset: string, at: int, wanted: Option<string>, read: Json -> Option<string>)
    : map<(string, string), HolderView>
  {
    var balances := Current(s.assetBalances, at);
    map k | k in balances && k.0 == asset && Listed(balances[k], Newest(s.accounts, k.1, at), wanted, read)
      :: HolderRow(balances[k], Newest(s.holderStates, k, at), Newest(s.accounts, k.1, at), read)
  }

  /**
   * Who holds an asset at a height, from the newest rows at or below it: whoever's balance row
   * holds more than nothing and, where a jurisdiction is wanted, whose account row reads as it;
   * with that balance and its height, that compliance state and that jurisdiction.
   */
  lemma HoldersAre(s: State, asset: string, at: int, wanted: Option<string>, read: Json -> Option<string>, holder: string)
    ensures var balance, account, state :=
        Newest(s.assetBalances, (asset, holder), at), Newest(s.accounts, holder, at), Newest(s.holderStates, (asset, holder), at);
      var x := HoldersAt(s, asset, at, wanted, read);
      && ((asset, holder) in x <==>
            && balance.Some? && balance.value.1 > 0
            && (wanted.Some? ==> account.Some? && read(account.value.1.entry) == wanted))
      && ((asset, holder) in x && balance.Some? ==>
            && x[(asset, holder)].balance == balance.value.1 && x[(asset, holder)].height == balance.value.0
            && x[(asset, holder)].state == (if state.Some? then Some(state.value.1) else None)
            && x[(asset, holder)].jurisdiction == (if account.Some? then read(account.value.1.entry) else None))
  {
    hide Newest;
    assert Lookup(Current(s.assetBalances, at), (asset, holder)) == Newest(s.assetBalances, (asset, holder), at);
  }

  ghost function AttestorsAt(s: State, at: int): map<string, (int, Option<Json>)> {
    var attestors := Current(s.attestors, at);
    map a | a in attestors && attestors[a].1.Some? :: attestors[a]
  }

  // ------------------------------------------------------ the reference state

  /** The chain's own state: one current value per key, with the height it was set at. */
  datatype World = World(
    accounts: map<string, (int, AccountEffect)>,
    balances: map<(string, string), (int, nat)>,
    holderStates: map<(string, string), (int, Json)>,
    stakes: map<(string, string), (int, Option<Json>)>,
    attestors: map<string, (int, Option<Json>)>)

  /** Applying updates in order: each overwrites what its key held. */
  function Overwrite<K(==), V>(w: map<K, (int, V)>, h: int, entries: seq<(K, V)>): map<K, (int, V)> {
    if entries == [] then w
    else Overwrite(w, h, entries[..|entries| - 1])[entries[|entries| - 1].0 := (h, entries[|entries| - 1].1)]
  }

  function ApplyBlock(w: World, b: Block): World {
    match b.effects
    case None => w
    case Some(e) => World(
      Overwrite(w.accounts, b.height, e.accounts),
      Overwrite(w.balances, b.height, e.assetBalances),
      Overwrite(w.holderStates, b.height, e.holderStates),
      Overwrite(w.stakes, b.height, e.stakes),
      Attest(w.attestors, b.height, e.attestorRegistrations, e.attestorDeregistrations))
  }

  /**
   * Attestors registered by a block are set to the first record it lists for them, removed ones to
   * none; the removal of an attestor the block registers too is ignored.
   */
  function Attest(w: map<string, (int, Option<Json>)>, h: int, registered: seq<(string, Json)>, removed: seq<string>)
    : map<string, (int, Option<Json>)>
  {
    var named := (set i | 0 <= i < |registered| :: registered[i].0) + (set a | a in removed);
    w + map a | a in named :: (h, if Registers(registered, a) then FirstFor(registered, a) else None)
  }

  predicate Registers(registered: seq<(string, Json)>, a: string) {
    exists i :: 0 <= i < |registered| && registered[i].0 == a
  }

  /** The state after the blocks of `live` up to height `at`. */
  function WorldAt(live: seq<Block>, at: int): World {
    if live == [] then World(map[], map[], map[], map[], map[])
    else
      var w := WorldAt(live[..|live| - 1], at);
      if live[|live| - 1].height <= at then ApplyBlock(w, live[|live| - 1]) else w
  }

  function AccountOf(w: World, address: string): Option<AccountView> {
    if address !in w.accounts then None
    else Some(AccountView(
      w.accounts[address].0, w.accounts[address].1,
      map k | k in w.balances && k.1 == address && w.balances[k].1 > 0 :: w.balances[k],
      map k | k in w.stakes && k.0 == address && w.stakes[k].1.Some? :: w.stakes[k]))
  }

  function HoldersOf(w: World, asset: string, wanted: Option<string>, read: Json -> Option<string>)
    : map<(string, string), HolderView>
  {
    map k | k in w.balances && k.0 == asset && Listed(w.balances[k], Lookup(w.accounts, k.1), wanted, read)
      :: HolderRow(w.balances[k], Lookup(w.holderStates, k), Lookup(w.accounts, k.1), read)
  }

  function AttestorsOf(w: World): map<string, (int, Option<Json>)> {
    map a | a in w.attestors && w.attestors[a].1.Some? :: w.attestors[a]
  }

  // ---------------------------------------------------------------- agreement

  ghost predicate UniqueKeys(b: Block) {
    b.effects.Some? ==> var e := b.effects.value;
      Unique(e.accounts) && Unique(e.assetBalances) && Unique(e.holderStates) && Unique(e.stakes)
  }

  /** The table and the reference agree: each key's newest row up to `at` is its current value. */
  ghost predicate Agrees<K(!new), V>(m: Versioned<K, V>, at: int, w: map<K, (int, V)>) {
    forall k :: Newest(m, k, at) == Lookup(w, k)
  }

  lemma {:induction false} OverwriteIs<K, V>(w: map<K, (int, V)>, h: int, entries: seq<(K, V)>, all: seq<(K, V)>, k: K)
    requires Unique(all) && entries <= all
    ensures Lookup(Overwrite(w, h, entries), k) ==
      if Mentions(entries, k) then Some((h, FirstFor(all, k).value)) else Lookup(w, k)
  {
    if entries != [] {
      var front, last := entries[..|entries| - 1], entries[|entries| - 1];
      OverwriteIs(w, h, front, all, k);
      FirstIsOnly(all, |entries| - 1);
      assert Mentions(entries, k) <==> Mentions(front, k) || last.0 == k by {
        if Mentions(front, k) {
          var i :| 0 <= i < |front| && front[i].0 == k;
          assert entries[i].0 == k;
        }
        if Mentions(entries, k) && last.0 != k {
          var i :| 0 <= i < |entries| && entries[i].0 == k;
          assert front[i].0 == k;
        }
        if last.0 == k { assert entries[|entries| - 1].0 == k; }
      }
      if Mentions(front, k) {
        var i :| 0 <= i < |front| && front[i].0 == k;
        assert all[i].0 == k;
        assert Mentions(all, k);
      }
    }
  }

  /** One block: inserting rows first-wins at a fresh height agrees with overwriting in order. */
  lemma PutAgrees<K(!new), V>(m: Versioned<K, V>, h: int, entries: seq<(K, V)>, at: int, w: map<K, (int, V)>)
    requires Agrees(m, at, w) && VersionedBelow(m, h - 1) && Unique(entries)
    ensures Agrees(PutVersioned(m, h, entries), at, if h <= at then Overwrite(w, h, entries) else w)
  {
    hide Overwrite;
    forall k { OverwriteIs(w, h, entries, entries, k); }
    PutAgreesFirst(m, h, entries, at, w, Overwrite(w, h, entries));
  }

  /** `after` sets each key the entries mention to its first entry and leaves the others. */
  ghost predicate SetsFirst<K(!new), V>(w: map<K, (int, V)>, h: int, entries: seq<(K, V)>, after: map<K, (int, V)>) {
    forall k :: Lookup(after, k) == if FirstFor(entries, k).Some? then Some((h, FirstFor(entries, k).value)) else Lookup(w, k)
  }

  lemma PutAgreesFirst<K(!new), V>(m: Versioned<K, V>, h: int, entries: seq<(K, V)>, at: int, w: map<K, (int, V)>,
                                   after: map<K, (int, V)>)
    requires Agrees(m, at, w) && VersionedBelow(m, h - 1) && SetsFirst(w, h, entries, after)
    ensures Agrees(PutVersioned(m, h, entries), at, if h <= at then after else w)
  {
    var m' := PutVersioned(m, h, entries);
    var w' := if h <= at then after else w;
    forall k ensures Newest(m', k, at) == Lookup(w', k) {
      assert Newest(m, k, at) == Lookup(w, k);
      if (k, h) in m' { assert (k, h) !in m; }
    }
  }

  lemma AttestSetsFirst(w: map<string, (int, Option<Json>)>, h: int, e: BlockEffects)
    ensures SetsFirst(w, h, AttestorEntries(e), Attest(w, h, e.attestorRegistrations, e.attestorDeregistrations))
  {
    hide FirstFor, AttestorEntries;
    var after := Attest(w, h, e.attestorRegistrations, e.attestorDeregistrations);
    forall a
      ensures Lookup(after, a) ==
        if FirstFor(AttestorEntries(e), a).Some? then Some((h, FirstFor(AttestorEntries(e), a).value)) else Lookup(w, a)
    {
      Landing.AttestorFirst(e, a);
    }
  }

  ghost predicate StateAgrees(s: State, at: int, w: World) {
    && Agrees(s.accounts, at, w.accounts)
    && Agrees(s.assetBalances, at, w.balances)
    && Agrees(s.holderStates, at, w.holderStates)
    && Agrees(s.stakes, at, w.stakes)
    && Agrees(s.attestors, at, w.attestors)
  }

  lemma InsertStateAgrees(s: State, h: int, e: BlockEffects, at: int, w: World, b: Block)
    requires StateAgrees(s, at, w) && StateBelow(s, h - 1) && UniqueKeys(b) && b.effects == Some(e) && b.height == h
    ensures StateAgrees(InsertState(s, h, e), at, if h <= at then ApplyBlock(w, b) else w)
  {
    PutAgrees(s.accounts, h, e.accounts, at, w.accounts);
    PutAgrees(s.assetBalances, h, e.assetBalances, at, w.balances);
    PutAgrees(s.holderStates, h, e.holderStates, at, w.holderStates);
    PutAgrees(s.stakes, h, e.stakes, at, w.stakes);
    AttestSetsFirst(w.attestors, h, e);
    PutAgreesFirst(s.attestors, h, AttestorEntries(e), at, w.attestors,
                   Attest(w.attestors, h, e.attestorRegistrations, e.attestorDeregistrations));
  }

  lemma {:induction false} ReplayAgrees(live: seq<Block>, p: Projections, at: int)
    requires Replay.Ascending(live) && InsertAll(EMPTY, live, p).Ok? && forall i :: 0 <= i < |live| ==> UniqueKeys(live[i])
    ensures StateAgrees(InsertAll(EMPTY, live, p).value.index.state, at, WorldAt(live, at))
  {
    hide InsertHistory, InsertState, StateAgrees, StateBelow, HistoryBelow, UniqueKeys, ApplyBlock, ProjectCreations;
    if live == [] {
      EmptyAgrees(at);
    } else {
      var front, b := live[..|live| - 1], live[|live| - 1];
      ReplayAgrees(front, p, at);
      Replay.EmptyGood();
      Replay.InsertAllGood(EMPTY, front, p);
      var d := InsertAll(EMPTY, front, p).value;
      Replay.RaiseBelow(d.index, Replay.Top(d), b.height - 1);
      if b.effects.Some? {
        InsertStateAgrees(d.index.state, b.height, b.effects.value, at, WorldAt(front, at), b);
      } else {
        assert ApplyBlock(WorldAt(front, at), b) == WorldAt(front, at) by { NoEffects(WorldAt(front, at), b); }
      }
    }
  }

  lemma EmptyAgrees(at: int)
    ensures StateAgrees(EMPTY_STATE, at, WorldAt([], at))
  {}

  lemma NoEffects(w: World, b: Block)
    requires b.effects.None?
    ensures ApplyBlock(w, b) == w
  {}

  lemma AgreeingCurrent<K(!new), V>(m: Versioned<K, V>, at: int, w: map<K, (int, V)>)
    requires Agrees(m, at, w)
    ensures Current(m, at) == w
  {
    var c := Current(m, at);
    assert forall k :: Lookup(c, k) == Lookup(w, k) by {
      forall k ensures Lookup(c, k) == Lookup(w, k) { assert Newest(m, k, at) == Lookup(w, k); }
    }
    assert forall k :: k in c <==> k in w by {
      forall k ensures k in c <==> k in w { assert Lookup(c, k) == Lookup(w, k); }
    }
    assert forall k :: k in c ==> c[k] == w[k] by {
      forall k | k in c ensures c[k] == w[k] { assert Lookup(c, k) == Lookup(w, k); }
    }
  }

  lemma AgreeingReads(s: State, at: int, w: World, address: string, asset: string,
                      wanted: Option<string>, read: Json -> Option<string>)
    requires StateAgrees(s, at, w)
    ensures AccountAt(s, address, at) == AccountOf(w, address)
    ensures HoldersAt(s, asset, at, wanted, read) == HoldersOf(w, asset, wanted, read)
    ensures AttestorsAt(s, at) == AttestorsOf(w)
  {
    hide AccountAt, HoldersAt, AccountOf, HoldersOf, Agrees;
    SameAccount(s, at, w, address);
    SameHolders(s, at, w, asset, wanted, read);
    AgreeingCurrent(s.attestors, at, w.attestors);
  }

  lemma SameAccount(s: State, at: int, w: World, address: string)
    requires StateAgrees(s, at, w)
    ensures AccountAt(s, address, at) == AccountOf(w, address)
  {
    hide Current, Newest, Agrees;
    AgreeingCurrent(s.assetBalances, at, w.balances);
    AgreeingCurrent(s.stakes, at, w.stakes);
    AgreeingKey(s.accounts, at, w.accounts, address);
  }

  lemma AgreeingKey<K(!new), V>(m: Versioned<K, V>, at: int, w: map<K, (int, V)>, k: K)
    requires Agrees(m, at, w)
    ensures Newest(m, k, at) == Lookup(w, k)
  {}

  lemma SameHolders(s: State, at: int, w: World, asset: string, wanted: Option<string>, read: Json -> Option<string>)
    requires StateAgrees(s, at, w)
    ensures HoldersAt(s, asset, at, wanted, read) == HoldersOf(w, asset, wanted, read)
  {
    hide Current, Newest, Agrees, Listed, HolderRow, Lookup;
    AgreeingCurrent(s.assetBalances, at, w.balances);
    var x, y := HoldersAt(s, asset, at, wanted, read), HoldersOf(w, asset, wanted, read);
    forall k: (string, string)
      ensures k in x <==> k in y
      ensures k in x && k in y ==> x[k] == y[k]
    {
      AgreeingKey(s.accounts, at, w.accounts, k.1);
      AgreeingKey(s.holderStates, at, w.holderStates, k);
    }
  }

  /**
   * The as-of reads. On a database that replays `live`, what the account, holder and attestor
   * reads answer for height `at` is what replaying the blocks up to `at` leaves.
   */
  lemma AsOfIsReplay(d: Database, live: seq<Block>, p: Projections, at: int, address: string, asset: string,
                     wanted: Option<string>, read: Json -> Option<string>)
    requires Replay.Replays(d, live, p) && forall i :: 0 <= i < |live| ==> UniqueKeys(live[i])
    ensures AccountAt(d.index.state, address, at) == AccountOf(WorldAt(live, at), address)
    ensures HoldersAt(d.index.state, asset, at, wanted, read) == HoldersOf(WorldAt(live, at), asset, wanted, read)
    ensures AttestorsAt(d.index.state, at) == AttestorsOf(WorldAt(live, at))
  {
    hide InsertIndex, Replay.Good, StateAgrees, UniqueKeys;
    ReplayAgrees(live, p, at);
    AgreeingReads(d.index.state, at, WorldAt(live, at), address, asset, wanted, read);
  }

  // ------------------------------------------------------------------- frames

  /** The tables hold the same rows up to `at`. */
  ghost predicate SameUpto<K(!new), V>(m: Versioned<K, V>, n: Versioned<K, V>, at: int) {
    forall k, h :: h <= at ==> ((k, h) in m <==> (k, h) in n) && ((k, h) in m ==> m[(k, h)] == n[(k, h)])
  }

  lemma SameNewest<K(!new), V>(m: Versioned<K, V>, n: Versioned<K, V>, at: int)
    requires SameUpto(m, n, at)
    ensures Agrees(m, at, Current(n, at)) && Current(m, at) == Current(n, at)
  {
    hide SameUpto, Newest, Current;
    forall k ensures Newest(m, k, at) == Lookup(Current(n, at), k) { SameNewestFor(m, n, at, k); }
    AgreeingCurrent(m, at, Current(n, at));
  }

  lemma SameNewestFor<K(!new), V>(m: Versioned<K, V>, n: Versioned<K, V>, at: int, k: K)
    requires SameUpto(m, n, at)
    ensures Newest(m, k, at) == Newest(n, k, at)
  {
    hide Newest;
    var a, b := Newest(m, k, at), Newest(n, k, at);
    if a.Some? { assert (k, a.value.0) in n; }
    if b.Some? { assert (k, b.value.0) in m; }
  }

  ghost predicate StateSameUpto(s: State, t: State, at: int) {
    && SameUpto(s.accounts, t.accounts, at)
    && SameUpto(s.assetBalances, t.assetBalances, at)
    && SameUpto(s.holderStates, t.holderStates, at)
    && SameUpto(s.stakes, t.stakes, at)
    && SameUpto(s.attestors, t.attestors, at)
  }

  lemma SameReads(s: State, t: State, at: int, address: string, asset: string, wanted: Option<string>, read: Json -> Option<string>)
    requires StateSameUpto(s, t, at)
    ensures AccountAt(s, address, at) == AccountAt(t, address, at)
    ensures HoldersAt(s, asset, at, wanted, read) == HoldersAt(t, asset, at, wanted, read)
    ensures AttestorsAt(s, at) == AttestorsAt(t, at)
  {
    hide SameUpto, Current, Newest, AccountAt, HoldersAt, AttestorsAt, AccountOf, HoldersOf, AttestorsOf, Agrees;
    var w := World(Current(t.accounts, at), Current(t.assetBalances, at), Current(t.holderStates, at),
                   Current(t.stakes, at), Current(t.attestors, at));
    SameNewest(s.accounts, t.accounts, at);
    SameNewest(s.assetBalances, t.assetBalances, at);
    SameNewest(s.holderStates, t.holderStates, at);
    SameNewest(s.stakes, t.stakes, at);
    SameNewest(s.attestors, t.attestors, at);
    AgreeingReads(s, at, w, address, asset, wanted, read);
    OwnCurrent(t, at);
    AgreeingReads(t, at, w, address, asset, wanted, read);
  }

  lemma OwnCurrent(t: State, at: int)
    ensures StateAgrees(t, at, World(Current(t.accounts, at), Current(t.assetBalances, at), Current(t.holderStates, at),
                                     Current(t.stakes, at), Current(t.attestors, at)))
  {
    hide Newest, Current;
  }

  /**
   * Past heights are settled: a block inserted above `at`, and a rollback to `at` or higher, change
   * no answer for `at` - whatever the tables hold and whatever keys the block repeats.
   */
  lemma AsOfIsSettled(s: State, at: int, h: int, e: BlockEffects, H: int, address: string, asset: string,
                      wanted: Option<string>, read: Json -> Option<string>)
    requires at < h && at <= H
    ensures AccountAt(InsertState(s, h, e), address, at) == AccountAt(s, address, at) == AccountAt(KeepState(s, H), address, at)
    ensures HoldersAt(InsertState(s, h, e), asset, at, wanted, read) == HoldersAt(s, asset, at, wanted, read)
      == HoldersAt(KeepState(s, H), asset, at, wanted, read)
    ensures AttestorsAt(InsertState(s, h, e), at) == AttestorsAt(s, at) == AttestorsAt(KeepState(s, H), at)
  {
    hide InsertState, KeepState, AccountAt, HoldersAt, AttestorsAt;
    InsertSameUpto(s, h, e, at);
    KeepSameUpto(s, H, at);
    SameReads(InsertState(s, h, e), s, at, address, asset, wanted, read);
    SameReads(KeepState(s, H), s, at, address, asset, wanted, read);
  }

  lemma PutSameUpto<K(!new), V>(m: Versioned<K, V>, h: int, entries: seq<(K, V)>, at: int)
    requires at < h
    ensures SameUpto(PutVersioned(m, h, entries), m, at)
  {}

  lemma InsertSameUpto(s: State, h: int, e: BlockEffects, at: int)
    requires at < h
    ensures StateSameUpto(InsertState(s, h, e), s, at)
  {
    hide SameUpto;
    PutSameUpto(s.accounts, h, e.accounts, at);
    PutSameUpto(s.assetBalances, h, e.assetBalances, at);
    PutSameUpto(s.holderStates, h, e.holderStates, at);
    PutSameUpto(s.stakes, h, e.stakes, at);
    PutSameUpto(s.attestors, h, AttestorEntries(e), at);
  }

  lemma KeepSame<K(!new), V>(m: Versioned<K, V>, H: int, at: int)
    requires at <= H
    ensures SameUpto(KeepVersioned(m, H), m, at)
  {}

  lemma KeepSameUpto(s: State, H: int, at: int)
    requires at <= H
    ensures StateSameUpto(KeepState(s, H), s, at)
  {
    hide SameUpto;
    KeepSame(s.accounts, H, at);
    KeepSame(s.assetBalances, H, at);
    KeepSame(s.holderStates, H, at);
    KeepSame(s.stakes, H, at);
    KeepSame(s.attestors, H, at);
  }
}

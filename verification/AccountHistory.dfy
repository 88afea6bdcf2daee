/** The account and token history pages over the stored tables. */
module AccountHistory {
  import opened Wire
  import opened Storage
  import opened Tables
  import opened Replay
  import opened Identities
  import opened Order
  import opened Paging

  /** Newest first: heights and positions are negated so that ascending keys read newest to oldest. */
  function Newest(height: int, index: int, id: string): Key {
    Key(-height, -index, id)
  }

  /** The sender branch joins on the action and orders by the sender row's own height. */
  ghost function SenderBranch(x: History, address: string): set<Key> {
    set r | r in x.accountActions && r.0.0 == address && r.0.1 in x.actions
      :: Newest(r.1, x.actions[r.0.1].row.index, r.0.1)
  }

  ghost function RoleBranch(x: History, address: string, role: string): set<Key> {
    set r | r in x.actionAddresses && r.1 == address && r.2 == role && r.0 in x.actions
      :: Newest(x.actionAddresses[r].height, x.actions[r.0].row.index, r.0)
  }

  ghost function Branch(x: History, address: string, role: string): set<Key> {
    if role == "from" then SenderBranch(x, address)
    else RoleBranch(x, address, if role == "payload_from" then "from" else role)
  }

  /** `(height, index) < before`, in key order. */
  predicate PastPosition(k: Key, before: Option<(int, int)>) {
    before.None? || k.height > -before.value.0 || (k.height == -before.value.0 && k.index > -before.value.1)
  }

  ghost function Cut(s: set<Key>, before: Option<(int, int)>): set<Key> {
    set k | k in s && PastPosition(k, before)
  }

  ghost function Branches(x: History, address: string, roles: seq<string>, before: Option<(int, int)>): seq<set<Key>> {
    seq(|roles|, i requires 0 <= i < |roles| => Cut(Branch(x, address, roles[i]), before))
  }

  /** A joined row is returned, deduplicated and ordered as the action row itself. */
  ghost function Own(x: History, keys: set<Key>): set<Key> {
    set k | k in keys && k.name in x.actions :: Newest(x.actions[k.name].height, x.actions[k.name].row.index, k.name)
  }

  ghost function AccountPage(x: History, address: string, limit: nat, before: Option<(int, int)>, roles: seq<string>): seq<Key> {
    var roles' := if roles == [] then ["from"] else roles;
    First(Own(x, Tops(Branches(x, address, roles', before), limit)), limit)
  }

  /** The action key `k` stands for. */
  ghost predicate IsOwn(x: History, k: Key) {
    k.name in x.actions && k == Newest(x.actions[k.name].height, x.actions[k.name].row.index, k.name)
  }

  lemma BranchesAreOwn(branches: seq<set<Key>>, x: History)
    requires forall i, k :: 0 <= i < |branches| && k in branches[i] ==> IsOwn(x, k)
    ensures forall k :: k in All(branches) ==> IsOwn(x, k)
  {
    if branches != [] {
      assert forall i, k :: 0 <= i < |branches[1..]| && k in branches[1..][i] ==> k in branches[i + 1];
      BranchesAreOwn(branches[1..], x);
    }
  }

  lemma OwnIsSame(x: History, keys: set<Key>)
    requires forall k :: k in keys ==> IsOwn(x, k)
    ensures Own(x, keys) == keys
  {
    forall k ensures k in Own(x, keys) <==> k in keys {
      if k in keys {
        assert IsOwn(x, k);
        assert k.name in x.actions;
      }
    }
  }

  /**
   * With identities used once, the page built from per-role limits is the first `limit` of every
   * action the account has in any of the roles, newest first, each listed once.
   */
  lemma AccountPageIsMerged(x: History, address: string, limit: nat, before: Option<(int, int)>, roles: seq<string>)
    requires OwnHeights(x) && roles != []
    ensures AccountPage(x, address, limit, before, roles) == First(All(Branches(x, address, roles, before)), limit)
  {
    var branches := Branches(x, address, roles, before);
    forall i, k | 0 <= i < |branches| && k in branches[i] ensures IsOwn(x, k) {
      assert k in Branch(x, address, roles[i]);
    }
    BranchesAreOwn(branches, x);
    TopsAreRows(branches, limit);
    OwnIsSame(x, Tops(branches, limit));
    MergedPage(branches, limit);
  }

  /**
   * The account holds the role in the action: as its sender, by a sender row; in any other role the
   * extractor found, by a role row - a payload's own `from` going by the name `payload_from`.
   */
  ghost predicate HasRole(x: History, address: string, role: string, id: string) {
    if role == "from" then exists h :: ((address, id), h) in x.accountActions
    else (id, address, if role == "payload_from" then "from" else role) in x.actionAddresses
  }

  /** The action's position is before the cursor's, if there is one. */
  predicate Earlier(a: At<ActionRow>, before: Option<(int, int)>) {
    before.None? || a.height < before.value.0 || (a.height == before.value.0 && a.row.index < before.value.1)
  }

  /** The actions the account holds any of the roles in, before the cursor: newest first as sort keys. */
  ghost function Held(x: History, address: string, before: Option<(int, int)>, roles: seq<string>): set<Key> {
    set id | id in x.actions && Earlier(x.actions[id], before) && (exists i :: 0 <= i < |roles| && HasRole(x, address, roles[i], id))
      :: Key(-x.actions[id].height, -(x.actions[id].row.index as int), id)
  }

  /**
   * What an account page is, told from the tables: with identities used once, the first `limit`
   * actions, newest first, in which the account has any of the roles - as the sender, if no role
   * is asked for - and whose position is before the cursor.
   */
  lemma AccountPageIs(x: History, address: string, limit: nat, before: Option<(int, int)>, roles: seq<string>)
    requires OwnHeights(x)
    ensures AccountPage(x, address, limit, before, roles)
      == First(Held(x, address, before, if roles == [] then ["from"] else roles), limit)
  {
    hide First, OwnHeights, Branch, Held;
    var asked := if roles == [] then ["from"] else roles;
    AccountPageIsMerged(x, address, limit, before, asked);
    var all := All(Branches(x, address, asked, before));
    forall k ensures k in all <==> k in Held(x, address, before, asked) {
      InAll(Branches(x, address, asked, before), k);
      HeldIs(x, address, before, asked, k);
    }
    assert all == Held(x, address, before, asked);
  }

  lemma {:induction false} InAll(branches: seq<set<Key>>, k: Key)
    ensures k in All(branches) <==> exists i :: 0 <= i < |branches| && k in branches[i]
  {
    if branches != [] {
      InAll(branches[1..], k);
      if i :| 0 <= i < |branches[1..]| && k in branches[1..][i] { assert k in branches[i + 1]; }
      if i :| 0 <= i < |branches| && k in branches[i] { assert i > 0 ==> k in branches[1..][i - 1]; }
    }
  }

  lemma HeldIs(x: History, address: string, before: Option<(int, int)>, roles: seq<string>, k: Key)
    requires OwnHeights(x)
    ensures k in Held(x, address, before, roles)
      <==> exists i :: 0 <= i < |roles| && k in Branches(x, address, roles, before)[i]
  {
    hide OwnHeights, HasRole, Earlier, Branch, Cut;
    forall i | 0 <= i < |roles|
      ensures k in Branches(x, address, roles, before)[i] <==>
        IsOwn(x, k) && HasRole(x, address, roles[i], k.name) && Earlier(x.actions[k.name], before)
    {
      BranchHolds(x, address, roles[i], before, k);
    }
  }

  lemma BranchHolds(x: History, address: string, role: string, before: Option<(int, int)>, k: Key)
    requires OwnHeights(x)
    ensures k in Cut(Branch(x, address, role), before)
      <==> IsOwn(x, k) && HasRole(x, address, role, k.name) && Earlier(x.actions[k.name], before)
  {
    if IsOwn(x, k) && HasRole(x, address, role, k.name) {
      if role == "from" {
        var h :| ((address, k.name), h) in x.accountActions;
        SenderRow(x, ((address, k.name), h));
      } else {
        RoleRow(x, (k.name, address, if role == "payload_from" then "from" else role));
      }
    }
  }

  // ------------------------------------------------------------------ cursors

  lemma AllCut(x: History, address: string, roles: seq<string>, before: Option<(int, int)>)
    ensures All(Branches(x, address, roles, before)) == Cut(All(Branches(x, address, roles, None)), before)
  {
    hide Branch;
    var cut, whole := Branches(x, address, roles, before), Branches(x, address, roles, None);
    if roles != [] {
      assert cut[1..] == Branches(x, address, roles[1..], before);
      assert whole[1..] == Branches(x, address, roles[1..], None);
      AllCut(x, address, roles[1..], before);
    }
  }

  /** Every action the account has in any of the roles, newest first. */
  ghost function AccountKeys(x: History, address: string, roles: seq<string>): set<Key> {
    All(Branches(x, address, roles, None))
  }

  lemma BranchIsOwn(x: History, address: string, role: string, k: Key)
    requires OwnHeights(x) && k in Branch(x, address, role)
    ensures IsOwn(x, k)
  {}

  lemma KeysAreOwn(x: History, address: string, roles: seq<string>)
    requires OwnHeights(x)
    ensures forall k :: k in AccountKeys(x, address, roles) ==> IsOwn(x, k)
  {
    hide Branch, IsOwn, OwnHeights;
    var branches := Branches(x, address, roles, None);
    forall i, k | 0 <= i < |branches| && k in branches[i] ensures IsOwn(x, k) {
      assert k in Branch(x, address, roles[i]);
      BranchIsOwn(x, address, roles[i], k);
    }
    BranchesAreOwn(branches, x);
  }

  /** With unique positions, cutting at the last row's (height, index) is cutting at its whole key. */
  lemma CutIsPast(x: History, keys: set<Key>, last: Key)
    requires PositionsUnique(x) && IsOwn(x, last) && forall k :: k in keys ==> IsOwn(x, k)
    ensures Cut(keys, Some((-last.height, -last.index))) == Past(keys, last)
  {
    forall k | k in keys ensures PastPosition(k, Some((-last.height, -last.index))) <==> Less(last, k) {
      Total(last, k);
      if k.height == last.height && k.index == last.index {
        assert SamePosition(x.actions[k.name], x.actions[last.name]);
        assert k.name == last.name;
      }
    }
  }

  /** The cursor a client sends next: the last row's position, as the response carries it. */
  function NextCursor(read: seq<Key>): Option<(int, int)> {
    if read == [] then None else Some((-read[|read| - 1].height, -read[|read| - 1].index))
  }

  lemma AccountCursor(x: History, address: string, limit: nat, roles: seq<string>, read: seq<Key>)
    requires OwnHeights(x) && PositionsUnique(x) && roles != []
    requires read != [] ==> IsOwn(x, read[|read| - 1])
    ensures AccountPage(x, address, limit, NextCursor(read), roles) == Page(AccountKeys(x, address, roles), read, limit)
  {
    hide Branches, First, IsOwn, OwnHeights, PositionsUnique;
    var keys := AccountKeys(x, address, roles);
    AccountPageIsMerged(x, address, limit, NextCursor(read), roles);
    AllCut(x, address, roles, NextCursor(read));
    KeysAreOwn(x, address, roles);
    if read == [] {
      assert Cut(keys, None) == keys;
    } else {
      CutIsPast(x, keys, read[|read| - 1]);
    }
  }

  /** What a client reads by following the cursor, one request per state of the tables. */
  ghost function FollowAccount(tables: seq<History>, address: string, limit: nat, roles: seq<string>): seq<Key> {
    if tables == [] then []
    else
      var read := FollowAccount(tables[..|tables| - 1], address, limit, roles);
      read + AccountPage(tables[|tables| - 1], address, limit, NextCursor(read), roles)
  }

  ghost function KeysOf(tables: seq<History>, address: string, roles: seq<string>): seq<set<Key>> {
    seq(|tables|, i requires 0 <= i < |tables| => AccountKeys(tables[i], address, roles))
  }

  /** Following the account cursor is following the keyset cursor, so nothing is skipped or repeated. */
  lemma {:induction false} AccountFollow(tables: seq<History>, address: string, limit: nat, roles: seq<string>, s: set<Key>)
    requires forall i :: 0 <= i < |tables| ==> OwnHeights(tables[i]) && PositionsUnique(tables[i])
    requires GrowsInFront(KeysOf(tables, address, roles), s) && s != {} && limit > 0 && roles != []
    ensures FollowAccount(tables, address, limit, roles) == Sort(s)[..Reach(|tables|, limit, |s|)]
  {
    hide OwnHeights, PositionsUnique, AccountKeys, AccountPage, Page, IsOwn, Less, Sort;
    var keys := KeysOf(tables, address, roles);
    FollowReadsAll(keys, s, limit);
    if tables != [] {
      var m := |tables| - 1;
      var front, x := tables[..m], tables[m];
      assert KeysOf(front, address, roles) == keys[..m];
      AccountFollow(front, address, limit, roles, s);
      FollowReadsAll(keys[..m], s, limit);
      var read := FollowAccount(front, address, limit, roles);
      if read != [] {
        assert read[|read| - 1] in Elements(Sort(s));
        assert read[|read| - 1] in keys[m];
        KeysAreOwn(x, address, roles);
      }
      AccountCursor(x, address, limit, roles, read);
    }
  }

  // ------------------------------------------------- appending between requests

  lemma SenderRow(x: History, r: ((string, string), int))
    ensures r in x.accountActions && r.0.1 in x.actions ==>
      Newest(r.1, x.actions[r.0.1].row.index, r.0.1) in SenderBranch(x, r.0.0)
  {}

  lemma RoleRow(x: History, r: (string, string, string))
    ensures r in x.actionAddresses && r.0 in x.actions ==>
      Newest(x.actionAddresses[r].height, x.actions[r.0].row.index, r.0) in RoleBranch(x, r.1, r.2)
  {}

  lemma EventRow(x: History, id: string)
    ensures id in x.tokenEvents ==>
      Key(-x.tokenEvents[id].height, 0, id) in TokenRowsOf(x, x.tokenEvents[id].row.body.token, None)
  {}

  lemma SenderGrows(x: History, y: History, h: int, address: string, k: Key)
    requires HistoryGrows(x, y, h) && OwnHeights(x)
    ensures k in SenderBranch(x, address) ==> k in SenderBranch(y, address)
    ensures k in SenderBranch(y, address) && k !in SenderBranch(x, address) ==> k.height == -h
  {
    if k in SenderBranch(y, address) && k !in SenderBranch(x, address) {
      var r :| r in y.accountActions && r.0.0 == address && r.0.1 in y.actions
        && k == Newest(r.1, y.actions[r.0.1].row.index, r.0.1);
      SenderRow(x, r);
    }
    if k in SenderBranch(x, address) {
      var r :| r in x.accountActions && r.0.0 == address && r.0.1 in x.actions
        && k == Newest(r.1, x.actions[r.0.1].row.index, r.0.1);
      assert r in y.accountActions && r.0.1 in y.actions;
    }
  }

  lemma RoleGrows(x: History, y: History, h: int, address: string, role: string, k: Key)
    requires HistoryGrows(x, y, h) && OwnHeights(x)
    ensures k in RoleBranch(x, address, role) ==> k in RoleBranch(y, address, role)
    ensures k in RoleBranch(y, address, role) && k !in RoleBranch(x, address, role) ==> k.height == -h
  {
    if k in RoleBranch(y, address, role) && k !in RoleBranch(x, address, role) {
      var r :| r in y.actionAddresses && r.1 == address && r.2 == role && r.0 in y.actions
        && k == Newest(y.actionAddresses[r].height, y.actions[r.0].row.index, r.0);
      RoleRow(x, r);
    }
    if k in RoleBranch(x, address, role) {
      var r :| r in x.actionAddresses && r.1 == address && r.2 == role && r.0 in x.actions
        && k == Newest(x.actionAddresses[r].height, x.actions[r.0].row.index, r.0);
      assert r in y.actionAddresses && r.0 in y.actions;
    }
  }

  lemma AccountGrows(x: History, y: History, h: int, address: string, roles: seq<string>, k: Key)
    requires HistoryGrows(x, y, h) && OwnHeights(x)
    ensures k in AccountKeys(x, address, roles) ==> k in AccountKeys(y, address, roles)
    ensures k in AccountKeys(y, address, roles) && k !in AccountKeys(x, address, roles) ==> k.height == -h
  {
    hide HistoryGrows, OwnHeights, SenderBranch, RoleBranch;
    if roles != [] {
      var a, b := Branches(x, address, roles, None), Branches(y, address, roles, None);
      assert a[1..] == Branches(x, address, roles[1..], None);
      assert b[1..] == Branches(y, address, roles[1..], None);
      AccountGrows(x, y, h, address, roles[1..], k);
      SenderGrows(x, y, h, address, k);
      RoleGrows(x, y, h, address, if roles[0] == "payload_from" then "from" else roles[0], k);
      assert k in a[0] <==> k in Branch(x, address, roles[0]);
      assert k in b[0] <==> k in Branch(y, address, roles[0]);
    }
  }

  lemma AppendIsOwn(d: Database, live: seq<Block>, blocks: seq<Block>, p: Projections)
    requires Replays(d, live, p) && Ascending(blocks) && Above(blocks, Top(d)) && InsertAll(d, blocks, p).Ok?
    requires IdentitiesUnique(live + blocks)
    ensures var y := InsertAll(d, blocks, p).value.index.history; OwnHeights(y) && PositionsUnique(y)
  {
    hide InsertIndex, IdentitiesUnique, OwnHeights, PositionsUnique, Good;
    InsertReplays(d, live, blocks, p);
    ReplayIsOwn(live + blocks, p);
  }

  /** Blocks appended above the tip only put rows in front of those already there. */
  lemma {:induction false} AccountKeysGrow(d: Database, live: seq<Block>, blocks: seq<Block>, p: Projections,
                                           address: string, roles: seq<string>)
    requires Replays(d, live, p) && Ascending(blocks) && Above(blocks, Top(d)) && InsertAll(d, blocks, p).Ok?
    requires IdentitiesUnique(live + blocks)
    ensures var x, y := d.index.history, InsertAll(d, blocks, p).value.index.history;
      InFront(AccountKeys(x, address, roles), AccountKeys(y, address, roles), Top(d))
  {
    hide InsertIndex, IdentitiesUnique, OwnHeights, PositionsUnique, AccountKeys, Replays, Top;
    if blocks != [] {
      var front, b := blocks[..|blocks| - 1], blocks[|blocks| - 1];
      assert live + blocks == (live + front) + [b];
      FewerIdentities(live + front, b);
      AccountKeysGrow(d, live, front, p, address, roles);
      AppendIsOwn(d, live, front, p);
      AccountStep(InsertAll(d, front, p).value.index, b, p, address, roles, AccountKeys(d.index.history, address, roles), Top(d));
    }
  }

  /** The keys beyond `s` are all of blocks above `top`. */
  ghost predicate InFront(s: set<Key>, t: set<Key>, top: int) {
    s <= t && forall k :: k in t && k !in s ==> k.height < -top
  }

  lemma AccountStep(z: Index, b: Block, p: Projections, address: string, roles: seq<string>, s: set<Key>, top: int)
    requires OwnHeights(z.history) && InFront(s, AccountKeys(z.history, address, roles), top) && b.height > top
    ensures InFront(s, AccountKeys(InsertIndex(z, b, p).history, address, roles), top)
  {
    hide InsertIndex, InsertHistory, OwnHeights, AccountKeys, HistoryGrows, GrowsVersioned;
    var y, h: int := InsertIndex(z, b, p).history, b.height;
    InsertGrows(z, b, p);
    forall k ensures k in AccountKeys(z.history, address, roles) ==> k in AccountKeys(y, address, roles)
      ensures k in AccountKeys(y, address, roles) && k !in AccountKeys(z.history, address, roles) ==> k.height == -h
    {
      AccountGrows(z.history, y, h, address, roles, k);
    }
  }

  lemma OldKeysAreOld(d: Database, address: string, roles: seq<string>)
    requires Good(d) && OwnHeights(d.index.history)
    ensures forall k :: k in AccountKeys(d.index.history, address, roles) ==> k.height >= -Top(d)
  {
    hide AccountKeys;
    KeysAreOwn(d.index.history, address, roles);
  }

  /** The tables after the first `seen[i]` of `blocks` were committed, one state per request. */
  ghost function States(d: Database, blocks: seq<Block>, seen: seq<nat>, p: Projections): seq<History>
    requires forall i :: 0 <= i < |seen| ==> seen[i] <= |blocks| && InsertAll(d, blocks[..seen[i]], p).Ok?
  {
    seq(|seen|, i requires 0 <= i < |seen| => InsertAll(d, blocks[..seen[i]], p).value.index.history)
  }

  /**
   * Account history. A client follows the (height, index) cursor of the merged account page while
   * the indexer appends blocks between requests. With identities used once, it reads every action
   * that was there at its first request, newest first, each exactly once.
   */
  lemma AccountReadsAll(d: Database, live: seq<Block>, blocks: seq<Block>, seen: seq<nat>, p: Projections,
                        address: string, limit: nat, roles: seq<string>)
    requires Replays(d, live, p) && Ascending(blocks) && Above(blocks, Top(d))
    requires forall i :: 0 <= i < |seen| ==> seen[i] <= |blocks| && InsertAll(d, blocks[..seen[i]], p).Ok?
    requires IdentitiesUnique(live + blocks) && (seen != [] ==> seen[0] == 0)
    requires limit > 0 && roles != [] && AccountKeys(d.index.history, address, roles) != {}
    ensures var s := AccountKeys(d.index.history, address, roles);
      FollowAccount(States(d, blocks, seen, p), address, limit, roles) == Sort(s)[..Reach(|seen|, limit, |s|)]
  {
    hide InsertIndex, IdentitiesUnique, OwnHeights, PositionsUnique, AccountKeys, FollowAccount, Sort, GrowsInFront, Replays;
    AccountStates(d, live, blocks, seen, p, address, roles);
    AccountFollow(States(d, blocks, seen, p), address, limit, roles, AccountKeys(d.index.history, address, roles));
  }

  lemma AccountStates(d: Database, live: seq<Block>, blocks: seq<Block>, seen: seq<nat>, p: Projections,
                      address: string, roles: seq<string>)
    requires Replays(d, live, p) && Ascending(blocks) && Above(blocks, Top(d))
    requires forall i :: 0 <= i < |seen| ==> seen[i] <= |blocks| && InsertAll(d, blocks[..seen[i]], p).Ok?
    requires IdentitiesUnique(live + blocks) && (seen != [] ==> seen[0] == 0)
    ensures var tables := States(d, blocks, seen, p);
      && (forall i :: 0 <= i < |tables| ==> OwnHeights(tables[i]) && PositionsUnique(tables[i]))
      && GrowsInFront(KeysOf(tables, address, roles), AccountKeys(d.index.history, address, roles))
  {
    hide InsertIndex, IdentitiesUnique, OwnHeights, PositionsUnique, AccountKeys, Replays, Below, Valid;
    var s, tables := AccountKeys(d.index.history, address, roles), States(d, blocks, seen, p);
    var keys := KeysOf(tables, address, roles);
    MoreIdentities(live, blocks, 0);
    assert live + blocks[..0] == live;
    ReplaysOwn(d, live, p);
    OldKeysAreOld(d, address, roles);
    forall i | 0 <= i < |seen|
      ensures OwnHeights(tables[i]) && PositionsUnique(tables[i]) && InFront(s, keys[i], Top(d))
    {
      MoreIdentities(live, blocks, seen[i]);
      AccountKeysGrow(d, live, blocks[..seen[i]], p, address, roles);
      AppendIsOwn(d, live, blocks[..seen[i]], p);
    }
    if seen != [] {
      assert blocks[..0] == [];
      assert InsertAll(d, blocks[..0], p) == Ok(d);
    }
  }

  lemma ReplaysOwn(d: Database, live: seq<Block>, p: Projections)
    requires Replays(d, live, p) && IdentitiesUnique(live)
    ensures Good(d) && OwnHeights(d.index.history)
  {
    ReplayIsOwn(live, p);
  }

  // ------------------------------------------------------------- token events

  ghost function TokenRowsOf(x: History, token: string, before: Option<(int, string)>): set<Key> {
    set id | id in x.tokenEvents && x.tokenEvents[id].row.body.token == token && PastEvent(x.tokenEvents[id].height, id, before)
      :: Key(-x.tokenEvents[id].height, 0, id)
  }

  /** `height < before OR (height = before AND action_hash > before_hash)`. */
  predicate PastEvent(height: int, id: string, before: Option<(int, string)>) {
    before.None? || height < before.value.0 || (height == before.value.0 && TextLess(before.value.1, id))
  }

  /** A token's events past a cursor, newest first, ties by action. */
  ghost function TokenPage(x: History, token: string, limit: nat, before: Option<(int, string)>): seq<Key> {
    First(TokenRowsOf(x, token, before), limit)
  }

  /** Which events a page of a token draws on: those of that token past the cursor - older, or of the same height and later by text. */
  lemma TokenRowsAre(x: History, token: string, before: Option<(int, string)>, k: Key)
    ensures k in TokenRowsOf(x, token, before) <==>
      && k.name in x.tokenEvents && k == Key(-x.tokenEvents[k.name].height, 0, k.name)
      && x.tokenEvents[k.name].row.body.token == token
      && (before.Some? ==>
            var h, at := x.tokenEvents[k.name].height, before.value;
            h <= at.0 && (h == at.0 ==> Less(Key(0, 0, at.1), Key(0, 0, k.name))))
  {
    EventRow(x, k.name);
  }

  function NextEvent(read: seq<Key>): Option<(int, string)> {
    if read == [] then None else Some((-read[|read| - 1].height, read[|read| - 1].name))
  }

  lemma TokenCursor(x: History, token: string, limit: nat, read: seq<Key>)
    requires read != [] ==> read[|read| - 1].index == 0
    ensures TokenPage(x, token, limit, NextEvent(read)) == Page(TokenRowsOf(x, token, None), read, limit)
  {
    hide First;
    var rows, s := TokenRowsOf(x, token, NextEvent(read)), TokenRowsOf(x, token, None);
    var wanted := if read == [] then s else Past(s, read[|read| - 1]);
    forall k ensures k in rows <==> k in wanted {
      if k in rows { assert k in s; }
    }
    assert rows == wanted;
  }

  ghost function FollowToken(tables: seq<History>, token: string, limit: nat): seq<Key> {
    if tables == [] then []
    else
      var read := FollowToken(tables[..|tables| - 1], token, limit);
      read + TokenPage(tables[|tables| - 1], token, limit, NextEvent(read))
  }

  ghost function EventsOf(tables: seq<History>, token: string): seq<set<Key>> {
    seq(|tables|, i requires 0 <= i < |tables| => TokenRowsOf(tables[i], token, None))
  }

  lemma {:induction false} TokenFollow(tables: seq<History>, token: string, limit: nat, s: set<Key>)
    requires GrowsInFront(EventsOf(tables, token), s) && s != {} && limit > 0
    ensures FollowToken(tables, token, limit) == Sort(s)[..Reach(|tables|, limit, |s|)]
  {
    hide TokenPage, Page, Less, Sort;
    var events := EventsOf(tables, token);
    FollowReadsAll(events, s, limit);
    if tables != [] {
      var m := |tables| - 1;
      var front := tables[..m];
      assert EventsOf(front, token) == events[..m];
      TokenFollow(front, token, limit, s);
      FollowReadsAll(events[..m], s, limit);
      var read := FollowToken(front, token, limit);
      if read != [] {
        assert read[|read| - 1] in Elements(Sort(s));
        assert read[|read| - 1] in events[m];
      }
      TokenCursor(tables[m], token, limit, read);
    }
  }

  lemma {:induction false} TokenKeysGrow(d: Database, blocks: seq<Block>, p: Projections, token: string)
    requires Good(d) && Ascending(blocks) && Above(blocks, Top(d)) && InsertAll(d, blocks, p).Ok?
    ensures var x, y := d.index.history, InsertAll(d, blocks, p).value.index.history;
      InFront(TokenRowsOf(x, token, None), TokenRowsOf(y, token, None), Top(d))
  {
    hide InsertIndex, HistoryGrows, TokenRowsOf;
    if blocks != [] {
      var front, b := blocks[..|blocks| - 1], blocks[|blocks| - 1];
      TokenKeysGrow(d, front, p, token);
      var z := InsertAll(d, front, p).value.index;
      InsertGrows(z, b, p);
      TokenRowsGrow(z.history, InsertIndex(z, b, p).history, b.height, token);
    }
  }

  lemma TokenRowsGrow(x: History, y: History, h: int, token: string)
    requires HistoryGrows(x, y, h)
    ensures TokenRowsOf(x, token, None) <= TokenRowsOf(y, token, None)
    ensures forall k :: k in TokenRowsOf(y, token, None) && k !in TokenRowsOf(x, token, None) ==> k.height == -h
  {
    forall k | k in TokenRowsOf(y, token, None) && k !in TokenRowsOf(x, token, None) ensures k.height == -h {
      EventRow(x, k.name);
    }
    forall k | k in TokenRowsOf(x, token, None) ensures k in TokenRowsOf(y, token, None) {
      assert k.name in y.tokenEvents;
    }
  }

  /** Token history: the same for the (height, action) cursor of a token's events, with no hypothesis on identities. */
  lemma TokenReadsAll(d: Database, blocks: seq<Block>, seen: seq<nat>, p: Projections, token: string, limit: nat)
    requires Good(d) && Ascending(blocks) && Above(blocks, Top(d))
    requires forall i :: 0 <= i < |seen| ==> seen[i] <= |blocks| && InsertAll(d, blocks[..seen[i]], p).Ok?
    requires (seen != [] ==> seen[0] == 0) && limit > 0 && TokenRowsOf(d.index.history, token, None) != {}
    ensures var s := TokenRowsOf(d.index.history, token, None);
      FollowToken(States(d, blocks, seen, p), token, limit) == Sort(s)[..Reach(|seen|, limit, |s|)]
  {
    hide InsertIndex, FollowToken, Sort, StateBelow;
    var s, tables := TokenRowsOf(d.index.history, token, None), States(d, blocks, seen, p);
    var events := EventsOf(tables, token);
    assert forall k :: k in s ==> k.height >= -Top(d);
    forall i | 0 <= i < |seen|
      ensures s <= events[i] && forall k :: k in events[i] && k !in s ==> k.height < -Top(d)
    {
      TokenKeysGrow(d, blocks[..seen[i]], p, token);
    }
    if seen != [] {
      assert blocks[..0] == [];
      assert InsertAll(d, blocks[..0], p) == Ok(d);
    }
    TokenFollow(tables, token, limit, s);
  }
}

/** Re-running role extraction over the stored actions, page by page, against the rows the schema implies. */
module Reindex {
  import opened Wire
  import opened Tables
  import opened Storage
  import Store
  import Replay
  import opened Order
  import Heights
  import opened Identities
  import Broadcast

  type RoleKey = (string, string, string)

  type ActionTable = Keyed<string, ActionRow>

  /** The (address, role) pairs the extractor finds in a stored action. */
  function Roles(x: ActionTable, id: string, p: Projections): seq<(string, string)>
    requires id in x
  {
    p.resolve(x[id].row.kind, x[id].row.payload)
  }

  /** The extractor finds the address in that role in the stored action. */
  ghost predicate IsImplied(x: ActionTable, p: Projections, k: RoleKey) {
    k.0 in x && exists i :: 0 <= i < |Roles(x, k.0, p)| && Roles(x, k.0, p)[i] == (k.1, k.2)
  }

  /** The rows the schema implies for the given actions. */
  function ImpliedBy(x: ActionTable, ids: set<string>, p: Projections): (r: set<RoleKey>)
    ensures forall k :: k in r <==> k.0 in ids && IsImplied(x, p, k)
  {
    var r := set id, i | id in ids && id in x && 0 <= i < |Roles(x, id, p)| :: (id, Roles(x, id, p)[i].0, Roles(x, id, p)[i].1);
    assert forall k: RoleKey :: k.0 in ids && IsImplied(x, p, k) ==> k in r by {
      forall k: RoleKey | k.0 in ids && IsImplied(x, p, k) ensures k in r {
        var i :| 0 <= i < |Roles(x, k.0, p)| && Roles(x, k.0, p)[i] == (k.1, k.2);
        assert k == (k.0, Roles(x, k.0, p)[i].0, Roles(x, k.0, p)[i].1);
      }
    }
    r
  }

  function ImpliedRows(x: ActionTable, ids: set<string>, p: Projections): (r: Keyed<RoleKey, ()>)
    ensures r.Keys == ImpliedBy(x, ids, p)
    ensures forall k :: k in r ==> k.0 in x && r[k] == At(x[k.0].height, ())
  {
    map k | k in ImpliedBy(x, ids, p) && k.0 in x :: At(x[k.0].height, ())
  }

  /** The address table once every stored action was gone over: the old rows, and every implied row that was missing. */
  function Reindexed(x: History, p: Projections): Keyed<RoleKey, ()> {
    Under(x.actionAddresses, ImpliedRows(x.actions, x.actions.Keys, p))
  }

  function Missing(x: History, p: Projections): set<RoleKey> {
    ImpliedBy(x.actions, x.actions.Keys, p) - x.actionAddresses.Keys
  }

  // -------------------------------------------------------------------- pages

  predicate Later(height: int, index: int, after: (int, int)) {
    height > after.0 || (height == after.0 && index > after.1)
  }

  /** `WHERE (block_height, index_in_block) > after`. */
  function Remaining(x: History, after: (int, int)): (r: set<Key>)
    ensures forall k :: k in r <==> (
      && k.name in x.actions && Later(k.height, k.index, after)
      && k == Key(x.actions[k.name].height, x.actions[k.name].row.index, k.name))
  {
    set id | id in x.actions && Later(x.actions[id].height, x.actions[id].row.index, after)
      :: Key(x.actions[id].height, x.actions[id].row.index, id)
  }

  ghost function Seen(x: History, after: (int, int)): set<string> {
    set id | id in x.actions && !Later(x.actions[id].height, x.actions[id].row.index, after)
  }

  function NamesOf(rows: seq<Key>): set<string> {
    set k | k in rows :: k.name
  }

  /** A page and what remains past its last position split the rows, as no two actions share a position. */
  lemma PageSplits(x: History, after: (int, int), n: nat)
    requires PositionsUnique(x) && n > 0 && Remaining(x, after) != {}
    ensures var rows := First(Remaining(x, after), n);
      && rows != []
      && var last := rows[|rows| - 1]; var next := (last.height, last.index);
         && Seen(x, next) == Seen(x, after) + NamesOf(rows)
         && Remaining(x, next) < Remaining(x, after)
  {
    hide Sort, Less, PositionsUnique;
    var all, rows := Remaining(x, after), First(Remaining(x, after), n);
    assert |Sort(all)| == |all| > 0;
    var m := |rows| - 1;
    var last, next := rows[m], (rows[m].height, rows[m].index);
    assert last in Elements(Sort(all));
    forall id | id in x.actions
      ensures id in Seen(x, next) <==> id in Seen(x, after) || id in NamesOf(rows)
    {
      PageSplitsAt(x, after, n, id);
    }
    assert last in Remaining(x, after) && last !in Remaining(x, next);
    assert Remaining(x, next) <= Remaining(x, after);
  }

  lemma ListedName(rows: seq<Key>, i: int)
    ensures 0 <= i < |rows| ==> rows[i].name in NamesOf(rows)
  {}

  /** A row of the page is not past the page's last position. */
  lemma ListedIsSeen(x: History, after: (int, int), n: nat, i: int)
    requires 0 <= i < |First(Remaining(x, after), n)|
    ensures var rows := First(Remaining(x, after), n); var last := rows[|rows| - 1];
      && rows[i].name in x.actions && rows[i].name in NamesOf(rows)
      && rows[i] == Key(x.actions[rows[i].name].height, x.actions[rows[i].name].row.index, rows[i].name)
      && Later(rows[i].height, rows[i].index, after) && !Later(rows[i].height, rows[i].index, (last.height, last.index))
  {
    hide Sort;
    var all := Remaining(x, after);
    var rows := First(all, n);
    assert rows[i] in Elements(Sort(all));
    if i < |rows| - 1 { assert Less(Sort(all)[i], Sort(all)[|rows| - 1]); }
  }

  /** An action left that is not on the page lies past the page's last position. */
  lemma UnlistedIsLater(x: History, after: (int, int), n: nat, id: string)
    requires PositionsUnique(x) && First(Remaining(x, after), n) != []
    requires id in x.actions && id !in Seen(x, after) && id !in NamesOf(First(Remaining(x, after), n))
    ensures var rows := First(Remaining(x, after), n);
      id !in Seen(x, (rows[|rows| - 1].height, rows[|rows| - 1].index))
  {
    hide Sort, PositionsUnique;
    var all := Remaining(x, after);
    var rows, r := First(all, n), Sort(all);
    var m, k := |rows| - 1, Key(x.actions[id].height, x.actions[id].row.index, id);
    ListedIsSeen(x, after, n, m);
    assert k in Elements(r);
    var i :| 0 <= i < |r| && r[i] == k;
    ListedName(rows, i);
    assert Less(r[m], r[i]);
    UniqueAt(x, id, rows[m].name);
  }

  lemma PageSplitsAt(x: History, after: (int, int), n: nat, id: string)
    requires PositionsUnique(x) && id in x.actions && First(Remaining(x, after), n) != []
    ensures var rows := First(Remaining(x, after), n); var last := rows[|rows| - 1];
      id in Seen(x, (last.height, last.index)) <==> id in Seen(x, after) || id in NamesOf(rows)
  {
    hide Sort, First, PositionsUnique;
    var rows := First(Remaining(x, after), n);
    ListedIsSeen(x, after, n, |rows| - 1);
    if id in NamesOf(rows) {
      var i :| 0 <= i < |rows| && rows[i].name == id;
      ListedIsSeen(x, after, n, i);
    } else if id !in Seen(x, after) {
      UnlistedIsLater(x, after, n, id);
    }
  }

  // ------------------------------------------------------------------ inserting

  /** `INSERT ... SELECT FROM UNNEST ... ON CONFLICT DO NOTHING`, each row at its own height. */
  function PutRows(m: Keyed<RoleKey, ()>, rows: seq<(RoleKey, int)>): Keyed<RoleKey, ()> {
    if rows == [] then m
    else
      var front, last := PutRows(m, rows[..|rows| - 1]), rows[|rows| - 1];
      if last.0 in front then front else front[last.0 := At(last.1, ())]
  }

  /** The rows of some actions, in page order. */
  function RowsFor(x: ActionTable, keys: seq<Key>, p: Projections): seq<(RoleKey, int)>
    requires forall k :: k in keys ==> k.name in x
  {
    if keys == [] then []
    else
      var last := keys[|keys| - 1];
      RowsFor(x, keys[..|keys| - 1], p) + RowsOfAction(x, last.name, p)
  }

  function RowsOfAction(x: ActionTable, id: string, p: Projections): seq<(RoleKey, int)>
    requires id in x
  {
    var roles := Roles(x, id, p);
    seq(|roles|, i requires 0 <= i < |roles| => ((id, roles[i].0, roles[i].1), x[id].height))
  }

  lemma {:induction false} PutRowsIs(x: ActionTable, m: Keyed<RoleKey, ()>, rows: seq<(RoleKey, int)>)
    requires forall i :: 0 <= i < |rows| ==> rows[i].0.0 in x && rows[i].1 == x[rows[i].0.0].height
    ensures forall k :: k in PutRows(m, rows) <==> k in m || Lists(rows, k)
    ensures forall k :: k in m ==> PutRows(m, rows)[k] == m[k]
    ensures forall k :: k in PutRows(m, rows) && k !in m ==>
      k.0 in x && PutRows(m, rows)[k] == At(x[k.0].height, ())
  {
    if rows != [] {
      var front, last := rows[..|rows| - 1], rows[|rows| - 1];
      PutRowsIs(x, m, front);
      assert rows == front + [last];
      forall k ensures k in PutRows(m, rows) <==> k in m || Lists(rows, k) {
        ListsBoth(front, [last], k);
        assert Lists([last], k) <==> last.0 == k by { assert [last][0] == last; }
      }
    } else {
      forall k ensures !Lists(rows, k) { NoRows(k); }
    }
  }

  ghost predicate Lists(rows: seq<(RoleKey, int)>, k: RoleKey) {
    exists i :: 0 <= i < |rows| && rows[i].0 == k
  }

  lemma ListsBoth(a: seq<(RoleKey, int)>, b: seq<(RoleKey, int)>, k: RoleKey)
    ensures Lists(a + b, k) <==> Lists(a, k) || Lists(b, k)
  {
    if i :| 0 <= i < |a| && a[i].0 == k { assert (a + b)[i].0 == k; }
    if i :| 0 <= i < |b| && b[i].0 == k { assert (a + b)[|a| + i].0 == k; }
    if i :| 0 <= i < |a + b| && (a + b)[i].0 == k { assert i < |a| ==> a[i].0 == k; assert i >= |a| ==> b[i - |a|].0 == k; }
  }

  lemma ListsAction(x: ActionTable, id: string, p: Projections, k: RoleKey)
    requires id in x
    ensures Lists(RowsOfAction(x, id, p), k) <==> k.0 == id && IsImplied(x, p, k)
  {
    var rows := RowsOfAction(x, id, p);
    if k.0 == id && IsImplied(x, p, k) {
      var i :| 0 <= i < |Roles(x, k.0, p)| && Roles(x, k.0, p)[i] == (k.1, k.2);
      assert rows[i].0 == k;
    }
  }

  lemma {:induction false} RowsForImplied(x: ActionTable, keys: seq<Key>, p: Projections, k: RoleKey)
    requires forall key :: key in keys ==> key.name in x
    ensures Lists(RowsFor(x, keys, p), k) <==> k in ImpliedBy(x, NamesOf(keys), p)
  {
    hide IsImplied, Lists, RowsOfAction, ImpliedBy;
    if keys != [] {
      var front, last := keys[..|keys| - 1], keys[|keys| - 1];
      assert keys == front + [last];
      RowsForImplied(x, front, p, k);
      NamesMore(front, last);
      ListsBoth(RowsFor(x, front, p), RowsOfAction(x, last.name, p), k);
      ListsAction(x, last.name, p, k);
    } else {
      NoRows(k);
    }
  }

  lemma NoRows(k: RoleKey)
    ensures !Lists([], k)
  {}

  lemma {:induction false} RowsForHeights(x: ActionTable, keys: seq<Key>, p: Projections)
    requires forall key :: key in keys ==> key.name in x
    ensures forall i :: 0 <= i < |RowsFor(x, keys, p)| ==>
      RowsFor(x, keys, p)[i].0.0 in x && RowsFor(x, keys, p)[i].1 == x[RowsFor(x, keys, p)[i].0.0].height
  {
    if keys != [] {
      RowsForHeights(x, keys[..|keys| - 1], p);
    }
  }

  lemma NamesMore(front: seq<Key>, last: Key)
    ensures NamesOf(front + [last]) == NamesOf(front) + {last.name}
  {
    forall n ensures n in NamesOf(front + [last]) <==> n in NamesOf(front) + {last.name} {
      if n in NamesOf(front) {
        var k :| k in front && k.name == n;
        assert k in front + [last];
      }
      if n == last.name { assert last in front + [last]; }
    }
  }

  /** Inserting a page's rows adds the rows its actions imply. */
  lemma PagePut(x: ActionTable, m: Keyed<RoleKey, ()>, keys: seq<Key>, p: Projections)
    requires forall key :: key in keys ==> key.name in x
    ensures PutRows(m, RowsFor(x, keys, p)) == Under(m, ImpliedRows(x, NamesOf(keys), p))
  {
    hide RowsFor, ImpliedBy, PutRows, IsImplied, Lists;
    var rows, r := RowsFor(x, keys, p), PutRows(m, RowsFor(x, keys, p));
    RowsForHeights(x, keys, p);
    PutRowsIs(x, m, rows);
    forall k ensures k in r <==> k in m || k in ImpliedBy(x, NamesOf(keys), p) { RowsForImplied(x, keys, p, k); }
    var want := Under(m, ImpliedRows(x, NamesOf(keys), p));
    assert r.Keys == want.Keys;
  }

  lemma UnderTwice(x: ActionTable, m: Keyed<RoleKey, ()>, a: set<string>, b: set<string>, p: Projections)
    ensures Under(Under(m, ImpliedRows(x, a, p)), ImpliedRows(x, b, p)) == Under(m, ImpliedRows(x, a + b, p))
  {
    hide ImpliedBy, IsImplied, ImpliedRows;
    var l, r := Under(Under(m, ImpliedRows(x, a, p)), ImpliedRows(x, b, p)), Under(m, ImpliedRows(x, a + b, p));
    assert l.Keys == r.Keys;
  }

  // ----------------------------------------------------------------------- loop

  /** The columns of one page: each action's roles, in order. */
  method Columns(x: ActionTable, rows: seq<Key>, p: Projections) returns (entries: seq<(RoleKey, int)>)
    requires forall k :: k in rows ==> k.name in x
    ensures entries == RowsFor(x, rows, p)
  {
    hide RowsOfAction;
    entries := [];
    for i := 0 to |rows|
      invariant entries == RowsFor(x, rows[..i], p)
    {
      assert rows[..i + 1][..i] == rows[..i];
      entries := entries + RowsOfAction(x, rows[i].name, p);
    }
    assert rows[..|rows|] == rows;
  }

  /** The next page after a position. */
  function PageAfter(x: History, after: (int, int), n: nat): (r: seq<Key>)
    ensures forall k :: k in r ==> k.name in x.actions
  {
    SortedKeys(Remaining(x, after));
    First(Remaining(x, after), n)
  }

  lemma SortedKeys(s: set<Key>)
    ensures forall k :: k in Sort(s) ==> k in s
  {
    forall k | k in Sort(s) ensures k in s { assert k in Elements(Sort(s)); }
  }

  /** The table once every action up to a position was gone over. */
  ghost predicate Through(x: History, after: (int, int), p: Projections, table: Keyed<RoleKey, ()>) {
    table == Under(x.actionAddresses, ImpliedRows(x.actions, Seen(x, after), p))
  }

  ghost function Left(x: History, after: (int, int)): nat {
    |Remaining(x, after)|
  }

  /**
   * The reindex loop. Whatever the page size, it terminates, and leaves the old rows untouched and
   * exactly the missing implied rows added; the number returned is how many were missing.
   */
  method ReindexActionAddresses(x: History, p: Projections, page: nat)
    returns (table: Keyed<RoleKey, ()>, added: nat)
    requires PositionsUnique(x) && page > 0
    requires forall id :: id in x.actions ==> x.actions[id].height >= 0
    ensures table == Reindexed(x, p) && added == |Missing(x, p)|
  {
    hide Through, Left, PageAfter, PositionsUnique, PutRows, RowsFor, Reindexed, Missing;
    var after := (-1, -1);
    table, added := x.actionAddresses, 0;
    NothingSeen(x, p);
    while true
      invariant Through(x, after, p, table) && added == |table| - |x.actionAddresses|
      decreases Left(x, after)
    {
      var rows := PageAfter(x, after, page);
      if rows == [] {
        break;
      }
      PageStep(x, after, page, p, table);
      var entries := Columns(x.actions, rows, p);
      var before := table;
      table := PutRows(table, entries);
      added := added + (|table| - |before|);
      after := (rows[|rows| - 1].height, rows[|rows| - 1].index);
    }
    AllSeen(x, after, page, p, table);
  }

  /** One turn of the loop: the rows so far, and the actions left. */
  lemma PageStep(x: History, after: (int, int), n: nat, p: Projections, table: Keyed<RoleKey, ()>)
    requires PositionsUnique(x) && n > 0 && PageAfter(x, after, n) != [] && Through(x, after, p, table)
    ensures var rows := PageAfter(x, after, n);
      var next := (rows[|rows| - 1].height, rows[|rows| - 1].index);
      var table' := PutRows(table, RowsFor(x.actions, rows, p));
      && Through(x, next, p, table') && |table| <= |table'| && Left(x, next) < Left(x, after)
  {
    hide Sort, Less, PositionsUnique, ImpliedBy, ImpliedRows, IsImplied, Seen, PutRows, RowsFor, NamesOf;
    var rows := PageAfter(x, after, n);
    var next := (rows[|rows| - 1].height, rows[|rows| - 1].index);
    NoRemaining();
    PageSplits(x, after, n);
    hide First, Remaining;
    PagePut(x.actions, table, rows, p);
    UnderTwice(x.actions, x.actionAddresses, Seen(x, after), NamesOf(rows), p);
    Heights.SubsetSize(table.Keys, PutRows(table, RowsFor(x.actions, rows, p)).Keys);
    Heights.SubsetSize(Remaining(x, next), Remaining(x, after));
  }

  lemma NoRemaining()
    ensures |Sort({})| == 0
  {}

  lemma NothingSeen(x: History, p: Projections)
    requires forall id :: id in x.actions ==> x.actions[id].height >= 0
    ensures Through(x, (-1, -1), p, x.actionAddresses)
  {
    assert Seen(x, (-1, -1)) == {};
  }

  lemma AllSeen(x: History, after: (int, int), n: nat, p: Projections, table: Keyed<RoleKey, ()>)
    requires n > 0 && PageAfter(x, after, n) == [] && Through(x, after, p, table)
    ensures table == Reindexed(x, p) && |table| - |x.actionAddresses| == |Missing(x, p)|
  {
    hide Sort, ImpliedBy, ImpliedRows;
    var all := Remaining(x, after);
    assert |Sort(all)| == |all| == 0;
    forall id | id in x.actions ensures id in Seen(x, after) {
      var k := Key(x.actions[id].height, x.actions[id].row.index, id);
      assert k !in all;
    }
    assert Seen(x, after) == x.actions.Keys;
    CountMissing(x, p);
  }

  lemma CountMissing(x: History, p: Projections)
    ensures |Reindexed(x, p)| - |x.actionAddresses| == |Missing(x, p)|
  {
    hide ImpliedBy;
    assert Reindexed(x, p).Keys == x.actionAddresses.Keys + Missing(x, p);
  }

  // ------------------------------------------------------------------ results

  /** The table's meaning: an old row is as it was, and a new one is implied, at its action's height. */
  lemma ReindexedIs(x: History, p: Projections, k: RoleKey)
    ensures k in x.actionAddresses ==> k in Reindexed(x, p) && Reindexed(x, p)[k] == x.actionAddresses[k]
    ensures k in Reindexed(x, p) <==> k in x.actionAddresses || IsImplied(x.actions, p, k)
    ensures k in Reindexed(x, p) && k !in x.actionAddresses ==>
      k.0 in x.actions && Reindexed(x, p)[k].height == x.actions[k.0].height
  {
    hide ImpliedBy, IsImplied;
    ImpliedIsStored(x.actions, p, k);
  }

  lemma ImpliedIsStored(x: ActionTable, p: Projections, k: RoleKey)
    ensures IsImplied(x, p, k) ==> k.0 in x
  {}

  /** A second run adds nothing and changes nothing. */
  lemma ReindexTwice(x: History, p: Projections)
    ensures var y := x.(actionAddresses := Reindexed(x, p));
      Missing(y, p) == {} && Reindexed(y, p) == Reindexed(x, p)
  {
    hide ImpliedBy, IsImplied;
  }

  /** Every index that replays some blocks meets what the loop asks for. */
  lemma ReplayIsReindexable(d: Database, live: seq<Block>, p: Projections)
    requires Replay.Replays(d, live, p)
    ensures PositionsUnique(d.index.history)
    ensures forall id :: id in d.index.history.actions ==> d.index.history.actions[id].height >= 0
  {
    hide PositionsUnique, AllNamed, OwnHeights;
    ReplayIsOwn(live, p);
    Broadcast.ReplayHouses(live, p);
  }

  // ---------------------------------------------------- reindexing is ingesting

  /** Every action of every block has an identity of its own. */
  ghost predicate AllDistinct(live: seq<Block>) {
    IdentitiesUnique(live) && forall i :: 0 <= i < |live| ==> DistinctWithin(live[i])
  }

  ghost predicate DistinctWithin(b: Block) {
    forall i, j :: 0 <= i < j < |b.actions| ==> ActionId(b.height, i, b.actions[i]) != ActionId(b.height, j, b.actions[j])
  }

  /** A chain of unsigned actions meets this: each is named by its position. */
  lemma UnsignedAreDistinct(live: seq<Block>)
    requires Replay.Ascending(live)
    requires forall i, k :: 0 <= i < |live| && 0 <= k < |live[i].actions| ==> live[i].actions[k].identity.None?
    ensures AllDistinct(live)
  {
    hide ActionId;
    forall i, j, id | 0 <= i < j < |live| ensures !(Identities.Names(live[i], id) && Identities.Names(live[j], id)) {
      NamedApart(live[i], live[j], id);
    }
    forall i | 0 <= i < |live| ensures DistinctWithin(live[i]) {
      var b := live[i];
      forall k, l | 0 <= k < l < |b.actions| ensures ActionId(b.height, k, b.actions[k]) != ActionId(b.height, l, b.actions[l]) {
        NamedOnce(b, k, l);
      }
    }
  }

  lemma NamedApart(b: Block, c: Block, id: string)
    requires b.height != c.height
    requires forall k :: 0 <= k < |b.actions| ==> b.actions[k].identity.None?
    requires forall k :: 0 <= k < |c.actions| ==> c.actions[k].identity.None?
    ensures !(Identities.Names(b, id) && Identities.Names(c, id))
  {
    hide ActionId;
    if Identities.Names(b, id) && Identities.Names(c, id) {
      var k :| 0 <= k < |b.actions| && ActionId(b.height, k, b.actions[k]) == id;
      var l :| 0 <= l < |c.actions| && ActionId(c.height, l, c.actions[l]) == id;
      PositionsNameActions(b.height, k, b.actions[k], c.height, l, c.actions[l]);
    }
  }

  lemma NamedOnce(b: Block, k: nat, l: nat)
    requires k < l < |b.actions| && b.actions[k].identity.None? && b.actions[l].identity.None?
    ensures ActionId(b.height, k, b.actions[k]) != ActionId(b.height, l, b.actions[l])
  {
    hide ActionId;
    if ActionId(b.height, k, b.actions[k]) == ActionId(b.height, l, b.actions[l]) {
      PositionsNameActions(b.height, k, b.actions[k], b.height, l, b.actions[l]);
    }
  }

  /** Action `i` of the block bears the key's name and holds its role. */
  predicate Gives(b: Block, i: nat, p: Projections, k: RoleKey)
    requires i < |b.actions|
  {
    ActionId(b.height, i, b.actions[i]) == k.0
    && exists j :: 0 <= j < |p.resolve(b.actions[i].kind, b.actions[i].payload)|
         && p.resolve(b.actions[i].kind, b.actions[i].payload)[j] == (k.1, k.2)
  }

  lemma {:induction false} AddressesGiven(b: Block, n: nat, p: Projections, k: RoleKey)
    requires n <= |b.actions|
    ensures FirstFor(AddressEntries(b, n, p), k).Some? <==> exists i: nat :: i < n && Gives(b, i, p, k)
  {
    if n > 0 {
      AddressesGiven(b, n - 1, p, k);
      var front := AddressEntries(b, n - 1, p);
      var roles := p.resolve(b.actions[n - 1].kind, b.actions[n - 1].payload);
      var more := RoleEntries(ActionId(b.height, n - 1, b.actions[n - 1]), roles);
      MentionsBoth(front, more, k);
      assert Mentions(more, k) <==> Gives(b, n - 1, p, k) by {
        if Mentions(more, k) {
          var i :| 0 <= i < |more| && more[i].0 == k;
          assert roles[i] == (k.1, k.2);
        }
        if Gives(b, n - 1, p, k) {
          var j :| 0 <= j < |roles| && roles[j] == (k.1, k.2);
          assert more[j].0 == k;
        }
      }
    }
  }

  lemma MentionsBoth<K, V>(a: seq<(K, V)>, b: seq<(K, V)>, k: K)
    ensures Mentions(a + b, k) <==> Mentions(a, k) || Mentions(b, k)
  {
    if i :| 0 <= i < |a| && a[i].0 == k { assert (a + b)[i].0 == k; }
    if i :| 0 <= i < |b| && b[i].0 == k { assert (a + b)[|a| + i].0 == k; }
    if i :| 0 <= i < |a + b| && (a + b)[i].0 == k {
      assert i < |a| ==> a[i].0 == k;
      assert i >= |a| ==> b[i - |a|].0 == k;
    }
  }

  /** The actions stored do not depend on what is projected out of their payloads. */
  lemma {:induction false} ActionsIgnoreSchema(live: seq<Block>, p: Projections, q: Projections)
    requires InsertAll(EMPTY, live, p).Ok?
    ensures InsertAll(EMPTY, live, q).Ok?
    ensures var x, y := InsertAll(EMPTY, live, p).value.index.history, InsertAll(EMPTY, live, q).value.index.history;
      x.actions == y.actions && x.blocks == y.blocks
  {
    hide InsertIndex, InsertHistory;
    if live != [] {
      var front, b := live[..|live| - 1], live[|live| - 1];
      ActionsIgnoreSchema(front, p, q);
      var x, y := InsertAll(EMPTY, front, p).value.index, InsertAll(EMPTY, front, q).value.index;
      InsertGrows(x, b, p);
      InsertGrows(y, b, q);
      InsertHistoryGrows(x.history, b, p);
      InsertHistoryGrows(y.history, b, q);
    }
  }

  lemma AddressesOf(x: History, b: Block, p: Projections)
    ensures InsertHistory(x, b, p).actionAddresses == PutKeyed(x.actionAddresses, b.height, AddressEntries(b, |b.actions|, p))
  {}

  // ------------------------------------------------ whose roles are ingested

  /** Action `n` of the i-th block bears the identity. */
  predicate Bears(live: seq<Block>, i: int, n: int, id: string) {
    0 <= i < |live| && 0 <= n < |live[i].actions| && ActionId(live[i].height, n, live[i].actions[n]) == id
  }

  /** It is the first to: no action of an earlier block does, and none before it in its own. */
  ghost predicate FirstBears(live: seq<Block>, i: int, n: int, id: string) {
    Bears(live, i, n, id) && forall j, m :: Bears(live, j, m, id) ==> i < j || (i == j && n <= m)
  }

  predicate GivesAt(live: seq<Block>, i: int, n: int, p: Projections, k: RoleKey) {
    0 <= i < |live| && 0 <= n < |live[i].actions| && Gives(live[i], n, p, k)
  }

  /** The i-th block is the first some action of which gives the role. */
  ghost predicate FirstGives(live: seq<Block>, i: int, p: Projections, k: RoleKey) {
    (exists n :: GivesAt(live, i, n, p, k)) && forall j, m :: GivesAt(live, j, m, p, k) ==> i <= j
  }

  ghost predicate Given(live: seq<Block>, p: Projections, k: RoleKey) {
    exists i, n :: GivesAt(live, i, n, p, k)
  }

  /** The first action that bears the identity gives the role. */
  ghost predicate FirstBearerGives(live: seq<Block>, p: Projections, k: RoleKey) {
    exists i, n :: FirstBears(live, i, n, k.0) && GivesAt(live, i, n, p, k)
  }

  /** Everything ingesting these blocks stores of its actions. */
  function Ingested(live: seq<Block>, p: Projections): History
    requires InsertAll(EMPTY, live, p).Ok?
  {
    InsertAll(EMPTY, live, p).value.index.history
  }

  lemma AppendBears(front: seq<Block>, b: Block, i: int, n: int, id: string)
    ensures Bears(front + [b], i, n, id) <==>
      Bears(front, i, n, id) || (i == |front| && 0 <= n < |b.actions| && ActionId(b.height, n, b.actions[n]) == id)
  {
    hide ActionId;
    assert 0 <= i < |front| ==> (front + [b])[i] == front[i];
  }

  lemma AppendFirst(front: seq<Block>, b: Block, i: int, n: int, id: string)
    requires FirstBears(front, i, n, id)
    ensures FirstBears(front + [b], i, n, id)
  {
    hide ActionId, Bears;
    forall j, m | Bears(front + [b], j, m, id) ensures i < j || (i == j && n <= m) {
      AppendBears(front, b, j, m, id);
      BearsWithin(front, i, n, id);
    }
    AppendBears(front, b, i, n, id);
  }

  lemma BearsWithin(live: seq<Block>, i: int, n: int, id: string)
    ensures Bears(live, i, n, id) ==> 0 <= i < |live| && 0 <= n < |live[i].actions|
  {}

  /** The row is the one the i-th block's action `n`, the first to bear the identity, is stored as. */
  ghost predicate StoredAs(live: seq<Block>, i: int, n: int, id: string, row: At<ActionRow>) {
    FirstBears(live, i, n, id) && row == At(live[i].height, ActionEntries(live[i])[n].1)
  }

  /** The stored action of an identity is its first bearer's, at its height. */
  ghost predicate StoredFirst(x: ActionTable, live: seq<Block>, id: string) {
    if id in x then exists i, n :: StoredAs(live, i, n, id, x[id])
    else forall i, n :: !Bears(live, i, n, id)
  }

  lemma AppendStored(front: seq<Block>, b: Block, i: int, n: int, id: string, row: At<ActionRow>)
    requires StoredAs(front, i, n, id, row)
    ensures StoredAs(front + [b], i, n, id, row)
  {
    hide ActionId, ActionEntries;
    AppendFirst(front, b, i, n, id);
    assert (front + [b])[i] == front[i];
  }

  lemma NewStored(front: seq<Block>, b: Block, id: string)
    requires FirstFor(ActionEntries(b), id).Some? && forall i, n :: !Bears(front, i, n, id)
    ensures var row := FirstFor(ActionEntries(b), id).value;
      StoredAs(front + [b], |front|, row.index, id, At(b.height, row))
  {
    hide ActionId, Bears, FirstFor;
    var live, h := front + [b], |front|;
    NewRowFirst(b, id);
    var n := FirstFor(ActionEntries(b), id).value.index;
    forall j: int, m: int | Bears(live, j, m, id) ensures h < j || (h == j && n <= m) { AppendBears(front, b, j, m, id); }
    AppendBears(front, b, h, n, id);
    assert live[h] == b;
  }

  lemma StoreFirst(x: ActionTable, front: seq<Block>, b: Block, id: string)
    requires StoredFirst(x, front, id)
    ensures StoredFirst(PutKeyed(x, b.height, ActionEntries(b)), front + [b], id)
  {
    hide ActionId, Bears, PutKeyed, StoredAs;
    var y, live := PutKeyed(x, b.height, ActionEntries(b)), front + [b];
    if id in x {
      var i, n :| StoredAs(front, i, n, id, x[id]);
      AppendStored(front, b, i, n, id, x[id]);
    } else if id in y {
      NewStored(front, b, id);
    } else {
      forall j, m ensures !Bears(live, j, m, id) {
        AppendBears(front, b, j, m, id);
        if 0 <= m < |b.actions| { assert ActionEntries(b)[m].0 == ActionId(b.height, m, b.actions[m]); }
      }
    }
  }

  lemma NewRowFirst(b: Block, id: string)
    requires FirstFor(ActionEntries(b), id).Some?
    ensures var row := FirstFor(ActionEntries(b), id).value;
      && row.index < |b.actions| && ActionEntries(b)[row.index].1 == row
      && ActionId(b.height, row.index, b.actions[row.index]) == id
      && forall m :: 0 <= m < |b.actions| && ActionId(b.height, m, b.actions[m]) == id ==> row.index <= m
  {
    hide ActionId, FirstFor;
    FirstIsEntry(ActionEntries(b), id);
    forall m | 0 <= m < |b.actions| && ActionId(b.height, m, b.actions[m]) == id
      ensures FirstFor(ActionEntries(b), id).value.index <= m
    {
      assert ActionEntries(b)[m].0 == id;
    }
  }

  lemma {:induction false} ActionsAreFirst(live: seq<Block>, p: Projections, id: string)
    requires InsertAll(EMPTY, live, p).Ok?
    ensures StoredFirst(Ingested(live, p).actions, live, id)
  {
    hide InsertIndex, InsertHistory, StoredFirst;
    if live == [] {
      NothingStored(id);
    } else {
      var front, b := live[..|live| - 1], live[|live| - 1];
      assert live == front + [b];
      ActionsAreFirst(front, p, id);
      var x := InsertAll(EMPTY, front, p).value.index;
      StoreFirst(x.history.actions, front, b, id);
      InsertGrows(x, b, p);
      InsertHistoryGrows(x.history, b, p);
    }
  }

  lemma NothingStored(id: string)
    ensures StoredFirst(map[], [], id)
  {}

  lemma AppendGives(front: seq<Block>, b: Block, i: int, n: int, p: Projections, k: RoleKey)
    ensures GivesAt(front + [b], i, n, p, k) <==>
      GivesAt(front, i, n, p, k) || (i == |front| && 0 <= n < |b.actions| && Gives(b, n, p, k))
  {
    hide Gives;
    assert 0 <= i < |front| ==> (front + [b])[i] == front[i];
  }

  /** The address row of a role sits at the first block that gives it. */
  ghost predicate AddressFirst(x: Keyed<RoleKey, ()>, live: seq<Block>, p: Projections, k: RoleKey) {
    if k in x then exists i :: 0 <= i < |live| && FirstGives(live, i, p, k) && x[k] == At(live[i].height, ())
    else !Given(live, p, k)
  }

  lemma AddressStep(x: Keyed<RoleKey, ()>, front: seq<Block>, b: Block, p: Projections, k: RoleKey)
    requires AddressFirst(x, front, p, k)
    ensures AddressFirst(PutKeyed(x, b.height, AddressEntries(b, |b.actions|, p)), front + [b], p, k)
  {
    hide Gives, PutKeyed, AddressEntries, GivesAt, FirstFor;
    var y, live, h := PutKeyed(x, b.height, AddressEntries(b, |b.actions|, p)), front + [b], |front|;
    AddressesGiven(b, |b.actions|, p, k);
    forall j, m ensures GivesAt(live, j, m, p, k) <==>
      GivesAt(front, j, m, p, k) || (j == h && 0 <= m < |b.actions| && Gives(b, m, p, k))
    {
      AppendGives(front, b, j, m, p, k);
    }
    if k in x {
      var i :| 0 <= i < |front| && FirstGives(front, i, p, k) && x[k] == At(front[i].height, ());
      assert FirstGives(live, i, p, k);
    } else if k in y {
      var n: nat :| n < |b.actions| && Gives(b, n, p, k);
      assert GivesAt(live, h, n, p, k) && FirstGives(live, h, p, k);
      OnlyUnit(y, k);
    }
  }

  lemma OnlyUnit(m: Keyed<RoleKey, ()>, k: RoleKey)
    ensures k in m ==> m[k] == At(m[k].height, ())
  {
    if k in m {
      match m[k].row { case () => }
    }
  }

  lemma {:induction false} AddressesAreFirst(live: seq<Block>, p: Projections, k: RoleKey)
    requires InsertAll(EMPTY, live, p).Ok?
    ensures AddressFirst(Ingested(live, p).actionAddresses, live, p, k)
  {
    hide InsertIndex, InsertHistory, AddressFirst;
    if live == [] {
      NothingGiven(p, k);
    } else {
      var front, b := live[..|live| - 1], live[|live| - 1];
      assert live == front + [b];
      AddressesAreFirst(front, p, k);
      var x := InsertAll(EMPTY, front, p).value.index;
      AddressStep(x.history.actionAddresses, front, b, p, k);
      InsertGrows(x, b, p);
      AddressesOf(x.history, b, p);
    }
  }

  lemma NothingGiven(p: Projections, k: RoleKey)
    ensures AddressFirst(map[], [], p, k)
  {}

  /** What the stored action of an identity implies is what its first bearer gives. */
  lemma ImpliedIsFirst(x: ActionTable, live: seq<Block>, p: Projections, k: RoleKey)
    requires StoredFirst(x, live, k.0)
    ensures IsImplied(x, p, k) <==> FirstBearerGives(live, p, k)
  {
    hide ActionId, GivesAt;
    if k.0 in x {
      var i, n :| StoredAs(live, i, n, k.0, x[k.0]);
      StoredGives(x, live, p, k, i, n);
      forall j, m | FirstBears(live, j, m, k.0) ensures j == i && m == n {}
    }
  }

  lemma StoredGives(x: ActionTable, live: seq<Block>, p: Projections, k: RoleKey, i: int, n: int)
    requires k.0 in x && StoredAs(live, i, n, k.0, x[k.0])
    ensures IsImplied(x, p, k) <==> GivesAt(live, i, n, p, k)
  {
    hide ActionId;
    var a := live[i].actions[n];
    assert Roles(x, k.0, p) == p.resolve(a.kind, a.payload);
  }

  /** The first bearer's height is that of the first block to give the role, where the first bearer gives it. */
  lemma FirstAgree(x: ActionTable, live: seq<Block>, p: Projections, k: RoleKey, i: int)
    requires StoredFirst(x, live, k.0) && FirstBearerGives(live, p, k) && FirstGives(live, i, p, k)
    ensures k.0 in x && x[k.0].height == live[i].height
  {
    var n :| GivesAt(live, i, n, p, k);
    assert Bears(live, i, n, k.0);
    var j, m :| FirstBears(live, j, m, k.0) && GivesAt(live, j, m, p, k);
    hide ActionId, Gives;
    assert i == j && StoredFirst(x, live, k.0);
  }

  /**
   * The role keeps its place under the new schema: one found before is found first in the same
   * block now, and one found only now is held by the first action that bears its identity.
   */
  ghost predicate Carries(live: seq<Block>, before: Projections, p: Projections, k: RoleKey) {
    if Given(live, before, k) then exists i :: FirstGives(live, i, before, k) && FirstGives(live, i, p, k)
    else Given(live, p, k) ==> FirstBearerGives(live, p, k)
  }

  lemma FirstGivesOnce(live: seq<Block>, p: Projections, k: RoleKey, i: int, j: int)
    requires FirstGives(live, i, p, k) && FirstGives(live, j, p, k)
    ensures i == j
  {}

  /** The row of one role after reindexing the table ingested under `before`, against the one ingested under `p`. */
  lemma ReindexedRow(live: seq<Block>, before: Projections, p: Projections, k: RoleKey)
    requires Replay.Ascending(live) && InsertAll(EMPTY, live, before).Ok? && InsertAll(EMPTY, live, p).Ok?
    requires Ingested(live, before).actions == Ingested(live, p).actions
    ensures var l, r := Reindexed(Ingested(live, before), p), Ingested(live, p).actionAddresses;
      Carries(live, before, p, k) <==> (k in l <==> k in r) && (k in l && k in r ==> l[k] == r[k])
  {
    hide InsertAll, FirstGives, FirstBearerGives, GivesAt, IsImplied, Reindexed, StoredFirst;
    var x, l, r := Ingested(live, before), Reindexed(Ingested(live, before), p), Ingested(live, p).actionAddresses;
    ActionsAreFirst(live, p, k.0);
    AddressesAreFirst(live, before, k);
    AddressesAreFirst(live, p, k);
    ImpliedIsFirst(x.actions, live, p, k);
    ReindexedIs(x, p, k);
    OnlyUnit(l, k);
    if k in r {
      var j :| 0 <= j < |live| && FirstGives(live, j, p, k) && r[k] == At(live[j].height, ());
      if k in x.actionAddresses {
        var i :| 0 <= i < |live| && FirstGives(live, i, before, k) && x.actionAddresses[k] == At(live[i].height, ());
        assert live[i].height == live[j].height <==> i == j;
        forall g, h | FirstGives(live, g, before, k) && FirstGives(live, h, p, k) ensures g == i && h == j {
          FirstGivesOnce(live, before, k, g, i);
          FirstGivesOnce(live, p, k, h, j);
        }
      } else if FirstBearerGives(live, p, k) {
        FirstAgree(x.actions, live, p, k, j);
      }
    }
    FirstMeansGiven(live, before, k);
    FirstMeansGiven(live, p, k);
    FirstBearerMeansGiven(live, p, k);
  }

  lemma FirstMeansGiven(live: seq<Block>, p: Projections, k: RoleKey)
    ensures forall i :: FirstGives(live, i, p, k) ==> Given(live, p, k)
  {}

  lemma FirstBearerMeansGiven(live: seq<Block>, p: Projections, k: RoleKey)
    ensures FirstBearerGives(live, p, k) ==> Given(live, p, k)
  {}

  /**
   * Reindexing against ingesting. Whatever schema the blocks were ingested under, reindexing with
   * schema `p` leaves exactly the address table that ingesting under `p` would have if and only if
   * every role carries over: one found before is found first in the same block now, and one found
   * only now is held by the first action that bears its identity.
   */
  lemma ReindexIsIngest(live: seq<Block>, before: Projections, p: Projections)
    requires Replay.Ascending(live) && InsertAll(EMPTY, live, before).Ok?
    ensures InsertAll(EMPTY, live, p).Ok?
    ensures Reindexed(Ingested(live, before), p) == Ingested(live, p).actionAddresses
      <==> forall k :: Carries(live, before, p, k)
  {
    hide InsertAll, Carries, Reindexed;
    ActionsIgnoreSchema(live, before, p);
    var l, r := Reindexed(Ingested(live, before), p), Ingested(live, p).actionAddresses;
    forall k ensures Carries(live, before, p, k) <==> (k in l <==> k in r) && (k in l && k in r ==> l[k] == r[k]) {
      ReindexedRow(live, before, p, k);
    }
  }

  /** When every action has an identity of its own, that is when no role found before is lost. */
  lemma DistinctReindexIsIngest(live: seq<Block>, before: Projections, p: Projections)
    requires Replay.Ascending(live) && InsertAll(EMPTY, live, before).Ok? && AllDistinct(live)
    ensures InsertAll(EMPTY, live, p).Ok?
    ensures Reindexed(Ingested(live, before), p) == Ingested(live, p).actionAddresses
      <==> forall k :: Given(live, before, k) ==> Given(live, p, k)
  {
    hide InsertAll, Carries, Reindexed, AllDistinct, Given;
    ReindexIsIngest(live, before, p);
    forall k ensures Carries(live, before, p, k) <==> (Given(live, before, k) ==> Given(live, p, k)) {
      DistinctCarries(live, before, p, k);
    }
  }

  lemma OneBearer(live: seq<Block>, i: int, n: int, j: int, m: int, id: string)
    requires AllDistinct(live) && Bears(live, i, n, id) && Bears(live, j, m, id)
    ensures i == j && n == m
  {
    hide ActionId;
    assert Identities.Names(live[i], id) && Identities.Names(live[j], id);
  }

  lemma DistinctCarries(live: seq<Block>, before: Projections, p: Projections, k: RoleKey)
    requires AllDistinct(live)
    ensures Carries(live, before, p, k) <==> (Given(live, before, k) ==> Given(live, p, k))
  {
    hide ActionId, AllDistinct, Bears;
    forall i, n, q | GivesAt(live, i, n, q, k) ensures Bears(live, i, n, k.0) { GiverBears(live, i, n, q, k); }
    forall i, n, j, m | Bears(live, i, n, k.0) && Bears(live, j, m, k.0) ensures i == j && n == m {
      OneBearer(live, i, n, j, m, k.0);
    }
    hide Gives, GivesAt;
    if Given(live, p, k) {
      var i, n :| GivesAt(live, i, n, p, k);
      assert FirstBears(live, i, n, k.0) && FirstGives(live, i, p, k);
      if j, m :| GivesAt(live, j, m, before, k) { assert FirstGives(live, i, before, k); }
    }
  }

  lemma GiverBears(live: seq<Block>, i: int, n: int, p: Projections, k: RoleKey)
    requires GivesAt(live, i, n, p, k)
    ensures Bears(live, i, n, k.0)
  {}

  /** From an emptied table it does so if and only if every role found is held by the first bearer of its identity. */
  lemma ReindexFromEmpty(live: seq<Block>, before: Projections, p: Projections)
    requires Replay.Ascending(live) && InsertAll(EMPTY, live, before).Ok?
    ensures InsertAll(EMPTY, live, p).Ok?
    ensures Reindexed(Ingested(live, before).(actionAddresses := map[]), p) == Ingested(live, p).actionAddresses
      <==> forall k :: Given(live, p, k) ==> FirstBearerGives(live, p, k)
  {
    hide InsertAll, FirstBearerGives, ImpliedRows, ImpliedBy;
    ActionsIgnoreSchema(live, before, NO_ROLES);
    ReindexIsIngest(live, NO_ROLES, p);
    var x, y := Ingested(live, before), Ingested(live, NO_ROLES);
    forall k ensures k !in y.actionAddresses && !Given(live, NO_ROLES, k) { AddressesAreFirst(live, NO_ROLES, k); }
    assert y.actionAddresses == map[];
    assert Reindexed(x.(actionAddresses := map[]), p) == Reindexed(y, p);
    forall k ensures Carries(live, NO_ROLES, p, k) <==> (Given(live, p, k) ==> FirstBearerGives(live, p, k)) {}
  }

  // --------------------------------------------------------- a role is swallowed

  /** A schema that finds one address in one payload, and one that finds nothing. */
  const ONE_ROLE := Projections(
    (kind, payload) => if payload == "b" then [("addr", "role")] else [], _ => {}, _ => None, (_, _) => None)
  const NO_ROLES := Projections((_, _) => [], _ => {}, _ => None, (_, _) => None)

  function Twice(): Block {
    Block(0, "h", "", 0, None, 0, [Action(Some("id"), "s", "k", "a"), Action(Some("id"), "s", "k", "b")], None)
  }

  /**
   * The condition can fail: a block bears one identity twice. Ingestion indexes the role of the
   * action it swallows; reindexing, which sees stored actions only, does not bring it back.
   */
  lemma SwallowedRoles()
    ensures Replay.Ascending([Twice()]) && InsertAll(EMPTY, [Twice()], NO_ROLES).Ok? && InsertAll(EMPTY, [Twice()], ONE_ROLE).Ok?
    ensures var k := ("id", "addr", "role");
      && k in Ingested([Twice()], ONE_ROLE).actionAddresses
      && k !in Reindexed(Ingested([Twice()], NO_ROLES), ONE_ROLE)
  {
    hide InsertAll, Reindexed, IsImplied, StoredFirst;
    var live, k := [Twice()], ("id", "addr", "role");
    OneBlock(Twice(), NO_ROLES);
    ActionsIgnoreSchema(live, NO_ROLES, ONE_ROLE);
    assert ONE_ROLE.resolve("k", "b")[0] == ("addr", "role");
    assert GivesAt(live, 0, 1, ONE_ROLE, k);
    AddressesAreFirst(live, ONE_ROLE, k);
    AddressesAreFirst(live, NO_ROLES, k);
    ActionsAreFirst(live, ONE_ROLE, k.0);
    ImpliedIsFirst(Ingested(live, NO_ROLES).actions, live, ONE_ROLE, k);
    ReindexedIs(Ingested(live, NO_ROLES), ONE_ROLE, k);
    assert Bears(live, 0, 0, k.0);
  }

  lemma OneBlock(b: Block, p: Projections)
    requires |b.actions| <= MAX_ACTIONS
    ensures InsertAll(EMPTY, [b], p).Ok?
  {
    hide InsertIndex;
    Store.InsertOne(EMPTY, b, p);
  }
}

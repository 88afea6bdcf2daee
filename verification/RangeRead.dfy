/** Reading blocks back: one by height, a page of a range in three queries, and a whole range page by page. */
module RangeRead {
  import opened Wire
  import opened Storage
  import opened Order
  import Paging
  import opened Rows

  // ------------------------------------------------------------------ queries

  /** Every action sits in a stored block, whose timestamp its row carries. */
  ghost predicate Housed(x: History) {
    forall id :: id in x.actions ==> x.actions[id].height in x.blocks
  }

  /** `ORDER BY block_height, index_in_block`; a name only breaks a tie no two actions can have. */
  function ActionKeys(x: History, lo: int, hi: int): (r: set<Key>)
    ensures forall k :: k in r ==> lo <= k.height <= hi && k.name in x.actions
  {
    set id | id in x.actions && lo <= x.actions[id].height <= hi :: Key(x.actions[id].height, x.actions[id].row.index, id)
  }

  function DroppedKeys(s: State, lo: int, hi: int): (r: set<Key>)
    ensures forall k :: k in r ==> lo <= k.height <= hi && (k.name, k.height) in s.dropped
  {
    set k | k in s.dropped && lo <= k.1 <= hi :: Key(k.1, 0, k.0)
  }

  function BlockKeys(x: History, from: int, to: int): (r: set<Key>)
    ensures forall k :: k in r ==> from <= k.height <= to && k.height in x.blocks
  {
    set h | h in x.blocks && from <= h <= to :: Key(h, 0, "")
  }

  function ActionAt(x: History, k: Key): ActionView
    requires Housed(x) && k.name in x.actions
  {
    var a := x.actions[k.name];
    ActionView(k.name, a.height, a.row.index, a.row.kind, a.row.sender, a.row.payload, x.blocks[a.height].timestamp)
  }

  function DroppedAt(s: State, k: Key): DroppedView
    requires (k.name, k.height) in s.dropped
  {
    DroppedView(k.height, s.dropped[(k.name, k.height)])
  }

  lemma Listed(keys: set<Key>, i: int)
    requires 0 <= i < |keys|
    ensures Sort(keys)[i] in keys
  {
    assert Sort(keys)[i] in Elements(Sort(keys));
  }

  function Actions(x: History, lo: int, hi: int): seq<ActionView>
    requires Housed(x)
  {
    var keys := ActionKeys(x, lo, hi);
    seq(|keys|, i requires 0 <= i < |keys| => Listed(keys, i); ActionAt(x, Sort(keys)[i]))
  }

  function Dropped(s: State, lo: int, hi: int): seq<DroppedView> {
    var keys := DroppedKeys(s, lo, hi);
    seq(|keys|, i requires 0 <= i < |keys| => Listed(keys, i); DroppedAt(s, Sort(keys)[i]))
  }

  /** The point read: one height. */
  function GetBlock(d: Database, h: int): Option<BlockRow>
    requires Housed(d.index.history)
  {
    var x := d.index.history;
    if h !in x.blocks then None
    else
      var actions := Actions(x, h, h);
      var b := x.blocks[h];
      Some(BlockRow(h, b.hash, b.parentHash, b.timestamp, b.proposer, Undecoded(actions), actions,
                    Dropped(d.index.state, h, h), h in d.disputed))
  }

  // ------------------------------------------------------------------ grouping

  function AtHeight<V>(rows: seq<V>, h: int, height: V -> int): seq<V> {
    if rows == [] then []
    else
      var front, last := AtHeight(rows[..|rows| - 1], h, height), rows[|rows| - 1];
      if height(last) == h then front + [last] else front
  }

  function Entry<V>(m: map<int, seq<V>>, h: int): seq<V> {
    if h in m then m[h] else []
  }

  /** Groups rows by height in one pass, keeping their order. */
  method Group<V>(rows: seq<V>, height: V -> int) returns (m: map<int, seq<V>>)
    ensures forall h :: Entry(m, h) == AtHeight(rows, h, height)
  {
    m := map[];
    for i := 0 to |rows|
      invariant forall h :: Entry(m, h) == AtHeight(rows[..i], h, height)
    {
      assert rows[..i + 1][..i] == rows[..i];
      var h := height(rows[i]);
      m := m[h := Entry(m, h) + [rows[i]]];
    }
    assert rows[..|rows|] == rows;
  }

  function KeysAt(keys: seq<Key>, h: int): (r: seq<Key>)
    ensures forall k :: k in r ==> k in keys && k.height == h
  {
    AtHeightMembers(keys, h);
    AtHeight(keys, h, HeightOf)
  }

  function HeightOf(k: Key): int { k.height }

  lemma {:induction false} AtHeightMembers(keys: seq<Key>, h: int)
    ensures forall k :: k in AtHeight(keys, h, HeightOf) <==> k in keys && k.height == h
  {
    if keys != [] {
      AtHeightMembers(keys[..|keys| - 1], h);
      assert keys == keys[..|keys| - 1] + [keys[|keys| - 1]];
    }
  }

  lemma {:induction false} KeysAtSorted(keys: seq<Key>, h: int)
    requires Sorted(keys)
    ensures Sorted(KeysAt(keys, h))
  {
    if keys != [] {
      var front := keys[..|keys| - 1];
      KeysAtSorted(front, h);
      AtHeightMembers(front, h);
    }
  }

  lemma InElements(keys: seq<Key>, k: Key)
    ensures k in keys <==> k in Elements(keys)
  {}

  /** Picking one height out of a sorted query is the sorted query for that height. */
  lemma PickedIsSorted(keys: set<Key>, part: set<Key>, h: int)
    requires forall k :: k in part <==> k in keys && k.height == h
    ensures KeysAt(Sort(keys), h) == Sort(part)
  {
    KeysAtSorted(Sort(keys), h);
    forall k ensures k in Elements(KeysAt(Sort(keys), h)) <==> k in Elements(Sort(part)) {
      AtHeightMembers(Sort(keys), h);
      InElements(KeysAt(Sort(keys), h), k);
      InElements(Sort(keys), k);
    }
    SortedUnique(KeysAt(Sort(keys), h), Sort(part));
  }

  function ViewHeight(a: ActionView): int { a.height }

  function DropHeight(v: DroppedView): int { v.height }

  function ActionViews(x: History, keys: seq<Key>): seq<ActionView>
    requires Housed(x) && forall k :: k in keys ==> k.name in x.actions
  {
    seq(|keys|, i requires 0 <= i < |keys| => ActionAt(x, keys[i]))
  }

  function DroppedViews(s: State, keys: seq<Key>): seq<DroppedView>
    requires forall k :: k in keys ==> (k.name, k.height) in s.dropped
  {
    seq(|keys|, i requires 0 <= i < |keys| => DroppedAt(s, keys[i]))
  }

  lemma {:induction false} ViewsAtHeight(x: History, keys: seq<Key>, h: int)
    requires Housed(x) && forall k :: k in keys ==> k.name in x.actions && x.actions[k.name].height == k.height
    ensures AtHeight(ActionViews(x, keys), h, ViewHeight) == ActionViews(x, KeysAt(keys, h))
  {
    if keys != [] {
      var front := keys[..|keys| - 1];
      ViewsAtHeight(x, front, h);
      assert ActionViews(x, keys)[..|keys| - 1] == ActionViews(x, front);
    }
  }

  lemma {:induction false} DroppedAtHeight(s: State, keys: seq<Key>, h: int)
    requires forall k :: k in keys ==> (k.name, k.height) in s.dropped
    ensures AtHeight(DroppedViews(s, keys), h, DropHeight) == DroppedViews(s, KeysAt(keys, h))
  {
    if keys != [] {
      var front := keys[..|keys| - 1];
      DroppedAtHeight(s, front, h);
      assert DroppedViews(s, keys)[..|keys| - 1] == DroppedViews(s, front);
    }
  }

  /** A height's share of the page queries is what the point read queries for it. */
  lemma GroupIsPoint(d: Database, lo: int, hi: int, h: int)
    requires Housed(d.index.history) && lo <= h <= hi
    ensures AtHeight(Actions(d.index.history, lo, hi), h, ViewHeight) == Actions(d.index.history, h, h)
    ensures AtHeight(Dropped(d.index.state, lo, hi), h, DropHeight) == Dropped(d.index.state, h, h)
  {
    hide Sort, AtHeight, Housed;
    var x, s := d.index.history, d.index.state;
    var ks, one := ActionKeys(x, lo, hi), ActionKeys(x, h, h);
    SortKeys(ks);
    SortKeys(one);
    ViewsAtHeight(x, Sort(ks), h);
    PickedIsSorted(ks, one, h);
    assert Actions(x, lo, hi) == ActionViews(x, Sort(ks)) && Actions(x, h, h) == ActionViews(x, Sort(one));
    var ds, only := DroppedKeys(s, lo, hi), DroppedKeys(s, h, h);
    SortKeys(ds);
    SortKeys(only);
    DroppedAtHeight(s, Sort(ds), h);
    PickedIsSorted(ds, only, h);
    assert Dropped(s, lo, hi) == DroppedViews(s, Sort(ds)) && Dropped(s, h, h) == DroppedViews(s, Sort(only));
  }

  lemma SortKeys(keys: set<Key>)
    ensures forall k :: k in Sort(keys) <==> k in keys
  {
    forall k ensures k in Sort(keys) <==> k in keys { InElements(Sort(keys), k); }
  }

  // ---------------------------------------------------------------- range page

  const BLOCK_PAGE := 500

  /** The first `limit` stored heights of a range, ascending. */
  function PageHeights(d: Database, from: int, to: int, limit: nat): seq<Key> {
    First(BlockKeys(d.index.history, from, to), limit)
  }

  lemma PageHeightStored(d: Database, from: int, to: int, limit: nat, i: int)
    requires 0 <= i < |PageHeights(d, from, to, limit)|
    ensures PageHeights(d, from, to, limit)[i] in BlockKeys(d.index.history, from, to)
  {
    Listed(BlockKeys(d.index.history, from, to), i);
  }

  /** What the point read answers for each of those heights. */
  function Page(d: Database, from: int, to: int, limit: nat): seq<BlockRow>
    requires Housed(d.index.history)
  {
    var heights := PageHeights(d, from, to, limit);
    seq(|heights|, i requires 0 <= i < |heights| =>
      PageHeightStored(d, from, to, limit, i); GetBlock(d, heights[i].height).value)
  }

  /**
   * Three queries - headers, actions and dropped actions of the covered heights - grouped by
   * height in memory: exactly the rows point reads would return, in ascending order.
   */
  method GetBlocksInRange(d: Database, from: int, to: int, limit: nat) returns (r: seq<BlockRow>)
    requires Housed(d.index.history)
    ensures r == Page(d, from, to, limit)
  {
    hide Housed, AtHeight, PageHeights, Page, Actions, Dropped, Undecoded, BlockKeys;
    var x := d.index.history;
    var rows := PageHeights(d, from, to, limit);
    PageRows(d, from, to, limit);
    if rows == [] {
      return [];
    }
    var lo, hi := rows[0].height, rows[|rows| - 1].height;
    var byHeight := Group(Actions(x, lo, hi), ViewHeight);
    var droppedByHeight := Group(Dropped(d.index.state, lo, hi), DropHeight);
    PageAscends(d, from, to, limit);
    r := [];
    for i := 0 to |rows|
      invariant r == Page(d, from, to, limit)[..i]
      invariant forall j :: i <= j < |rows| ==>
        && Entry(byHeight, rows[j].height) == AtHeight(Actions(x, lo, hi), rows[j].height, ViewHeight)
        && Entry(droppedByHeight, rows[j].height) == AtHeight(Dropped(d.index.state, lo, hi), rows[j].height, DropHeight)
    {
      var h := rows[i].height;
      GroupIsPoint(d, lo, hi, h);
      var actions, dropped := Entry(byHeight, h), Entry(droppedByHeight, h);
      byHeight, droppedByHeight := byHeight - {h}, droppedByHeight - {h};
      var b := x.blocks[h];
      r := r + [BlockRow(h, b.hash, b.parentHash, b.timestamp, b.proposer, Undecoded(actions), actions, dropped, h in d.disputed)];
    }
  }

  /** A page has one row for each of its heights, the point read's. */
  lemma PageRows(d: Database, from: int, to: int, limit: nat)
    requires Housed(d.index.history)
    ensures var heights, page := PageHeights(d, from, to, limit), Page(d, from, to, limit);
      && |page| == |heights|
      && forall i :: 0 <= i < |page| ==>
           heights[i].height in d.index.history.blocks && GetBlock(d, heights[i].height) == Some(page[i])
  {
    hide GetBlock, PageHeights;
    forall i | 0 <= i < |Page(d, from, to, limit)|
      ensures PageHeights(d, from, to, limit)[i].height in d.index.history.blocks
      ensures GetBlock(d, PageHeights(d, from, to, limit)[i].height) == Some(Page(d, from, to, limit)[i])
    {
      PageHeightStored(d, from, to, limit, i);
      RowHeight(d, PageHeights(d, from, to, limit)[i].height);
    }
  }

  lemma PageAscends(d: Database, from: int, to: int, limit: nat)
    ensures var r := PageHeights(d, from, to, limit);
      forall i, j :: 0 <= i < j < |r| ==> r[i].height < r[j].height
  {
    hide Sort;
    var keys := BlockKeys(d.index.history, from, to);
    var r := PageHeights(d, from, to, limit);
    forall i, j | 0 <= i < j < |r| ensures r[i].height < r[j].height {
      Listed(keys, i);
      Listed(keys, j);
      assert Less(Sort(keys)[i], Sort(keys)[j]);
      Total(r[i], r[j]);
    }
  }

  // --------------------------------------------------------------- whole range

  /** Every stored block of the range, ascending, as point reads return them. */
  function WholeRange(d: Database, from: int, to: int): seq<BlockRow>
    requires Housed(d.index.history)
  {
    Page(d, from, to, |BlockKeys(d.index.history, from, to)|)
  }

  /** The replay: page after page, each starting past the last height of the one before, until one is empty. */
  function ReadRange(d: Database, from: int, to: int, limit: nat): seq<BlockRow>
    requires Housed(d.index.history) && limit > 0
    decreases if from > to then 0 else 1 + to - from
  {
    if from > to then []
    else
      var page := Page(d, from, to, limit);
      if page == [] then []
      else
        FirstPageOf(d, from, to, limit);
        page + ReadRange(d, page[|page| - 1].height + 1, to, limit)
  }

  /** Whatever the page size, the replay reads every stored block of the range, ascending, each once. */
  lemma {:induction false} ReplayCoversRange(d: Database, from: int, to: int, limit: nat)
    requires Housed(d.index.history) && limit > 0
    ensures ReadRange(d, from, to, limit) == WholeRange(d, from, to)
    decreases if from > to then 0 else 1 + to - from
  {
    hide Page, WholeRange, Housed;
    if from > to {
      NothingLeft(d, from, to);
    } else {
      FirstPageOf(d, from, to, limit);
      var page := Page(d, from, to, limit);
      if page != [] {
        ReplayCoversRange(d, page[|page| - 1].height + 1, to, limit);
      }
    }
  }

  lemma NothingLeft(d: Database, from: int, to: int)
    requires Housed(d.index.history) && from > to
    ensures WholeRange(d, from, to) == []
  {
    assert BlockKeys(d.index.history, from, to) == {};
  }

  /** A page and what lies past its last height make up the range; an empty page means nothing is left. */
  lemma FirstPageOf(d: Database, from: int, to: int, limit: nat)
    requires Housed(d.index.history) && limit > 0
    ensures var page := Page(d, from, to, limit);
      && (page == [] ==> WholeRange(d, from, to) == [])
      && (page != [] ==> (var last := page[|page| - 1].height;
            from <= last <= to && WholeRange(d, from, to) == page + WholeRange(d, last + 1, to)))
  {
    hide Sort, Less, GetBlock, BlockKeys, Housed;
    var x := d.index.history;
    var heights := PageHeights(d, from, to, limit);
    if heights != [] {
      var n := |heights|;
      PageHeightStored(d, from, to, limit, n - 1);
      RowHeight(d, heights[n - 1].height);
      RestOfRange(x, from, to, n - 1);
      var last := heights[n - 1].height;
      SplitRange(d, from, to, last, n);
      assert Page(d, from, to, n) == Page(d, from, to, limit);
    }
  }

  lemma RowHeight(d: Database, h: int)
    requires Housed(d.index.history)
    ensures h in d.index.history.blocks ==> GetBlock(d, h).Some? && GetBlock(d, h).value.height == h
  {}

  lemma SplitRange(d: Database, from: int, to: int, last: int, n: nat)
    requires Housed(d.index.history) && n <= |BlockKeys(d.index.history, from, to)|
    requires Sort(BlockKeys(d.index.history, last + 1, to)) == Sort(BlockKeys(d.index.history, from, to))[n..]
    ensures WholeRange(d, from, to) == Page(d, from, to, n) + WholeRange(d, last + 1, to)
  {
    hide Sort, GetBlock, BlockKeys, Housed;
    var keys, rest := BlockKeys(d.index.history, from, to), BlockKeys(d.index.history, last + 1, to);
    var whole, page, more := WholeRange(d, from, to), Page(d, from, to, n), WholeRange(d, last + 1, to);
    assert |Sort(rest)| == |Sort(keys)| - n;
    forall i | 0 <= i < |whole| ensures whole[i] == (page + more)[i] {
      if i >= n { assert Sort(keys)[i] == Sort(rest)[i - n]; }
    }
  }

  /** The sorted heights past the i-th are the sorted heights of the range starting just above it. */
  lemma RestOfRange(x: History, from: int, to: int, i: int)
    requires 0 <= i < |BlockKeys(x, from, to)|
    ensures var last := Sort(BlockKeys(x, from, to))[i].height;
      Sort(BlockKeys(x, last + 1, to)) == Sort(BlockKeys(x, from, to))[i + 1..]
      && |BlockKeys(x, last + 1, to)| == |BlockKeys(x, from, to)| - i - 1
  {
    hide Sort;
    var keys := BlockKeys(x, from, to);
    var last := Sort(keys)[i];
    Listed(keys, i);
    Paging.PastIsRest(keys, i);
    forall k ensures k in Paging.Past(keys, last) <==> k in BlockKeys(x, last.height + 1, to) {
      Total(last, last);
    }
    assert Paging.Past(keys, last) == BlockKeys(x, last.height + 1, to);
  }

  // ------------------------------------------------------------- page contents

  /** `h` is the first stored height above `c`. */
  ghost predicate FollowsIn(d: Database, c: int, h: int) {
    c < h && h in d.index.history.blocks && forall g :: c < g < h ==> g !in d.index.history.blocks
  }

  /** A sorted list has nothing between neighbours, nor before its first. */
  lemma NothingBetween(keys: set<Key>, k: int, x: Key)
    requires x in keys && 0 <= k < |keys| && Less(x, Sort(keys)[k])
    ensures k > 0 && (x == Sort(keys)[k - 1] || Less(x, Sort(keys)[k - 1]))
  {
    hide Sort, Less;
    var r := Sort(keys);
    assert x in Elements(r);
    var m :| 0 <= m < |r| && r[m] == x;
    Total(x, r[k]);
    assert m < k;
  }

  /** A page lists stored blocks with none left out between them, each as a point read returns it. */
  lemma PageFollows(d: Database, from: int, to: int, limit: nat)
    requires Housed(d.index.history)
    ensures var page := Page(d, from, to, limit);
      && (page != [] ==> FollowsIn(d, from - 1, page[0].height))
      && (forall k :: 0 < k < |page| ==> FollowsIn(d, page[k - 1].height, page[k].height))
      && (forall k :: 0 <= k < |page| ==> page[k].height <= to && GetBlock(d, page[k].height) == Some(page[k]))
  {
    hide Sort, Less, GetBlock, FollowsIn, Housed;
    var heights, page := PageHeights(d, from, to, limit), Page(d, from, to, limit);
    forall k | 0 <= k < |page|
      ensures page[k].height == heights[k].height <= to && GetBlock(d, page[k].height) == Some(page[k])
      ensures FollowsIn(d, if k == 0 then from - 1 else heights[k - 1].height, heights[k].height)
    {
      PageHeightStored(d, from, to, limit, k);
      RowHeight(d, heights[k].height);
      HeightFollows(d, from, to, limit, k);
    }
    if page != [] { HeightFollows(d, from, to, limit, 0); }
  }

  lemma HeightFollows(d: Database, from: int, to: int, limit: nat, k: int)
    requires 0 <= k < |PageHeights(d, from, to, limit)|
    ensures var r := PageHeights(d, from, to, limit);
      FollowsIn(d, if k == 0 then from - 1 else r[k - 1].height, r[k].height)
  {
    hide Sort;
    var keys, r := BlockKeys(d.index.history, from, to), PageHeights(d, from, to, limit);
    var c, h := if k == 0 then from - 1 else r[k - 1].height, r[k].height;
    PageHeightStored(d, from, to, limit, k);
    if k > 0 {
      PageHeightStored(d, from, to, limit, k - 1);
      PageAscends(d, from, to, limit);
    }
    forall g | c < g < h ensures g !in d.index.history.blocks {
      HeightBetween(d, from, to, limit, k, g);
    }
  }

  lemma HeightBetween(d: Database, from: int, to: int, limit: nat, k: int, g: int)
    requires 0 <= k < |PageHeights(d, from, to, limit)|
    requires from <= g <= to
    ensures var r := PageHeights(d, from, to, limit);
      g in d.index.history.blocks ==> g >= r[k].height || (k > 0 && g <= r[k - 1].height)
  {
    hide Sort;
    var keys, x := BlockKeys(d.index.history, from, to), Key(g, 0, "");
    if g in d.index.history.blocks && Less(x, Sort(keys)[k]) {
      NothingBetween(keys, k, x);
    }
  }
}

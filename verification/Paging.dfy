/** Merged newest-first pages, and following a keyset cursor while the index grows. */
module Paging {
  import opened Order
  import Heights

  // -------------------------------------------------------------- merging

  ghost function All(branches: seq<set<Key>>): set<Key> {
    if branches == [] then {} else branches[0] + All(branches[1..])
  }

  /** What is left of each branch once it stops at `n` rows. */
  ghost function Tops(branches: seq<set<Key>>, n: nat): set<Key> {
    if branches == [] then {} else Elements(First(branches[0], n)) + Tops(branches[1..], n)
  }

  lemma TopsAreRows(branches: seq<set<Key>>, n: nat)
    ensures Tops(branches, n) <= All(branches)
  {
    if branches != [] {
      TopsAreRows(branches[1..], n);
      forall x | x in Elements(First(branches[0], n)) ensures x in branches[0] { InFirst(branches[0], n, x); }
    }
  }

  lemma SmallerGrows(a: set<Key>, b: set<Key>, x: Key)
    requires a <= b
    ensures |Smaller(a, x)| <= |Smaller(b, x)|
  {
    var sa, sb := Smaller(a, x), Smaller(b, x);
    assert sa <= sb;
    assert sb == sa + (sb - sa);
  }

  /** A row among the first `n` of everything is among the first `n` of its branch. */
  lemma FirstSurvives(branches: seq<set<Key>>, whole: set<Key>, n: nat, x: Key)
    requires All(branches) <= whole && x in All(branches) && |Smaller(whole, x)| < n
    ensures x in Tops(branches, n)
  {
    if x in branches[0] {
      SmallerGrows(branches[0], whole, x);
      InFirst(branches[0], n, x);
    } else {
      FirstSurvives(branches[1..], whole, n, x);
    }
  }

  /** Fewer than `n` rows of the merged tops are smaller exactly when fewer than `n` of all rows are. */
  lemma TopsRank(branches: seq<set<Key>>, n: nat, x: Key)
    requires x in All(branches)
    ensures |Smaller(All(branches), x)| < n <==> x in Tops(branches, n) && |Smaller(Tops(branches, n), x)| < n
  {
    var all, tops := All(branches), Tops(branches, n);
    TopsAreRows(branches, n);
    SmallerGrows(tops, all, x);
    if |Smaller(all, x)| < n {
      FirstSurvives(branches, all, n, x);
    } else {
      var lead := Elements(First(all, n));
      RankOf(all, x);
      forall y | y in lead ensures y in Smaller(tops, x) {
        InFirst(all, n, y);
        FirstSurvives(branches, all, n, y);
        SmallerRankIsLess(all, y, x);
      }
      SizeOfFirst(all, n);
      Heights.SubsetSize(lead, Smaller(tops, x));
    }
  }

  lemma RankOf(s: set<Key>, x: Key)
    requires x in s
    ensures |Smaller(s, x)| < |s|
  {
    assert x in Elements(Sort(s));
    var i :| 0 <= i < |Sort(s)| && Sort(s)[i] == x;
    RankIsPlace(s, i);
  }

  lemma SmallerRankIsLess(s: set<Key>, y: Key, x: Key)
    requires x in s && y in s && |Smaller(s, y)| < |Smaller(s, x)|
    ensures Less(y, x)
  {
    Total(y, x);
    if !Less(y, x) {
      forall z | z in Smaller(s, x) ensures z in Smaller(s, y) {
        if x != y { Transitive(z, x, y); }
      }
      Heights.SubsetSize(Smaller(s, x), Smaller(s, y));
    }
  }

  lemma SizeOfFirst(s: set<Key>, n: nat)
    ensures |Elements(First(s, n))| == Heights.Least(n, |s|) && Sorted(First(s, n))
  {
    assert Sorted(First(s, n));
    SizeOfSorted(First(s, n));
  }

  /**
   * Merged history. Cutting every role's branch to `n` rows before uniting, sorting and cutting
   * again gives the first `n` rows of the whole deduplicated union, for any number of branches.
   */
  lemma MergedPage(branches: seq<set<Key>>, n: nat)
    ensures First(Tops(branches, n), n) == First(All(branches), n)
  {
    var a, b := First(Tops(branches, n), n), First(All(branches), n);
    TopsAreRows(branches, n);
    forall x ensures x in Elements(a) <==> x in Elements(b) {
      InFirst(Tops(branches, n), n, x);
      InFirst(All(branches), n, x);
      if x in All(branches) {
        TopsRank(branches, n, x);
      }
    }
    SizeOfFirst(Tops(branches, n), n);
    SizeOfFirst(All(branches), n);
    SortedUnique(a, b);
  }

  // --------------------------------------------------------------- cursors

  /** The rows strictly past a cursor. */
  ghost function Past(s: set<Key>, k: Key): set<Key> {
    set x | x in s && Less(k, x)
  }

  /** What lies past the i-th row of the sorted list is the rest of the list. */
  lemma PastIsRest(s: set<Key>, i: int)
    requires 0 <= i < |s|
    ensures Sort(Past(s, Sort(s)[i])) == Sort(s)[i + 1..]
  {
    hide Less, Sort;
    var r := Sort(s);
    var rest := r[i + 1..];
    forall x ensures x in Elements(rest) <==> x in Past(s, r[i]) {
      if x in Elements(rest) { RestIsPast(s, i, x); }
      if x in Past(s, r[i]) { PastInRest(s, i, x); }
    }
    SortedUnique(Sort(Past(s, r[i])), rest);
  }

  lemma RestIsPast(s: set<Key>, i: int, x: Key)
    requires 0 <= i < |s| && x in Elements(Sort(s)[i + 1..])
    ensures x in Past(s, Sort(s)[i])
  {
    hide Less, Sort;
    var r := Sort(s);
    var j :| 0 <= j < |r| - i - 1 && r[i + 1..][j] == x;
    assert r[i + 1 + j] in Elements(r);
  }

  lemma PastInRest(s: set<Key>, i: int, x: Key)
    requires 0 <= i < |s| && x in Past(s, Sort(s)[i])
    ensures x in Elements(Sort(s)[i + 1..])
  {
    hide Less, Sort;
    var r := Sort(s);
    assert x in Elements(r);
    var j :| 0 <= j < |r| && r[j] == x;
    Total(r[i], r[j]);
    assert r[i + 1..][j - i - 1] == x;
  }

  /** One page, after the cursor if there is one. */
  ghost function Page(s: set<Key>, cursor: seq<Key>, n: nat): seq<Key> {
    First(if cursor == [] then s else Past(s, cursor[|cursor| - 1]), n)
  }

  /** The rows read by following the cursor, one request per table state. */
  ghost function Follow(tables: seq<set<Key>>, n: nat): seq<Key> {
    if tables == [] then []
    else
      var read := Follow(tables[..|tables| - 1], n);
      read + Page(tables[|tables| - 1], read, n)
  }

  /** The table starts as `s`; later requests see only rows that sort before all of `s`: newer blocks. */
  ghost predicate GrowsInFront(tables: seq<set<Key>>, s: set<Key>) {
    && (tables != [] ==> tables[0] == s)
    && forall i :: 0 <= i < |tables| ==>
         s <= tables[i] && forall x, y :: x in tables[i] && x !in s && y in s ==> Less(x, y)
  }

  lemma PastIgnoresFront(t: set<Key>, s: set<Key>, k: Key)
    requires s <= t && k in s && forall x, y :: x in t && x !in s && y in s ==> Less(x, y)
    ensures Past(t, k) == Past(s, k)
  {
    forall x | x in Past(t, k) ensures x in s {
      Total(x, k);
    }
  }

  /** How many of `rows` rows the first `requests` pages of `n` reach. */
  function Reach(requests: nat, n: nat, rows: nat): (r: nat)
    ensures r <= rows && (requests > 0 && n > 0 && rows > 0 ==> r > 0)
  {
    if requests == 0 then 0 else Heights.Least(Reach(requests - 1, n, rows) + n, rows)
  }

  lemma {:induction false} ReachIsProduct(requests: nat, n: nat, rows: nat)
    ensures Reach(requests, n, rows) == Heights.Least(requests * n, rows)
  {
    if requests > 0 {
      ReachIsProduct(requests - 1, n, rows);
      Distribute(requests - 1, n);
    }
  }

  lemma Distribute(m: nat, n: nat)
    ensures (m + 1) * n == m * n + n && m * n >= 0
  {}

  /**
   * Keyset paging. Following the cursor page by page, while blocks keep being appended between
   * requests, reads the rows that were there at the first request in order, each exactly once:
   * after any number of requests the rows read are the first requests * n of them
   * (ReachIsProduct), and the new rows never appear.
   */
  lemma {:induction false} FollowReadsAll(tables: seq<set<Key>>, s: set<Key>, n: nat)
    requires GrowsInFront(tables, s) && s != {} && n > 0
    ensures Follow(tables, n) == Sort(s)[..Reach(|tables|, n, |s|)]
  {
    hide Less, Sort, Page;
    if tables != [] {
      var m := |tables| - 1;
      var front := tables[..m];
      FollowReadsAll(front, s, n);
      var k := Reach(m, n, |s|);
      if m > 0 {
        NextPage(tables[m], s, k, n);
      } else {
        FirstPage(s, n);
      }
    }
  }

  lemma FirstPage(s: set<Key>, n: nat)
    ensures [] + Page(s, [], n) == Sort(s)[..Heights.Least(n, |s|)]
  {}

  /** With the first `k` rows read, the next page is the next `n` rows. */
  lemma NextPage(t: set<Key>, s: set<Key>, k: nat, n: nat)
    requires s <= t && 0 < k <= |s| && forall x, y :: x in t && x !in s && y in s ==> Less(x, y)
    ensures Sort(s)[..k] + Page(t, Sort(s)[..k], n) == Sort(s)[..Heights.Least(k + n, |s|)]
  {
    hide Less, Sort;
    var last := Sort(s)[k - 1];
    assert last in Elements(Sort(s));
    PastIgnoresFront(t, s, last);
    PastIsRest(s, k - 1);
    assert |Past(s, last)| == |s| - k;
  }
}

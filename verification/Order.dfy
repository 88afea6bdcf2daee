/** Keyset order: positions compared by height, then index, then text, and the sorted list of a finite set. */
module Order {
  import Heights

  datatype Key = Key(height: int, index: int, name: string)

  predicate TextLess(a: string, b: string) {
    b != [] && (a == [] || a[0] < b[0] || (a[0] == b[0] && TextLess(a[1..], b[1..])))
  }

  predicate Less(a: Key, b: Key) {
    a.height < b.height
    || (a.height == b.height && (a.index < b.index || (a.index == b.index && TextLess(a.name, b.name))))
  }

  /** Dictionary order: the texts agree up to some place, where the first one ends or has the smaller character. */
  lemma {:induction false} TextLessIs(a: string, b: string)
    ensures TextLess(a, b) <==>
      exists k :: 0 <= k <= |a| && k < |b| && a[..k] == b[..k] && (k == |a| || a[k] < b[k])
  {
    if a != [] && b != [] && a[0] == b[0] {
      TextLessIs(a[1..], b[1..]);
      if k :| 0 <= k <= |a[1..]| && k < |b[1..]| && a[1..][..k] == b[1..][..k] && (k == |a[1..]| || a[1..][k] < b[1..][k]) {
        assert a[..k + 1] == [a[0]] + a[1..][..k] == b[..k + 1];
        assert k + 1 == |a| || a[k + 1] < b[k + 1];
      }
      if k :| 0 <= k <= |a| && k < |b| && a[..k] == b[..k] && (k == |a| || a[k] < b[k]) {
        assert k > 0 && a[1..][..k - 1] == a[..k][1..] == b[..k][1..] == b[1..][..k - 1];
        assert k - 1 == |a[1..]| || a[1..][k - 1] < b[1..][k - 1];
      }
    } else if b != [] {
      assert a[..0] == b[..0];
      if k :| 0 <= k <= |a| && k < |b| && a[..k] == b[..k] && (k == |a| || a[k] < b[k]) {
        assert k > 0 ==> a[..k][0] == b[..k][0];
      }
    }
  }

  lemma TextTotal(a: string, b: string)
    ensures TextLess(a, b) || TextLess(b, a) || a == b
    ensures !(TextLess(a, b) && TextLess(b, a)) && !TextLess(a, a)
  {
    if a != [] && b != [] && a[0] == b[0] {
      TextTotal(a[1..], b[1..]);
      if a[1..] == b[1..] { assert a == [a[0]] + a[1..] == [b[0]] + b[1..] == b; }
    }
    if a != [] {
      TextTotal(a[1..], a[1..]);
    }
  }

  lemma TextTransitive(a: string, b: string, c: string)
    requires TextLess(a, b) && TextLess(b, c)
    ensures TextLess(a, c)
  {
    if a != [] && a[0] == b[0] && b[0] == c[0] {
      TextTransitive(a[1..], b[1..], c[1..]);
    }
  }

  lemma Total(a: Key, b: Key)
    ensures Less(a, b) || Less(b, a) || a == b
    ensures !(Less(a, b) && Less(b, a)) && !Less(a, a)
  {
    TextTotal(a.name, b.name);
    TextTotal(a.name, a.name);
  }

  lemma Transitive(a: Key, b: Key, c: Key)
    requires Less(a, b) && Less(b, c)
    ensures Less(a, c)
  {
    if a.height == b.height == c.height && a.index == b.index == c.index {
      TextTransitive(a.name, b.name, c.name);
    }
  }

  // ------------------------------------------------------------ sorted lists

  ghost predicate Sorted(r: seq<Key>) {
    forall i, j :: 0 <= i < j < |r| ==> Less(r[i], r[j])
  }

  function Elements(r: seq<Key>): set<Key> {
    set i | 0 <= i < |r| :: r[i]
  }

  lemma LeastExists(s: set<Key>)
    requires s != {}
    ensures exists k :: IsLeast(k, s)
  {
    var x := Heights.SomeMember(s);
    if s != {x} {
      var rest := s - {x};
      assert s == rest + {x};
      LeastExists(rest);
      var y :| IsLeast(y, rest);
      Total(x, y);
      if Less(x, y) {
        forall z | z in s && z != x ensures Less(x, z) { if z != y { Transitive(x, y, z); } }
        assert IsLeast(x, s);
      } else {
        assert IsLeast(y, s);
      }
    } else {
      assert IsLeast(x, s);
    }
  }

  predicate IsLeast(k: Key, s: set<Key>) {
    k in s && forall z :: z in s && z != k ==> Less(k, z)
  }

  /** `ORDER BY` over a finite set of rows. */
  function Sort(s: set<Key>): (r: seq<Key>)
    ensures |r| == |s| && Elements(r) == s && Sorted(r)
  {
    if s == {} then []
    else
      LeastExists(s);
      LeastUnique(s);
      var k :| k in s && IsLeast(k, s);
      var rest := Sort(s - {k});
      SortedCons(k, rest, s);
      [k] + rest
  }

  lemma LeastUnique(s: set<Key>)
    ensures forall a, b :: IsLeast(a, s) && IsLeast(b, s) ==> a == b
  {
    forall a, b | IsLeast(a, s) && IsLeast(b, s) ensures a == b { Total(a, b); }
  }

  lemma SortedCons(k: Key, rest: seq<Key>, s: set<Key>)
    requires IsLeast(k, s) && Sorted(rest) && Elements(rest) == s - {k} && |rest| == |s - {k}|
    ensures Sorted([k] + rest) && Elements([k] + rest) == s && |[k] + rest| == |s|
  {
    forall j | 0 <= j < |rest| ensures Less(k, rest[j]) {
      assert rest[j] in Elements(rest);
    }
    ElementsSplit([k], rest);
    assert Elements([k]) == {k} by { assert [k][0] == k; }
  }

  lemma NoElements(r: seq<Key>)
    ensures r == [] <==> Elements(r) == {}
  {
    if r != [] { assert r[0] in Elements(r); }
  }

  lemma ElementsSplit(a: seq<Key>, b: seq<Key>)
    ensures Elements(a + b) == Elements(a) + Elements(b)
  {
    forall x ensures x in Elements(a + b) <==> x in Elements(a) + Elements(b) {
      if x in Elements(a) {
        var i :| 0 <= i < |a| && a[i] == x;
        assert (a + b)[i] == x;
      }
      if x in Elements(b) {
        var i :| 0 <= i < |b| && b[i] == x;
        assert (a + b)[|a| + i] == x;
      }
    }
  }

  /** A sorted list is determined by its elements. */
  lemma SortedUnique(a: seq<Key>, b: seq<Key>)
    requires Sorted(a) && Sorted(b) && Elements(a) == Elements(b)
    ensures a == b
  {
    NoElements(a);
    NoElements(b);
    if a != [] && b != [] {
      assert a[0] in Elements(b) && b[0] in Elements(a);
      var i :| 0 <= i < |b| && b[i] == a[0];
      var j :| 0 <= j < |a| && a[j] == b[0];
      Total(a[0], b[0]);
      assert a[0] == b[0];
      assert a == [a[0]] + a[1..] && b == [b[0]] + b[1..];
      ElementsSplit([a[0]], a[1..]);
      ElementsSplit([b[0]], b[1..]);
      NotAgain(a);
      NotAgain(b);
      assert Elements(a[1..]) == Elements(a) - {a[0]} by { assert [a[0]][0] == a[0]; }
      assert Elements(b[1..]) == Elements(b) - {b[0]} by { assert [b[0]][0] == b[0]; }
      SortedUnique(a[1..], b[1..]);
    }
  }

  lemma NotAgain(a: seq<Key>)
    requires a != [] && Sorted(a)
    ensures a[0] !in Elements(a[1..])
  {
    Total(a[0], a[0]);
  }

  /** `ORDER BY ... LIMIT n`. */
  function First(s: set<Key>, n: nat): seq<Key> {
    Sort(s)[..Heights.Least(n, |s|)]
  }

  function Smaller(s: set<Key>, k: Key): set<Key> {
    set x | x in s && Less(x, k)
  }

  /** The number of smaller elements is the place in the sorted list. */
  lemma RankIsPlace(s: set<Key>, i: int)
    requires 0 <= i < |s|
    ensures |Smaller(s, Sort(s)[i])| == i && Smaller(s, Sort(s)[i]) == Elements(Sort(s)[..i])
  {
    var r := Sort(s);
    forall x ensures x in Smaller(s, r[i]) <==> x in Elements(r[..i]) {
      if x in Smaller(s, r[i]) {
        assert x in Elements(r);
        var j :| 0 <= j < |r| && r[j] == x;
        Total(r[i], r[j]);
        assert r[..i][j] == x;
      }
      if x in Elements(r[..i]) {
        var j :| 0 <= j < i && r[..i][j] == x;
        assert r[j] in Elements(r);
      }
    }
    assert Smaller(s, r[i]) == Elements(r[..i]);
    SizeOfSorted(r[..i]);
  }

  lemma SizeOfSorted(r: seq<Key>)
    requires Sorted(r)
    ensures |Elements(r)| == |r|
  {
    if r != [] {
      NotAgain(r);
      assert r == [r[0]] + r[1..];
      ElementsSplit([r[0]], r[1..]);
      assert Elements([r[0]]) == {r[0]} by { assert [r[0]][0] == r[0]; }
      SizeOfSorted(r[1..]);
    } else {
      assert Elements(r) == {};
    }
  }

  /** Being among the first `n` is having fewer than `n` smaller rows. */
  lemma InFirst(s: set<Key>, n: nat, x: Key)
    ensures x in Elements(First(s, n)) <==> x in s && |Smaller(s, x)| < n
  {
    var r := Sort(s);
    var top := First(s, n);
    if x in Elements(top) {
      var i :| 0 <= i < |top| && top[i] == x;
      RankIsPlace(s, i);
      assert r[i] in Elements(r);
    }
    if x in s && |Smaller(s, x)| < n {
      assert x in Elements(r);
      var i :| 0 <= i < |r| && r[i] == x;
      RankIsPlace(s, i);
      assert top[i] == x;
    }
  }
}

/** Finite sets: their members and sizes, and the greatest of a set of heights. */
module Heights {
  lemma EmptyOrNot<T>(s: set<T>)
    ensures s == {} || exists x :: x in s
  {
    if forall x :: x !in s { assert s == {}; }
  }

  lemma SomeMember<T>(s: set<T>) returns (x: T)
    requires s != {}
    ensures x in s
  {
    EmptyOrNot(s);
    x :| x in s;
  }

  predicate IsMax(m: int, s: set<int>) {
    m in s && forall x :: x in s ==> x <= m
  }

  lemma MaxExists(s: set<int>)
    requires s != {}
    ensures exists m :: IsMax(m, s)
  {
    var x := SomeMember(s);
    assert s == (s - {x}) + {x};
    if s == {x} {
      assert IsMax(x, s);
    } else {
      MaxExists(s - {x});
      var m :| IsMax(m, s - {x});
      assert IsMax(if m < x then x else m, s);
    }
  }

  ghost function Max(s: set<int>): (r: int)
    requires s != {}
    ensures r in s && forall x :: x in s ==> x <= r
  {
    MaxExists(s);
    var m :| IsMax(m, s);
    m
  }

  function Least(n: nat, m: nat): nat {
    if n < m then n else m
  }

  lemma SubsetSize<T>(a: set<T>, b: set<T>)
    requires a <= b
    ensures |a| <= |b| && (a != b ==> |a| < |b|)
  {
    assert b == a + (b - a);
  }
}

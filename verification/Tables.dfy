/** First-wins tables, the meaning of `INSERT ... ON CONFLICT DO NOTHING` and of the rollback deletes. */
module Tables {
  import opened Wire

  /** A table whose primary key holds the height. */
  type Versioned<K(==), V> = map<(K, int), V>

  /** A table whose primary key does not hold the height: the height is a column. */
  datatype At<V> = At(height: int, row: V)
  type Keyed<K(==), V> = map<K, At<V>>

  ghost predicate Mentions<K, V>(entries: seq<(K, V)>, k: K) {
    exists i :: 0 <= i < |entries| && entries[i].0 == k
  }

  /** The value the first entry for `k` carries. */
  function FirstFor<K(==), V>(entries: seq<(K, V)>, k: K): (r: Option<V>)
    ensures r.Some? <==> Mentions(entries, k)
  {
    if entries == [] then None
    else if entries[0].0 == k then assert Mentions(entries, k); Some(entries[0].1)
    else
      var r := FirstFor(entries[1..], k);
      assert Mentions(entries[1..], k) ==> Mentions(entries, k) by {
        if Mentions(entries[1..], k) {
          var i :| 0 <= i < |entries[1..]| && entries[1..][i].0 == k;
          assert entries[i + 1].0 == k;
        }
      }
      assert Mentions(entries, k) ==> Mentions(entries[1..], k) by {
        if Mentions(entries, k) {
          var i :| 0 <= i < |entries| && entries[i].0 == k;
          assert entries[1..][i - 1].0 == k;
        }
      }
      r
  }

  /** The value found is that of some entry, and no entry before it is for the key. */
  lemma FirstIsEntry<K, V>(entries: seq<(K, V)>, k: K)
    requires FirstFor(entries, k).Some?
    ensures exists i :: (0 <= i < |entries| && entries[i] == (k, FirstFor(entries, k).value)
      && forall j :: 0 <= j < i ==> entries[j].0 != k)
  {
    if entries[0].0 == k {
      assert entries[0] == (k, FirstFor(entries, k).value);
    } else {
      var rest := entries[1..];
      FirstIsEntry(rest, k);
      var i :| 0 <= i < |rest| && rest[i] == (k, FirstFor(entries, k).value) && forall j :: 0 <= j < i ==> rest[j].0 != k;
      assert entries[i + 1] == (k, FirstFor(entries, k).value);
      assert forall j :: 0 < j < i + 1 ==> entries[j] == rest[j - 1];
    }
  }

  /** Of two lists one after the other the first list's entry comes first. */
  lemma {:induction false} FirstForBoth<K, V>(a: seq<(K, V)>, b: seq<(K, V)>, k: K)
    ensures FirstFor(a + b, k) == if FirstFor(a, k).Some? then FirstFor(a, k) else FirstFor(b, k)
  {
    if a == [] {
      assert a + b == b;
    } else {
      FirstForBoth(a[1..], b, k);
      assert (a + b)[1..] == a[1..] + b;
    }
  }

  /** No key has two entries. */
  ghost predicate Unique<K, V>(entries: seq<(K, V)>) {
    forall i, j :: 0 <= i < j < |entries| ==> entries[i].0 != entries[j].0
  }

  lemma FirstIsOnly<K, V>(entries: seq<(K, V)>, i: int)
    requires Unique(entries) && 0 <= i < |entries|
    ensures FirstFor(entries, entries[i].0) == Some(entries[i].1)
  {
    if i > 0 {
      assert entries[1..][i - 1] == entries[i];
      FirstIsOnly(entries[1..], i - 1);
    }
  }

  /** Inserts `entries` at height `h`; a row whose key is taken is left alone. */
  function PutVersioned<K(==,!new), V>(m: Versioned<K, V>, h: int, entries: seq<(K, V)>): (r: Versioned<K, V>)
    ensures forall k :: k in m ==> k in r && r[k] == m[k]
    ensures forall k :: k in r && k !in m ==> k.1 == h && FirstFor(entries, k.0) == Some(r[k])
    ensures forall k :: FirstFor(entries, k).Some? ==> (k, h) in r
    decreases entries
  {
    if entries == [] then m
    else
      var k := (entries[0].0, h);
      var m' := if k in m then m else m[k := entries[0].1];
      PutVersioned(m', h, entries[1..])
  }

  /** The same for a table keyed without the height. */
  function PutKeyed<K(==,!new), V>(m: Keyed<K, V>, h: int, entries: seq<(K, V)>): (r: Keyed<K, V>)
    ensures forall k :: k in m ==> k in r && r[k] == m[k]
    ensures forall k :: k in r && k !in m ==> r[k].height == h && FirstFor(entries, k) == Some(r[k].row)
    ensures forall k :: FirstFor(entries, k).Some? ==> k in r
    decreases entries
  {
    if entries == [] then m
    else
      var k := entries[0].0;
      var m' := if k in m then m else m[k := At(h, entries[0].1)];
      PutKeyed(m', h, entries[1..])
  }

  /** What `DELETE ... WHERE height > H` leaves. */
  function KeepVersioned<K(==), V>(m: Versioned<K, V>, H: int): Versioned<K, V> {
    map k | k in m && k.1 <= H :: m[k]
  }

  function KeepKeyed<K(==), V>(m: Keyed<K, V>, H: int): Keyed<K, V> {
    map k | k in m && m[k].height <= H :: m[k]
  }

  ghost predicate VersionedBelow<K, V>(m: Versioned<K, V>, H: int) {
    forall k :: k in m ==> k.1 <= H
  }

  ghost predicate KeyedBelow<K, V>(m: Keyed<K, V>, H: int) {
    forall k :: k in m ==> m[k].height <= H
  }

  /** Inserting at `h` is invisible to a rollback below `h`. */
  lemma PutVersionedKeep<K(!new), V>(m: Versioned<K, V>, h: int, entries: seq<(K, V)>, H: int)
    requires H < h
    ensures KeepVersioned(PutVersioned(m, h, entries), H) == KeepVersioned(m, H)
  {}

  lemma PutKeyedKeep<K(!new), V>(m: Keyed<K, V>, h: int, entries: seq<(K, V)>, H: int)
    requires H < h
    ensures KeepKeyed(PutKeyed(m, h, entries), H) == KeepKeyed(m, H)
  {}

  /** Inserting only keys that are present changes nothing. */
  lemma PutVersionedNoop<K(!new), V>(m: Versioned<K, V>, h: int, entries: seq<(K, V)>)
    requires forall k :: FirstFor(entries, k).Some? ==> (k, h) in m
    ensures PutVersioned(m, h, entries) == m
  {}

  lemma PutKeyedNoop<K(!new), V>(m: Keyed<K, V>, h: int, entries: seq<(K, V)>)
    requires forall k :: FirstFor(entries, k).Some? ==> k in m
    ensures PutKeyed(m, h, entries) == m
  {}

  /** Merging rows of height `h` under the ones already there: present keys win. */
  function Under<K(==), V>(m: Keyed<K, V>, rows: Keyed<K, V>): (r: Keyed<K, V>)
    ensures forall k :: k in m ==> k in r && r[k] == m[k]
    ensures forall k :: k in r && k !in m ==> k in rows && r[k] == rows[k]
    ensures forall k :: k in rows ==> k in r
  {
    rows + m
  }

  ghost predicate AllAt<K, V>(m: Keyed<K, V>, h: int) {
    forall k :: k in m ==> m[k].height == h
  }

  lemma UnderKeep<K, V>(m: Keyed<K, V>, rows: Keyed<K, V>, h: int, H: int)
    requires AllAt(rows, h) && H < h
    ensures KeepKeyed(Under(m, rows), H) == KeepKeyed(m, H)
  {}
}

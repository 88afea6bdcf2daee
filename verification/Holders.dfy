/** The paged holder list: following its cursor, while the index grows, lists every holder once. */
module Holders {
  import opened Wire
  import opened Storage
  import opened AsOf
  import opened Order
  import opened Paging
  import Heights

  /** What a holder request asks for; `read` finds the jurisdiction in an account entry. */
  datatype Query = Query(asset: string, at: int, wanted: Option<string>, read: Json -> Option<string>)

  type Row = (string, HolderView)

  ghost function Rows(s: State, q: Query): map<(string, string), HolderView> {
    HoldersAt(s, q.asset, q.at, q.wanted, q.read)
  }

  /** The holders to list, as sort keys. */
  ghost function Names(s: State, q: Query): (r: set<Key>)
    ensures forall k :: k in r ==> (q.asset, k.name) in Rows(s, q) && k == Key(0, 0, k.name)
    ensures forall name :: (q.asset, name) in Rows(s, q) ==> Key(0, 0, name) in r
  {
    OneAsset(s, q);
    set k | k in Rows(s, q) :: Key(0, 0, k.1)
  }

  lemma OneAsset(s: State, q: Query)
    ensures forall k :: k in Rows(s, q) ==> k.0 == q.asset
  {
    hide Listed, HolderRow, Newest, Current;
  }

  /** A request without a cursor asks for what lies past the empty text. */
  function Cursor(after: Option<string>): Key {
    Key(0, 0, if after.None? then "" else after.value)
  }

  /** `WHERE holder > after ORDER BY holder LIMIT n`. */
  ghost function HolderPage(s: State, q: Query, after: Option<string>, n: nat): seq<Row> {
    Told(s, q, First(Past(Names(s, q), Cursor(after)), n))
  }

  /** The listed names with their rows. */
  ghost function Told(s: State, q: Query, keys: seq<Key>): (r: seq<Row>)
    ensures |r| == |keys| && forall i :: 0 <= i < |r| ==> r[i].0 == keys[i].name
  {
    var rows := Rows(s, q);
    seq(|keys|, i requires 0 <= i < |keys| =>
      (keys[i].name, if (q.asset, keys[i].name) in rows then rows[(q.asset, keys[i].name)] else HolderView(0, 0, None, None)))
  }

  /** Everyone the list can name: the holders with a non-empty address. */
  ghost function Nameable(s: State, q: Query): set<Key> {
    Past(Names(s, q), Cursor(None))
  }

  ghost function Listing(s: State, q: Query): seq<Row> {
    Told(s, q, Sort(Nameable(s, q)))
  }

  /** The rows read by following `after`, one request per state of the index. */
  ghost function ReadOn(states: seq<State>, q: Query, n: nat): seq<Row> {
    if states == [] then []
    else
      var read := ReadOn(states[..|states| - 1], q, n);
      read + HolderPage(states[|states| - 1], q, if read == [] then None else Some(read[|read| - 1].0), n)
  }

  lemma ToldBoth(s: State, q: Query, a: seq<Key>, b: seq<Key>)
    ensures Told(s, q, a + b) == Told(s, q, a) + Told(s, q, b)
  {
    hide Rows;
  }

  lemma ToldFirst(s: State, q: Query, keys: seq<Key>, m: nat)
    requires m <= |keys|
    ensures Told(s, q, keys[..m]) == Told(s, q, keys)[..m]
  {
    hide Rows;
  }

  /** A page past some listed holder is the next page of the nameable ones. */
  lemma PageIs(s: State, q: Query, read: seq<Key>, n: nat)
    requires read != [] ==> read[|read| - 1] in Nameable(s, q)
    ensures HolderPage(s, q, if read == [] then None else Some(read[|read| - 1].name), n)
      == Told(s, q, Page(Nameable(s, q), read, n))
  {
    hide Rows, Sort, First, Names, Less, Told;
    if read != [] {
      var last := read[|read| - 1];
      assert last == Cursor(Some(last.name));
      forall x | x in Names(s, q) && Less(last, x) ensures Less(Cursor(None), x) { Transitive(Cursor(None), last, x); }
      assert Past(Names(s, q), last) == Past(Nameable(s, q), last);
    }
  }

  /** A state the rest of the run leaves as it was at the height asked for. */
  lemma SamePage(s: State, t: State, q: Query, after: Option<string>, n: nat)
    requires StateSameUpto(t, s, q.at)
    ensures HolderPage(t, q, after, n) == HolderPage(s, q, after, n)
  {
    hide StateSameUpto, HoldersAt;
    SameReads(t, s, q.at, "", q.asset, q.wanted, q.read);
  }

  ghost predicate Settled(states: seq<State>, s: State, at: int) {
    forall i :: 0 <= i < |states| ==> StateSameUpto(states[i], s, at)
  }

  lemma {:induction false} ReadOnFollows(states: seq<State>, s: State, q: Query, n: nat)
    requires Settled(states, s, q.at) && n > 0 && Nameable(s, q) != {}
    ensures var k := Reach(|states|, n, |Nameable(s, q)|);
      ReadOn(states, q, n) == Told(s, q, Sort(Nameable(s, q))[..k])
  {
    hide StateSameUpto, Sort, Nameable, HolderPage, Told, Page;
    var all := Nameable(s, q);
    if states != [] {
      var m := |states| - 1;
      ReadOnFollows(states[..m], s, q, n);
      var k := Reach(m, n, |all|);
      var read := Sort(all)[..k];
      SamePage(s, states[m], q, if read == [] then None else Some(read[|read| - 1].name), n);
      if k > 0 { assert Sort(all)[k - 1] in Elements(Sort(all)); }
      PageIs(s, q, read, n);
      ToldBoth(s, q, read, Page(all, read, n));
      if k > 0 { NextPage(all, all, k, n); } else { FirstPage(all, n); }
    }
  }

  /**
   * The holder list, read page by page. While blocks are appended above the height asked for, and
   * rollbacks stay at or above it, following the last holder's address for any number of requests
   * reads the first requests * n rows of the list at that height, each holder once, ascending.
   */
  lemma HoldersReadAll(states: seq<State>, s: State, q: Query, n: nat)
    requires Settled(states, s, q.at) && n > 0
    ensures ReadOn(states, q, n) == Listing(s, q)[..Heights.Least(|states| * n, |Listing(s, q)|)]
  {
    hide StateSameUpto, Sort, Nameable, Told, HolderPage;
    var all := Nameable(s, q);
    if all == {} {
      NothingToRead(states, s, q, n);
    } else {
      ReadOnFollows(states, s, q, n);
      ReachIsProduct(|states|, n, |all|);
      ToldFirst(s, q, Sort(all), Heights.Least(|states| * n, |all|));
    }
  }

  lemma {:induction false} NothingToRead(states: seq<State>, s: State, q: Query, n: nat)
    requires Settled(states, s, q.at) && Nameable(s, q) == {}
    ensures ReadOn(states, q, n) == [] && Listing(s, q) == []
  {
    hide StateSameUpto, Names, Rows;
    if states != [] {
      NothingToRead(states[..|states| - 1], s, q, n);
      SamePage(s, states[|states| - 1], q, None, n);
    }
  }

  /** The holder is wanted, by the newest rows at or below the height asked for, and has this row. */
  ghost predicate Holds(s: State, q: Query, holder: string, row: HolderView) {
    var balance, account, state :=
      Newest(s.assetBalances, (q.asset, holder), q.at), Newest(s.accounts, holder, q.at),
      Newest(s.holderStates, (q.asset, holder), q.at);
    && balance == Some((row.height, row.balance)) && row.balance > 0
    && row.state == (if state.Some? then Some(state.value.1) else None)
    && row.jurisdiction == (if account.Some? then q.read(account.value.1.entry) else None)
    && (q.wanted.Some? ==> row.jurisdiction == q.wanted)
  }

  /** Who is listed, with which row: every holder wanted at that height, except one whose address is the empty text. */
  lemma ListedHolders(s: State, q: Query, holder: string, row: HolderView)
    ensures (exists i :: 0 <= i < |Listing(s, q)| && Listing(s, q)[i] == (holder, row)) <==> Holds(s, q, holder, row) && holder != ""
  {
    hide Listing, Holds, Rows;
    ListedRows(s, q, holder);
    HoldsIsRow(s, q, holder, row);
    forall i | 0 <= i < |Listing(s, q)| ensures Listing(s, q)[i].1 == Rows(s, q)[(q.asset, Listing(s, q)[i].0)] {}
  }

  lemma HoldsIsRow(s: State, q: Query, holder: string, row: HolderView)
    ensures Holds(s, q, holder, row) <==> (q.asset, holder) in Rows(s, q) && Rows(s, q)[(q.asset, holder)] == row
  {
    hide Newest, HoldersAt;
    HoldersAre(s, q.asset, q.at, q.wanted, q.read, holder);
  }

  lemma ListedRows(s: State, q: Query, holder: string)
    ensures (exists i :: 0 <= i < |Listing(s, q)| && Listing(s, q)[i].0 == holder)
      <==> (q.asset, holder) in Rows(s, q) && holder != ""
    ensures forall i :: 0 <= i < |Listing(s, q)| ==> (
      && (q.asset, Listing(s, q)[i].0) in Rows(s, q)
      && Listing(s, q)[i].1 == Rows(s, q)[(q.asset, Listing(s, q)[i].0)])
  {
    hide Sort, Rows, TextLess;
    var all := Nameable(s, q);
    forall i | 0 <= i < |Sort(all)| ensures Sort(all)[i] in all { assert Sort(all)[i] in Elements(Sort(all)); }
    EmptyIsLeast(holder);
    EmptyIsLeast("");
    if (q.asset, holder) in Rows(s, q) && holder != "" {
      assert Key(0, 0, holder) in Elements(Sort(all));
      var i :| 0 <= i < |Sort(all)| && Sort(all)[i] == Key(0, 0, holder);
      assert Listing(s, q)[i].0 == holder;
    }
  }

  lemma EmptyIsLeast(name: string)
    ensures TextLess("", name) <==> name != ""
  {}
}

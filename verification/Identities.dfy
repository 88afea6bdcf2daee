/** Action identities: where each stored action and its index rows sit, and what a replay guarantees of them. */
module Identities {
  import opened Wire
  import opened Tables
  import opened Storage
  import Replay

  /** Every index row names a stored action and sits at that action's height: no identity was used twice. */
  ghost predicate OwnHeights(x: History) {
    && (forall r :: r in x.accountActions ==> r.0.1 in x.actions && x.actions[r.0.1].height == r.1)
    && (forall r :: r in x.actionAddresses ==> r.0 in x.actions && x.actions[r.0].height == x.actionAddresses[r].height)
  }

  /** No two actions share a block position. */
  ghost predicate PositionsUnique(x: History) {
    forall a, b ::
      a in x.actions && b in x.actions && SamePosition(x.actions[a], x.actions[b]) ==> a == b
  }

  predicate SamePosition(a: At<ActionRow>, b: At<ActionRow>) {
    a.height == b.height && a.row.index == b.row.index
  }

  lemma UniqueAt(x: History, a: string, b: string)
    requires PositionsUnique(x) && a in x.actions && b in x.actions
    ensures SamePosition(x.actions[a], x.actions[b]) ==> a == b
  {}

  /** No action identity is used by two blocks. */
  ghost predicate IdentitiesUnique(live: seq<Block>) {
    forall i, j, id :: 0 <= i < j < |live| ==> !(Names(live[i], id) && Names(live[j], id))
  }

  ghost predicate Names(b: Block, id: string) {
    exists k :: 0 <= k < |b.actions| && ActionId(b.height, k, b.actions[k]) == id
  }

  ghost predicate AllNamed(x: History, live: seq<Block>) {
    forall id :: id in x.actions ==> exists i :: 0 <= i < |live| && Names(live[i], id)
  }

  lemma AddressEntryIsNamed(b: Block, n: nat, p: Projections, i: nat)
    requires n <= |b.actions| && i < |AddressEntries(b, n, p)|
    ensures Names(b, AddressEntries(b, n, p)[i].0.0)
  {
    var front := AddressEntries(b, n - 1, p);
    if i < |front| {
      AddressEntryIsNamed(b, n - 1, p, i);
    } else {
      assert AddressEntries(b, n, p)[i].0.0 == ActionId(b.height, n - 1, b.actions[n - 1]);
    }
  }

  lemma AddressIsNamed(b: Block, p: Projections, r: (string, string, string))
    requires FirstFor(AddressEntries(b, |b.actions|, p), r).Some?
    ensures Names(b, r.0)
  {
    var entries := AddressEntries(b, |b.actions|, p);
    FirstIsEntry(entries, r);
    var i :| 0 <= i < |entries| && entries[i] == (r, FirstFor(entries, r).value);
    AddressEntryIsNamed(b, |b.actions|, p, i);
  }

  lemma SenderIsNamed(b: Block, r: (string, string))
    requires FirstFor(SenderEntries(b), r).Some?
    ensures Names(b, r.1)
  {
    FirstIsEntry(SenderEntries(b), r);
  }

  /** The row stored for a name is that of the first action bearing it. */
  lemma NamedRow(b: Block, id: string)
    ensures FirstFor(ActionEntries(b), id).Some? <==> Names(b, id)
    ensures Names(b, id) ==> var row := FirstFor(ActionEntries(b), id).value;
      row.index < |b.actions| && ActionEntries(b)[row.index] == (id, row)
  {
    var entries := ActionEntries(b);
    if Names(b, id) {
      var k :| 0 <= k < |b.actions| && ActionId(b.height, k, b.actions[k]) == id;
      assert entries[k].0 == id;
    }
    if FirstFor(entries, id).Some? {
      FirstIsEntry(entries, id);
      var i :| 0 <= i < |entries| && entries[i] == (id, FirstFor(entries, id).value);
    }
  }

  /** A block at a fresh height gives its new actions positions no other action has. */
  lemma InsertKeepsPositions(x: History, b: Block, p: Projections)
    requires PositionsUnique(x) && KeyedBelow(x.actions, b.height - 1)
    ensures PositionsUnique(InsertHistory(x, b, p))
  {
    hide ActionEntries, PutKeyed;
    InsertHistoryGrows(x, b, p);
    var y := InsertHistory(x, b, p);
    hide InsertHistory;
    forall c, d | c in y.actions && d in y.actions && SamePosition(y.actions[c], y.actions[d]) ensures c == d {
      NewActionRow(x, b, c);
      NewActionRow(x, b, d);
    }
  }

  lemma NewActionRow(x: History, b: Block, id: string)
    ensures var actions := PutKeyed(x.actions, b.height, ActionEntries(b));
      && (Names(b, id) ==> id in actions)
      && (id in actions && id !in x.actions ==> (
            && Names(b, id) && actions[id].row.index < |b.actions|
            && ActionEntries(b)[actions[id].row.index] == (id, actions[id].row)))
  {
    NamedRow(b, id);
  }

  lemma FreshNames(x: History, live: seq<Block>, b: Block, id: string)
    requires AllNamed(x, live) && IdentitiesUnique(live + [b]) && Names(b, id)
    ensures id !in x.actions
  {
    forall i | 0 <= i < |live| ensures !Names(live[i], id) {
      assert (live + [b])[i] == live[i] && (live + [b])[|live|] == b;
    }
  }

  lemma InsertNames(x: History, b: Block, p: Projections, live: seq<Block>)
    requires AllNamed(x, live)
    ensures AllNamed(InsertHistory(x, b, p), live + [b])
  {
    InsertHistoryGrows(x, b, p);
    var y, all := InsertHistory(x, b, p), live + [b];
    hide InsertHistory, Names;
    forall id | id in y.actions ensures exists i :: 0 <= i < |all| && Names(all[i], id) {
      NewActionRow(x, b, id);
      if id in x.actions {
        var i :| 0 <= i < |live| && Names(live[i], id);
        assert Names(all[i], id);
      } else {
        assert Names(all[|live|], id);
      }
    }
  }

  /** With fresh identities, a block's index rows sit at the heights of their actions. */
  lemma InsertKeepsOwn(x: History, b: Block, p: Projections, live: seq<Block>)
    requires OwnHeights(x) && AllNamed(x, live) && IdentitiesUnique(live + [b])
    ensures OwnHeights(InsertHistory(x, b, p))
  {
    InsertHistoryGrows(x, b, p);
    var y := InsertHistory(x, b, p);
    NewIndexRows(x, b, p);
    hide InsertHistory, Names, IdentitiesUnique, AllNamed, ActionEntries, PutKeyed;
    forall r | r in y.accountActions ensures r.0.1 in y.actions && y.actions[r.0.1].height == r.1 {
      if r !in x.accountActions {
        FreshNames(x, live, b, r.0.1);
        NewActionRow(x, b, r.0.1);
      }
    }
    forall r | r in y.actionAddresses ensures r.0 in y.actions && y.actions[r.0].height == y.actionAddresses[r].height {
      if r !in x.actionAddresses {
        FreshNames(x, live, b, r.0);
        NewActionRow(x, b, r.0);
      }
    }
  }

  lemma NewIndexRows(x: History, b: Block, p: Projections)
    ensures var y := InsertHistory(x, b, p);
      && (forall r :: r in y.accountActions && r !in x.accountActions ==> Names(b, r.0.1))
      && (forall r :: r in y.actionAddresses && r !in x.actionAddresses ==> Names(b, r.0))
  {
    hide ActionEntries, SenderEntries, AddressEntries, TokenRows, AssetRows, Names;
    var y := InsertHistory(x, b, p);
    forall r | r in y.accountActions && r !in x.accountActions ensures Names(b, r.0.1) { SenderIsNamed(b, r.0); }
    forall r | r in y.actionAddresses && r !in x.actionAddresses ensures Names(b, r.0) { AddressIsNamed(b, p, r); }
  }

  /** A replay's positions are always unique; with identities used once its index rows are at home. */
  lemma {:induction false} ReplayIsOwn(live: seq<Block>, p: Projections)
    requires Replay.Ascending(live) && InsertAll(EMPTY, live, p).Ok?
    ensures var x := InsertAll(EMPTY, live, p).value.index.history;
      PositionsUnique(x) && AllNamed(x, live) && (IdentitiesUnique(live) ==> OwnHeights(x))
  {
    hide InsertHistory, InsertState, PositionsUnique, AllNamed, OwnHeights, IdentitiesUnique, Below, Valid, ProjectCreations;
    if live == [] {
      EmptyIsOwn();
    } else {
      var front, b := live[..|live| - 1], live[|live| - 1];
      ReplayIsOwn(front, p);
      Replay.EmptyGood();
      Replay.InsertAllGood(EMPTY, front, p);
      var d := InsertAll(EMPTY, front, p).value;
      var x := d.index.history;
      assert live == front + [b];
      ActionsBelow(d, b.height - 1);
      InsertKeepsPositions(x, b, p);
      InsertNames(x, b, p, front);
      if IdentitiesUnique(live) {
        FewerIdentities(front, b);
        InsertKeepsOwn(x, b, p, front);
      }
      InsertGrows(d.index, b, p);
      SameActions(InsertHistory(x, b, p), InsertIndex(d.index, b, p).history, live);
    }
  }

  lemma EmptyIsOwn()
    ensures PositionsUnique(EMPTY_INDEX.history) && AllNamed(EMPTY_INDEX.history, []) && OwnHeights(EMPTY_INDEX.history)
  {}

  lemma ActionsBelow(d: Database, H: int)
    requires Replay.Good(d) && Replay.Top(d) <= H
    ensures KeyedBelow(d.index.history.actions, H)
  {}

  lemma FewerIdentities(front: seq<Block>, b: Block)
    requires IdentitiesUnique(front + [b])
    ensures IdentitiesUnique(front)
  {
    hide Names;
    var live := front + [b];
    forall i, j, id | 0 <= i < j < |front| ensures !(Names(front[i], id) && Names(front[j], id)) {
      assert front[i] == live[i] && front[j] == live[j];
    }
  }

  lemma SameActions(x: History, y: History, live: seq<Block>)
    requires y == x.(tokenEvents := y.tokenEvents)
    ensures (PositionsUnique(x) <==> PositionsUnique(y)) && (AllNamed(x, live) <==> AllNamed(y, live))
    ensures OwnHeights(x) <==> OwnHeights(y)
  {}

  lemma MoreIdentities(live: seq<Block>, blocks: seq<Block>, n: nat)
    requires IdentitiesUnique(live + blocks) && n <= |blocks|
    ensures IdentitiesUnique(live + blocks[..n])
  {
    hide Names;
    var all, part := live + blocks, live + blocks[..n];
    forall i, j, id | 0 <= i < j < |part| ensures !(Names(part[i], id) && Names(part[j], id)) {
      assert part[i] == all[i] && part[j] == all[j];
    }
  }
}

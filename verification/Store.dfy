/** The database as the writer changes it: statement by statement, one transaction at a time. */
module Store {
  import opened Wire
  import opened Tables
  import opened Storage
  import Heights

  /** One block's rows as parallel columns, ready to be unnested. */
  datatype Writes = Writes(
    actionHash: seq<string>, indexInBlock: seq<nat>, kind: seq<string>, fromAddress: seq<string>, payload: seq<Json>,
    addrActionHash: seq<string>, addrAddress: seq<string>, addrRole: seq<string>)
  {
    ghost predicate Aligned() {
      && |actionHash| == |indexInBlock| == |kind| == |fromAddress| == |payload|
      && |addrActionHash| == |addrAddress| == |addrRole|
    }

    function Actions(): seq<(string, ActionRow)>
      requires Aligned()
    {
      seq(|actionHash|, i requires 0 <= i < |actionHash| =>
        (actionHash[i], ActionRow(indexInBlock[i], kind[i], fromAddress[i], payload[i])))
    }

    function Senders(): seq<((string, string), ())>
      requires Aligned()
    {
      seq(|actionHash|, i requires 0 <= i < |actionHash| => ((fromAddress[i], actionHash[i]), ()))
    }

    function Addresses(): seq<((string, string, string), ())>
      requires Aligned()
    {
      Zip(addrActionHash, addrAddress, addrRole)
    }
  }

  /** Three columns as rows. */
  function Zip(hashes: seq<string>, addresses: seq<string>, roles: seq<string>): seq<((string, string, string), ())>
    requires |hashes| == |addresses| == |roles|
  {
    seq(|hashes|, i requires 0 <= i < |hashes| => ((hashes[i], addresses[i], roles[i]), ()))
  }

  /** Pushes one action's roles onto the address columns. */
  method PushRoles(id: string, found: seq<(string, string)>, hashes: seq<string>, addresses: seq<string>, roles: seq<string>)
    returns (h: seq<string>, a: seq<string>, r: seq<string>)
    requires |hashes| == |addresses| == |roles|
    ensures |h| == |a| == |r| && Zip(h, a, r) == Zip(hashes, addresses, roles) + RoleEntries(id, found)
  {
    h, a, r := hashes, addresses, roles;
    for j := 0 to |found|
      invariant |h| == |a| == |r| && Zip(h, a, r) == Zip(hashes, addresses, roles) + RoleEntries(id, found[..j])
    {
      ghost var row := ((id, found[j].0, found[j].1), ());
      assert Zip(h + [id], a + [found[j].0], r + [found[j].1]) == Zip(h, a, r) + [row];
      assert RoleEntries(id, found[..j + 1]) == RoleEntries(id, found[..j]) + [row];
      h, a, r := h + [id], a + [found[j].0], r + [found[j].1];
    }
    assert found[..|found|] == found;
  }

  /** Builds the columns in one pass; the columns stay aligned and unnest to the block's rows. */
  method Build(b: Block, p: Projections) returns (w: Result<Writes>)
    ensures w.Ok? <==> |b.actions| <= 0x8000_0000
    ensures w.Err? ==> w.error == TooManyActions
    ensures w.Ok? ==>
      && w.value.Aligned()
      && w.value.Actions() == ActionEntries(b)
      && w.value.Senders() == SenderEntries(b)
      && w.value.Addresses() == AddressEntries(b, |b.actions|, p)
  {
    assert Zip([], [], []) == [];
    hide ActionId, Zip, RoleEntries;
    var hashes, kinds, senders, payloads := [], [], [], [];
    var indexes: seq<nat> := [];
    var addrHashes, addrs, addrRoles := [], [], [];
    var index := 0;
    while index < |b.actions|
      invariant 0 <= index <= |b.actions| && index <= MAX_ACTIONS
      invariant Writes(hashes, indexes, kinds, senders, payloads, addrHashes, addrs, addrRoles).Aligned()
      invariant |hashes| == index
      invariant forall i :: 0 <= i < index ==>
        && hashes[i] == ActionId(b.height, i, b.actions[i]) && indexes[i] == i && kinds[i] == b.actions[i].kind
        && senders[i] == b.actions[i].sender && payloads[i] == b.actions[i].payload
      invariant Zip(addrHashes, addrs, addrRoles) == AddressEntries(b, index, p)
    {
      var action := b.actions[index];
      var id := ActionId(b.height, index, action);
      var roles := p.resolve(action.kind, action.payload);
      addrHashes, addrs, addrRoles := PushRoles(id, roles, addrHashes, addrs, addrRoles);
      hashes := hashes + [id];
      if index >= MAX_ACTIONS {
        return Err(TooManyActions);
      }
      indexes, kinds, senders, payloads :=
        indexes + [index], kinds + [action.kind], senders + [action.sender], payloads + [action.payload];
      index := index + 1;
    }
    w := Ok(Writes(hashes, indexes, kinds, senders, payloads, addrHashes, addrs, addrRoles));
  }

  class Postgres {
    var db: Database
    const p: Projections

    constructor (db: Database, p: Projections)
      ensures this.db == db && this.p == p
    {
      this.db, this.p := db, p;
    }

    /** The history statements of one block, in order, inside an open transaction. */
    method InsertHistoryInTx(before: History, b: Block) returns (r: Result<History>)
      ensures r == match Admits(before, b) { case Some(e) => Err(e) case None => Ok(InsertHistory(before, b, p)) }
    {
      hide ActionEntries, SenderEntries, AddressEntries, TokenRows, AssetRows, Under, PutKeyed, PutVersioned;
      var h := b.height;
      if HashTaken(before, b) {
        return Err(DuplicateHash);
      }
      var history := before.(blocks := StoreHeader(before.blocks, b));
      var built := Build(b, p);
      if built.Err? {
        return Err(built.error);
      }
      var w := built.value;
      if w.actionHash != [] {
        history := history.(actions := PutKeyed(before.actions, h, w.Actions()));
        history := history.(assetActions := Under(history.assetActions, AssetRows(before.actions, history.actions, p)));
        history := history.(accountActions := PutVersioned(history.accountActions, h, w.Senders()));
        history := history.(tokenEvents := Under(history.tokenEvents, TokenRows(history.actions, h, b.timestamp, p)));
      } else {
        NoActions(before, h, p);
      }
      if w.addrActionHash != [] {
        history := history.(actionAddresses := PutKeyed(history.actionAddresses, h, w.Addresses()));
      } else {
        NoAddresses(before, h);
      }
      assert |w.actionHash| == |w.Actions()| == |ActionEntries(b)| == |b.actions| by { ColumnLengths(w, b); }
      r := Ok(history);
    }

    /** One block inside an open transaction: history, then effects, then the cursor. */
    method InsertBlockInTx(tx: Database, b: Block) returns (r: Result<Database>)
      ensures r == InsertBlock(tx, b, p)
    {
      hide InsertHistory, InsertState, Admits, ProjectCreations;
      var inserted := InsertHistoryInTx(tx.index.history, b);
      if inserted.Err? {
        return Err(inserted.error);
      }
      var history := inserted.value;
      var index, disputed := Index(history, tx.index.state), tx.disputed;
      match b.effects {
        case None =>
          assert disputed + (Disputes(b) * index.history.blocks.Keys) == disputed;
        case Some(e) =>
          var state := InsertState(tx.index.state, b.height, e);
          index := Index(ProjectCreations(history, tx.index.state, state, b.height, p), state);
          disputed := disputed + (Disputes(b) * index.history.blocks.Keys);
      }
      r := Ok(tx.(index := index, disputed := disputed, cursor := Advance(tx.cursor, b.height)));
    }

    /** A transaction: every block lands and the cursor with them, or nothing changes. */
    method InsertBlocks(blocks: seq<Block>) returns (ok: bool)
      modifies this
      ensures ok <==> InsertAll(old(db), blocks, p).Ok?
      ensures db == if ok then InsertAll(old(db), blocks, p).value else old(db)
    {
      var tx := db;
      for i := 0 to |blocks|
        invariant db == old(db) && InsertAll(old(db), blocks[..i], p) == Ok(tx)
      {
        assert blocks[..i + 1][..i] == blocks[..i];
        var r := InsertBlockInTx(tx, blocks[i]);
        if r.Err? {
          FailedPrefix(old(db), blocks, i + 1, p);
          return false;
        }
        tx := r.value;
      }
      assert blocks[..|blocks|] == blocks;
      db := tx;
      ok := true;
    }

    /** Un-indexes everything above `height`, in the order of the deletes, and rewinds hooks and cursor. */
    method RollbackTo(height: int) returns (removed: nat)
      modifies this
      ensures db == Rollback(old(db), height)
      ensures removed == |old(db).index.history.blocks| - |db.index.history.blocks|
    {
      var h, s := db.index.history, db.index.state;
      h := h.(actionAddresses := KeepKeyed(h.actionAddresses, height));
      h := h.(tokenEvents := KeepKeyed(h.tokenEvents, height));
      h := h.(accountActions := KeepVersioned(h.accountActions, height));
      h := h.(actions := KeepKeyed(h.actions, height));
      h := h.(assetActions := Cascade(h.assetActions, h.actions));
      s := KeepState(s, height);
      var kept := map k | k in h.blocks && k <= height :: h.blocks[k];
      Heights.SubsetSize(kept.Keys, h.blocks.Keys);
      removed := |h.blocks| - |kept|;
      h := h.(blocks := kept);
      db := db.(index := Index(h, s), disputed := set k | k in db.disputed && k <= height);
      db := db.(hooks := map id | id in db.hooks :: if db.hooks[id] > height then height else db.hooks[id]);
      db := db.(cursor := if height < 0 then None else Some(height));
    }
  }

  lemma ColumnLengths(w: Writes, b: Block)
    requires w.Aligned() && w.Actions() == ActionEntries(b)
    ensures |w.actionHash| == |w.Actions()| == |ActionEntries(b)| == |b.actions|
  {}

  /** A block without actions writes no history row but its header. */
  lemma NoActions(x: History, h: int, p: Projections)
    ensures PutKeyed(x.actions, h, []) == x.actions && PutVersioned(x.accountActions, h, []) == x.accountActions
    ensures Under(x.assetActions, AssetRows(x.actions, x.actions, p)) == x.assetActions
  {}

  lemma NoAddresses(x: History, h: int)
    ensures PutKeyed(x.actionAddresses, h, []) == x.actionAddresses
  {}

  function HashAt(d: Database, height: int): Option<string> {
    if height in d.index.history.blocks then Some(d.index.history.blocks[height].hash) else None
  }

  function HeaderAt(d: Database, h: int): Option<Header> {
    if h in d.index.history.blocks then Some(d.index.history.blocks[h]) else None
  }

  /** Every block stored in `d` at or below `h` is stored in `e`, its header unchanged. */
  ghost predicate KeepsUpto(d: Database, e: Database, h: int) {
    forall g :: g <= h && HeaderAt(d, g).Some? ==> HeaderAt(e, g) == HeaderAt(d, g)
  }

  lemma InsertKeepsHeaders(d: Database, b: Block, p: Projections, h: int)
    requires InsertBlock(d, b, p).Ok?
    ensures KeepsUpto(d, InsertBlock(d, b, p).value, h)
  {
    hide InsertState;
  }

  /** Transactions only add headers: the first one stored at a height stays. */
  lemma {:induction false} InsertAllKeepsHeaders(d: Database, blocks: seq<Block>, p: Projections, h: int)
    requires InsertAll(d, blocks, p).Ok?
    ensures KeepsUpto(d, InsertAll(d, blocks, p).value, h)
  {
    hide InsertBlock, HeaderAt;
    if blocks != [] {
      var front := blocks[..|blocks| - 1];
      InsertAllKeepsHeaders(d, front, p, h);
      InsertKeepsHeaders(InsertAll(d, front, p).value, blocks[|blocks| - 1], p, h);
    }
  }

  lemma RollbackKeepsHeaders(d: Database, H: int, h: int)
    requires h <= H
    ensures KeepsUpto(d, Rollback(d, H), h)
  {}

  lemma InsertOne(d: Database, b: Block, p: Projections)
    ensures InsertAll(d, [b], p) == InsertBlock(d, b, p)
  {
    hide InsertBlock;
    assert [b][..0] == [];
    assert InsertAll(d, [], p) == Ok(d);
  }

  /** A transaction fails as soon as one of its blocks does. */
  lemma {:induction false} FailedPrefix(d: Database, blocks: seq<Block>, n: nat, p: Projections)
    requires n <= |blocks| && InsertAll(d, blocks[..n], p).Err?
    ensures InsertAll(d, blocks, p).Err?
    decreases |blocks| - n
  {
    hide InsertBlock;
    if n == |blocks| {
      assert blocks[..n] == blocks;
    } else {
      assert blocks[..n + 1][..n] == blocks[..n];
      FailedPrefix(d, blocks, n + 1, p);
    }
  }
}

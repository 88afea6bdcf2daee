/** The index as a versioned store: inserting a block, rolling back, and what any mix of the two leaves. */
module Storage {
  import opened Wire
  import opened Tables

  // ------------------------------------------------------------------ rows

  datatype Header = Header(hash: string, parentHash: string, timestamp: nat, proposer: Option<string>, round: nat)

  datatype ActionRow = ActionRow(index: nat, kind: string, sender: string, payload: Json)

  datatype TokenBody = TokenBody(token: string, event: string, recipient: Option<string>, amount: Option<string>)

  datatype TokenEvent = TokenEvent(body: TokenBody, sender: string, time: nat)

  /**
   * What the index reads out of a payload, left uninterpreted: the (address, role) pairs of an
   * action, the asset references it mentions, the token event it is, and the registration record
   * that names the token a Create action made.
   */
  datatype Projections = Projections(
    resolve: (string, Json) -> seq<(string, string)>,
    assets: Json -> set<string>,
    token: ActionRow -> Option<TokenBody>,
    create: (ActionRow, set<Json>) -> Option<TokenBody>)

  datatype History = History(
    blocks: map<int, Header>,
    actions: Keyed<string, ActionRow>,
    accountActions: Versioned<(string, string), ()>,          // (address, action)
    actionAddresses: Keyed<(string, string, string), ()>,     // (action, address, role)
    tokenEvents: Keyed<string, TokenEvent>,
    assetActions: Keyed<(string, string), nat>)               // (asset, action) -> index

  datatype State = State(
    accounts: Versioned<string, AccountEffect>,
    assetBalances: Versioned<(string, string), nat>,
    holderStates: Versioned<(string, string), Json>,
    stakes: Versioned<(string, string), Option<Json>>,
    validatorStatus: Versioned<string, Option<Json>>,
    validatorSets: Versioned<(), Json>,
    registrations: Versioned<nat, Json>,
    evidence: Versioned<(string, nat), ()>,
    blsKeys: Versioned<string, BlsKey>,
    operators: Versioned<string, Option<string>>,
    attestors: Versioned<string, Option<Json>>,
    dropped: Versioned<string, DroppedEffect>)

  datatype Index = Index(history: History, state: State)

  /** Everything the database holds for one chain; `hooks` maps a webhook to its delivery cursor. */
  datatype Database = Database(index: Index, disputed: set<int>, cursor: Option<int>, hooks: map<nat, int>)

  const EMPTY_STATE := State(map[], map[], map[], map[], map[], map[], map[], map[], map[], map[], map[], map[])
  const EMPTY_INDEX := Index(History(map[], map[], map[], map[], map[], map[]), EMPTY_STATE)
  const EMPTY := Database(EMPTY_INDEX, {}, None, map[])

  // ---------------------------------------------------------------- inserts

  /** An action's position must fit PostgreSQL's INT. */
  const MAX_ACTIONS := 0x8000_0000

  function ActionEntries(b: Block): seq<(string, ActionRow)> {
    seq(|b.actions|, i requires 0 <= i < |b.actions| =>
      (ActionId(b.height, i, b.actions[i]),
       ActionRow(i, b.actions[i].kind, b.actions[i].sender, b.actions[i].payload)))
  }

  function SenderEntries(b: Block): seq<((string, string), ())> {
    seq(|b.actions|, i requires 0 <= i < |b.actions| =>
      ((b.actions[i].sender, ActionId(b.height, i, b.actions[i])), ()))
  }

  function RoleEntries(id: string, roles: seq<(string, string)>): seq<((string, string, string), ())> {
    seq(|roles|, i requires 0 <= i < |roles| => ((id, roles[i].0, roles[i].1), ()))
  }

  /** The address rows of the first `n` actions, in order. */
  function AddressEntries(b: Block, n: nat, p: Projections): seq<((string, string, string), ())>
    requires n <= |b.actions|
  {
    if n == 0 then [] else
      AddressEntries(b, n - 1, p)
      + RoleEntries(ActionId(b.height, n - 1, b.actions[n - 1]),
                    p.resolve(b.actions[n - 1].kind, b.actions[n - 1].payload))
  }

  /** The token events named by the Token actions stored at `h`. */
  function TokenRows(actions: Keyed<string, ActionRow>, h: int, time: nat, p: Projections): (r: Keyed<string, TokenEvent>)
    ensures AllAt(r, h)
  {
    map id | id in actions && actions[id].height == h && actions[id].row.kind == "Token" && p.token(actions[id].row).Some?
      :: At(h, TokenEvent(p.token(actions[id].row).value, actions[id].row.sender, time))
  }

  /** The create events the registration records at `h` name, by action. */
  function CreateRows(actions: Keyed<string, ActionRow>, records: set<Json>, h: int, time: nat, p: Projections)
    : (r: Keyed<string, TokenEvent>)
    ensures AllAt(r, h)
  {
    map id | id in actions && actions[id].height == h && actions[id].row.kind == "Token"
             && p.create(actions[id].row, records).Some?
      :: At(h, TokenEvent(p.create(actions[id].row, records).value, actions[id].row.sender, time))
  }

  /** Trigger on `actions`: one row per asset a newly stored action mentions. */
  function AssetRows(before: Keyed<string, ActionRow>, after: Keyed<string, ActionRow>, p: Projections)
    : (r: Keyed<(string, string), nat>)
    ensures forall k :: k in r ==> k.1 in after && k.1 !in before && r[k].height == after[k.1].height
  {
    var keys := set id, asset | id in after && id !in before && asset in p.assets(after[id].row.payload) :: (asset, id);
    map k | k in keys && k.1 in after :: At(after[k.1].height, after[k.1].row.index)
  }

  function StoreHeader(blocks: map<int, Header>, b: Block): map<int, Header> {
    if b.height in blocks then blocks
    else blocks[b.height := Header(b.hash, b.parentHash, b.timestamp, b.proposer, b.round)]
  }

  function InsertHistory(x: History, b: Block, p: Projections): History {
    var h := b.height;
    var actions := PutKeyed(x.actions, h, ActionEntries(b));
    History(
      StoreHeader(x.blocks, b),
      actions,
      PutVersioned(x.accountActions, h, SenderEntries(b)),
      PutKeyed(x.actionAddresses, h, AddressEntries(b, |b.actions|, p)),
      if b.actions == [] then x.tokenEvents else Under(x.tokenEvents, TokenRows(actions, h, b.timestamp, p)),
      Under(x.assetActions, AssetRows(x.actions, actions, p)))
  }

  function Numbered<V>(s: seq<V>): seq<(nat, V)> {
    seq(|s|, i requires 0 <= i < |s| => (i, s[i]))
  }

  function Marked<K>(s: seq<K>): seq<(K, ())> {
    seq(|s|, i requires 0 <= i < |s| => (s[i], ()))
  }

  /** Registrations first, then removals: a removal of an attestor registered in the same block is skipped. */
  function AttestorEntries(e: BlockEffects): seq<(string, Option<Json>)> {
    seq(|e.attestorRegistrations|, i requires 0 <= i < |e.attestorRegistrations| =>
      (e.attestorRegistrations[i].0, Some(e.attestorRegistrations[i].1)))
    + seq(|e.attestorDeregistrations|, i requires 0 <= i < |e.attestorDeregistrations| =>
      (e.attestorDeregistrations[i], None))
  }

  function DroppedEntries(e: BlockEffects): seq<(string, DroppedEffect)> {
    seq(|e.dropped|, i requires 0 <= i < |e.dropped| => (e.dropped[i].signature, e.dropped[i]))
  }

  function SetEntries(e: BlockEffects): seq<((), Json)> {
    match e.validatorSet
    case None => []
    case Some(v) => [((), v)]
  }

  function InsertState(s: State, h: int, e: BlockEffects): State {
    State(
      PutVersioned(s.accounts, h, e.accounts),
      PutVersioned(s.assetBalances, h, e.assetBalances),
      PutVersioned(s.holderStates, h, e.holderStates),
      PutVersioned(s.stakes, h, e.stakes),
      PutVersioned(s.validatorStatus, h, e.validatorStatuses),
      PutVersioned(s.validatorSets, h, SetEntries(e)),
      PutVersioned(s.registrations, h, Numbered(e.assetRegistrations)),
      PutVersioned(s.evidence, h, Marked(e.evidence)),
      PutVersioned(s.blsKeys, h, e.blsKeys),
      PutVersioned(s.operators, h, e.operators),
      PutVersioned(s.attestors, h, AttestorEntries(e)),
      PutVersioned(s.dropped, h, DroppedEntries(e)))
  }

  function RecordsAt(registrations: Versioned<nat, Json>, h: int): set<Json> {
    set k | k in registrations && k.1 == h :: registrations[k]
  }

  /** Trigger on `asset_registrations`: runs when a registration row was really inserted. */
  function ProjectCreations(x: History, before: State, after: State, h: int, p: Projections): History {
    if after.registrations == before.registrations || h !in x.blocks then x
    else x.(tokenEvents :=
      Under(x.tokenEvents, CreateRows(x.actions, RecordsAt(after.registrations, h), h, x.blocks[h].timestamp, p)))
  }

  function InsertIndex(x: Index, b: Block, p: Projections): Index {
    var history := InsertHistory(x.history, b, p);
    match b.effects
    case None => Index(history, x.state)
    case Some(e) =>
      var state := InsertState(x.state, b.height, e);
      Index(ProjectCreations(history, x.state, state, b.height, p), state)
  }

  /** The unique index on (chain, hash): a new row may not carry the hash of another height. */
  predicate HashTaken(x: History, b: Block) {
    b.height !in x.blocks && exists h :: h in x.blocks && x.blocks[h].hash == b.hash
  }

  function Admits(x: History, b: Block): Option<Error> {
    if HashTaken(x, b) then Some(DuplicateHash)
    else if |b.actions| > MAX_ACTIONS then Some(TooManyActions)
    else None
  }

  function Disputes(b: Block): set<int> {
    match b.effects
    case None => {}
    case Some(e) => set i | 0 <= i < |e.disputedBlocks| :: e.disputedBlocks[i]
  }

  function Advance(cursor: Option<int>, h: int): Option<int> {
    if cursor.None? || cursor.value < h then Some(h) else cursor
  }

  /** One block inside a transaction. */
  function InsertBlock(d: Database, b: Block, p: Projections): Result<Database> {
    match Admits(d.index.history, b)
    case Some(e) => Err(e)
    case None =>
      var index := InsertIndex(d.index, b, p);
      Ok(d.(index := index,
            disputed := d.disputed + (Disputes(b) * index.history.blocks.Keys),
            cursor := Advance(d.cursor, b.height)))
  }

  /** A transaction of several blocks: all of them or none. */
  function InsertAll(d: Database, blocks: seq<Block>, p: Projections): Result<Database> {
    if blocks == [] then Ok(d)
    else match InsertAll(d, blocks[..|blocks| - 1], p)
      case Err(e) => Err(e)
      case Ok(d') => InsertBlock(d', blocks[|blocks| - 1], p)
  }

  // ---------------------------------------------------------------- rollback

  /** Foreign key: an asset row goes with the action it names. */
  function Cascade(rows: Keyed<(string, string), nat>, actions: Keyed<string, ActionRow>): Keyed<(string, string), nat> {
    map k | k in rows && k.1 in actions :: rows[k]
  }

  function KeepHistory(x: History, H: int): History {
    var actions := KeepKeyed(x.actions, H);
    History(
      map h | h in x.blocks && h <= H :: x.blocks[h],
      actions,
      KeepVersioned(x.accountActions, H),
      KeepKeyed(x.actionAddresses, H),
      KeepKeyed(x.tokenEvents, H),
      Cascade(x.assetActions, actions))
  }

  function KeepState(s: State, H: int): State {
    State(
      KeepVersioned(s.accounts, H),
      KeepVersioned(s.assetBalances, H),
      KeepVersioned(s.holderStates, H),
      KeepVersioned(s.stakes, H),
      KeepVersioned(s.validatorStatus, H),
      KeepVersioned(s.validatorSets, H),
      KeepVersioned(s.registrations, H),
      KeepVersioned(s.evidence, H),
      KeepVersioned(s.blsKeys, H),
      KeepVersioned(s.operators, H),
      KeepVersioned(s.attestors, H),
      KeepVersioned(s.dropped, H))
  }

  function KeepIndex(x: Index, H: int): Index {
    Index(KeepHistory(x.history, H), KeepState(x.state, H))
  }

  function Rollback(d: Database, H: int): Database {
    Database(
      KeepIndex(d.index, H),
      set h | h in d.disputed && h <= H,
      if H < 0 then None else Some(H),
      map id | id in d.hooks :: if d.hooks[id] > H then H else d.hooks[id])
  }

  // -------------------------------------------------------------- invariants

  ghost predicate HistoryBelow(x: History, H: int) {
    && (forall h :: h in x.blocks ==> 0 <= h <= H)
    && KeyedBelow(x.actions, H)
    && VersionedBelow(x.accountActions, H)
    && KeyedBelow(x.actionAddresses, H)
    && KeyedBelow(x.tokenEvents, H)
  }

  ghost predicate StateBelow(s: State, H: int) {
    && VersionedBelow(s.accounts, H)
    && VersionedBelow(s.assetBalances, H)
    && VersionedBelow(s.holderStates, H)
    && VersionedBelow(s.stakes, H)
    && VersionedBelow(s.validatorStatus, H)
    && VersionedBelow(s.validatorSets, H)
    && VersionedBelow(s.registrations, H)
    && VersionedBelow(s.evidence, H)
    && VersionedBelow(s.blsKeys, H)
    && VersionedBelow(s.operators, H)
    && VersionedBelow(s.attestors, H)
    && VersionedBelow(s.dropped, H)
  }

  ghost predicate Below(x: Index, H: int) {
    HistoryBelow(x.history, H) && StateBelow(x.state, H)
  }

  /** The foreign key of `asset_actions`: each row sits at the height of the action it names. */
  ghost predicate Linked(rows: Keyed<(string, string), nat>, actions: Keyed<string, ActionRow>) {
    forall k :: k in rows ==> k.1 in actions && rows[k].height == actions[k.1].height
  }

  ghost predicate Valid(x: Index) {
    Linked(x.history.assetActions, x.history.actions)
  }

  // ------------------------------------------------------------ undo lemmas

  /** The cascade removes exactly the asset rows a height filter would. */
  lemma CascadeIsKeep(rows: Keyed<(string, string), nat>, actions: Keyed<string, ActionRow>, H: int)
    requires Linked(rows, actions)
    ensures Cascade(rows, KeepKeyed(actions, H)) == KeepKeyed(rows, H)
  {}

  lemma AssetRowsKeep(x: History, b: Block, p: Projections, H: int)
    requires Linked(x.assetActions, x.actions) && H < b.height
    ensures var actions := PutKeyed(x.actions, b.height, ActionEntries(b));
      var rows := Under(x.assetActions, AssetRows(x.actions, actions, p));
      Linked(rows, actions) && KeepKeyed(rows, H) == KeepKeyed(x.assetActions, H)
  {
    var actions := PutKeyed(x.actions, b.height, ActionEntries(b));
    UnderKeep(x.assetActions, AssetRows(x.actions, actions, p), b.height, H);
  }

  lemma InsertHistoryKeep(x: History, b: Block, p: Projections, H: int)
    requires Linked(x.assetActions, x.actions) && H < b.height
    ensures KeepHistory(InsertHistory(x, b, p), H) == KeepHistory(x, H)
  {
    hide ActionEntries, SenderEntries, AddressEntries, TokenRows, AssetRows, KeepKeyed, KeepVersioned, Cascade;
    var actions := PutKeyed(x.actions, b.height, ActionEntries(b));
    PutKeyedKeep(x.actions, b.height, ActionEntries(b), H);
    PutVersionedKeep(x.accountActions, b.height, SenderEntries(b), H);
    PutKeyedKeep(x.actionAddresses, b.height, AddressEntries(b, |b.actions|, p), H);
    UnderKeep(x.tokenEvents, TokenRows(actions, b.height, b.timestamp, p), b.height, H);
    AssetRowsKeep(x, b, p, H);
    var rows := Under(x.assetActions, AssetRows(x.actions, actions, p));
    CascadeIsKeep(rows, actions, H);
    CascadeIsKeep(x.assetActions, x.actions, H);
    BlocksKeep(x, b, p, H);
  }

  lemma BlocksKeep(x: History, b: Block, p: Projections, H: int)
    requires H < b.height
    ensures KeepHistory(InsertHistory(x, b, p), H).blocks == KeepHistory(x, H).blocks
  {
    hide ActionEntries, SenderEntries, AddressEntries, TokenRows, AssetRows, KeepKeyed, KeepVersioned, Cascade;
  }

  lemma InsertStateKeep(s: State, h: int, e: BlockEffects, H: int)
    requires H < h
    ensures KeepState(InsertState(s, h, e), H) == KeepState(s, H)
  {
    PutVersionedKeep(s.accounts, h, e.accounts, H);
    PutVersionedKeep(s.assetBalances, h, e.assetBalances, H);
    PutVersionedKeep(s.holderStates, h, e.holderStates, H);
    PutVersionedKeep(s.stakes, h, e.stakes, H);
    PutVersionedKeep(s.validatorStatus, h, e.validatorStatuses, H);
    PutVersionedKeep(s.validatorSets, h, SetEntries(e), H);
    PutVersionedKeep(s.registrations, h, Numbered(e.assetRegistrations), H);
    PutVersionedKeep(s.evidence, h, Marked(e.evidence), H);
    PutVersionedKeep(s.blsKeys, h, e.blsKeys, H);
    PutVersionedKeep(s.operators, h, e.operators, H);
    PutVersionedKeep(s.attestors, h, AttestorEntries(e), H);
    PutVersionedKeep(s.dropped, h, DroppedEntries(e), H);
  }

  lemma ProjectCreationsKeep(x: History, before: State, after: State, h: int, p: Projections, H: int)
    requires H < h
    ensures KeepHistory(ProjectCreations(x, before, after, h, p), H) == KeepHistory(x, H)
  {
    if after.registrations != before.registrations && h in x.blocks {
      UnderKeep(x.tokenEvents,
                CreateRows(x.actions, RecordsAt(after.registrations, h), h, x.blocks[h].timestamp, p), h, H);
    }
  }

  /** A block inserted above `H` leaves no trace once the index is rolled back to `H`. */
  lemma InsertIndexKeep(x: Index, b: Block, p: Projections, H: int)
    requires Valid(x) && H < b.height
    ensures KeepIndex(InsertIndex(x, b, p), H) == KeepIndex(x, H)
  {
    hide InsertHistory, InsertState, KeepHistory, KeepState, ProjectCreations;
    InsertHistoryKeep(x.history, b, p, H);
    if b.effects.Some? {
      var e := b.effects.value;
      InsertStateKeep(x.state, b.height, e, H);
      ProjectCreationsKeep(InsertHistory(x.history, b, p), x.state, InsertState(x.state, b.height, e), b.height, p, H);
    }
  }

  lemma KeepVersionedAll<K, V>(m: Versioned<K, V>, H: int)
    requires VersionedBelow(m, H)
    ensures KeepVersioned(m, H) == m
  {}

  lemma KeepKeyedAll<K, V>(m: Keyed<K, V>, H: int)
    requires KeyedBelow(m, H)
    ensures KeepKeyed(m, H) == m
  {}

  lemma KeepStateAll(s: State, H: int)
    requires StateBelow(s, H)
    ensures KeepState(s, H) == s
  {
    KeepVersionedAll(s.accounts, H);
    KeepVersionedAll(s.assetBalances, H);
    KeepVersionedAll(s.holderStates, H);
    KeepVersionedAll(s.stakes, H);
    KeepVersionedAll(s.validatorStatus, H);
    KeepVersionedAll(s.validatorSets, H);
    KeepVersionedAll(s.registrations, H);
    KeepVersionedAll(s.evidence, H);
    KeepVersionedAll(s.blsKeys, H);
    KeepVersionedAll(s.operators, H);
    KeepVersionedAll(s.attestors, H);
    KeepVersionedAll(s.dropped, H);
  }

  /** Nothing is stored above `H`: a rollback to `H` removes nothing. */
  lemma KeepAll(x: Index, H: int)
    requires Below(x, H) && Valid(x)
    ensures KeepIndex(x, H) == x
  {
    var y := x.history;
    KeepKeyedAll(y.actions, H);
    KeepVersionedAll(y.accountActions, H);
    KeepKeyedAll(y.actionAddresses, H);
    KeepKeyedAll(y.tokenEvents, H);
    CascadeIsKeep(y.assetActions, y.actions, H);
    KeepKeyedAll(y.assetActions, H);
    KeepStateAll(x.state, H);
    assert KeepHistory(y, H).blocks == y.blocks;
  }

  lemma PutVersionedBelow<K(!new), V>(m: Versioned<K, V>, h: int, entries: seq<(K, V)>, H: int)
    requires VersionedBelow(m, H) && h <= H
    ensures VersionedBelow(PutVersioned(m, h, entries), H)
  {}

  lemma PutKeyedBelow<K(!new), V>(m: Keyed<K, V>, h: int, entries: seq<(K, V)>, H: int)
    requires KeyedBelow(m, H) && h <= H
    ensures KeyedBelow(PutKeyed(m, h, entries), H)
  {}

  lemma UnderBelow<K, V>(m: Keyed<K, V>, rows: Keyed<K, V>, h: int, H: int)
    requires KeyedBelow(m, H) && AllAt(rows, h) && h <= H
    ensures KeyedBelow(Under(m, rows), H)
  {}

  lemma InsertHistoryBelow(x: History, b: Block, p: Projections, H: int)
    requires HistoryBelow(x, H) && Linked(x.assetActions, x.actions) && b.height <= H
    ensures var y := InsertHistory(x, b, p);
      HistoryBelow(y, H) && Linked(y.assetActions, y.actions) && y.blocks == StoreHeader(x.blocks, b)
  {
    hide ActionEntries, SenderEntries, AddressEntries, TokenRows, AssetRows;
    var actions := PutKeyed(x.actions, b.height, ActionEntries(b));
    PutKeyedBelow(x.actions, b.height, ActionEntries(b), H);
    PutVersionedBelow(x.accountActions, b.height, SenderEntries(b), H);
    PutKeyedBelow(x.actionAddresses, b.height, AddressEntries(b, |b.actions|, p), H);
    UnderBelow(x.tokenEvents, TokenRows(actions, b.height, b.timestamp, p), b.height, H);
    AssetRowsKeep(x, b, p, b.height - 1);
  }

  lemma InsertStateBelow(s: State, h: int, e: BlockEffects, H: int)
    requires StateBelow(s, H) && h <= H
    ensures StateBelow(InsertState(s, h, e), H)
  {
    PutVersionedBelow(s.accounts, h, e.accounts, H);
    PutVersionedBelow(s.assetBalances, h, e.assetBalances, H);
    PutVersionedBelow(s.holderStates, h, e.holderStates, H);
    PutVersionedBelow(s.stakes, h, e.stakes, H);
    PutVersionedBelow(s.validatorStatus, h, e.validatorStatuses, H);
    PutVersionedBelow(s.validatorSets, h, SetEntries(e), H);
    PutVersionedBelow(s.registrations, h, Numbered(e.assetRegistrations), H);
    PutVersionedBelow(s.evidence, h, Marked(e.evidence), H);
    PutVersionedBelow(s.blsKeys, h, e.blsKeys, H);
    PutVersionedBelow(s.operators, h, e.operators, H);
    PutVersionedBelow(s.attestors, h, AttestorEntries(e), H);
    PutVersionedBelow(s.dropped, h, DroppedEntries(e), H);
  }

  lemma InsertIndexBelow(x: Index, b: Block, p: Projections, H: int)
    requires Below(x, H) && Valid(x) && b.height <= H
    ensures Below(InsertIndex(x, b, p), H) && Valid(InsertIndex(x, b, p))
    ensures InsertIndex(x, b, p).history.blocks == StoreHeader(x.history.blocks, b)
  {
    hide InsertHistory, InsertState, HistoryBelow, StateBelow, ProjectCreations;
    InsertHistoryBelow(x.history, b, p, H);
    if b.effects.Some? {
      var e := b.effects.value;
      InsertStateBelow(x.state, b.height, e, H);
      ProjectCreationsBelow(InsertHistory(x.history, b, p), x.state, InsertState(x.state, b.height, e), b.height, p, H);
    }
  }

  lemma ProjectCreationsBelow(x: History, before: State, after: State, h: int, p: Projections, H: int)
    requires HistoryBelow(x, H) && Linked(x.assetActions, x.actions) && h <= H
    ensures var y := ProjectCreations(x, before, after, h, p);
      HistoryBelow(y, H) && Linked(y.assetActions, y.actions) && y.blocks == x.blocks
  {
    if after.registrations != before.registrations && h in x.blocks {
      UnderBelow(x.tokenEvents,
                 CreateRows(x.actions, RecordsAt(after.registrations, h), h, x.blocks[h].timestamp, p), h, H);
    }
  }

  /** A rollback to `H` leaves nothing above `H`. */
  lemma KeepBelow(x: Index, h: int, H: int)
    requires Below(x, h) && Valid(x)
    ensures Below(KeepIndex(x, H), H) && Valid(KeepIndex(x, H))
    ensures KeepIndex(x, H).history.blocks == map k | k in x.history.blocks && k <= H :: x.history.blocks[k]
  {
    hide HistoryBelow, StateBelow, KeepState;
    KeepHistoryBelow(x.history, h, H);
    KeepStateBelow(x.state, H);
  }

  lemma KeepHistoryBelow(x: History, h: int, H: int)
    requires HistoryBelow(x, h) && Linked(x.assetActions, x.actions)
    ensures var y := KeepHistory(x, H);
      HistoryBelow(y, H) && Linked(y.assetActions, y.actions)
  {}

  lemma KeepStateBelow(s: State, H: int)
    ensures StateBelow(KeepState(s, H), H)
  {}

  // -------------------------------------------------------------- row frames

  /** `after` keeps the rows of `before`; what is new sits at height `h`. */
  ghost predicate GrowsKeyed<K, V>(before: Keyed<K, V>, after: Keyed<K, V>, h: int) {
    && (forall k :: k in before ==> k in after && after[k] == before[k])
    && (forall k :: k in after && k !in before ==> after[k].height == h)
  }

  ghost predicate GrowsVersioned<K, V>(before: Versioned<K, V>, after: Versioned<K, V>, h: int) {
    && (forall k :: k in before ==> k in after && after[k] == before[k])
    && (forall k :: k in after && k !in before ==> k.1 == h)
  }

  ghost predicate HistoryGrows(x: History, y: History, h: int) {
    && GrowsKeyed(x.actions, y.actions, h)
    && GrowsVersioned(x.accountActions, y.accountActions, h)
    && GrowsKeyed(x.actionAddresses, y.actionAddresses, h)
    && GrowsKeyed(x.tokenEvents, y.tokenEvents, h)
  }

  lemma PutKeyedGrows<K(!new), V>(m: Keyed<K, V>, h: int, entries: seq<(K, V)>)
    ensures GrowsKeyed(m, PutKeyed(m, h, entries), h)
  {}

  lemma PutVersionedGrows<K(!new), V>(m: Versioned<K, V>, h: int, entries: seq<(K, V)>)
    ensures GrowsVersioned(m, PutVersioned(m, h, entries), h)
  {}

  lemma UnderGrows<K, V>(m: Keyed<K, V>, rows: Keyed<K, V>, h: int)
    requires AllAt(rows, h)
    ensures GrowsKeyed(m, Under(m, rows), h)
  {}

  lemma InsertHistoryGrows(x: History, b: Block, p: Projections)
    ensures HistoryGrows(x, InsertHistory(x, b, p), b.height)
    ensures InsertHistory(x, b, p).blocks == StoreHeader(x.blocks, b)
    ensures InsertHistory(x, b, p).actions == PutKeyed(x.actions, b.height, ActionEntries(b))
  {
    hide ActionEntries, SenderEntries, AddressEntries, TokenRows, AssetRows, PutKeyed, PutVersioned, Under;
    var actions := PutKeyed(x.actions, b.height, ActionEntries(b));
    PutKeyedGrows(x.actions, b.height, ActionEntries(b));
    PutVersionedGrows(x.accountActions, b.height, SenderEntries(b));
    PutKeyedGrows(x.actionAddresses, b.height, AddressEntries(b, |b.actions|, p));
    UnderGrows(x.tokenEvents, TokenRows(actions, b.height, b.timestamp, p), b.height);
  }

  /** The projection of created tokens touches the token events and nothing else. */
  lemma ProjectGrows(x: History, before: State, after: State, h: int, p: Projections)
    ensures var y := ProjectCreations(x, before, after, h, p);
      GrowsKeyed(x.tokenEvents, y.tokenEvents, h) && y == x.(tokenEvents := y.tokenEvents)
  {
    hide CreateRows;
    if after.registrations != before.registrations && h in x.blocks {
      UnderGrows(x.tokenEvents, CreateRows(x.actions, RecordsAt(after.registrations, h), h, x.blocks[h].timestamp, p), h);
    }
  }

  /** An insertion changes no row that is there and adds rows at the block's height only. */
  lemma InsertGrows(x: Index, b: Block, p: Projections)
    ensures var y := InsertIndex(x, b, p);
      && HistoryGrows(x.history, y.history, b.height)
      && GrowsVersioned(x.state.dropped, y.state.dropped, b.height)
      && y.history == InsertHistory(x.history, b, p).(tokenEvents := y.history.tokenEvents)
  {
    hide InsertHistory, InsertState, ProjectCreations;
    InsertHistoryGrows(x.history, b, p);
    var z := InsertHistory(x.history, b, p);
    if b.effects.Some? {
      var e := b.effects.value;
      DroppedGrows(x.state, b.height, e);
      ProjectGrows(z, x.state, InsertState(x.state, b.height, e), b.height, p);
    }
  }

  lemma DroppedGrows(s: State, h: int, e: BlockEffects)
    ensures GrowsVersioned(s.dropped, InsertState(s, h, e).dropped, h)
  {
    PutVersionedGrows(s.dropped, h, DroppedEntries(e));
  }

  ghost predicate StateGrows(s: State, t: State, h: int) {
    && GrowsVersioned(s.accounts, t.accounts, h)
    && GrowsVersioned(s.assetBalances, t.assetBalances, h)
    && GrowsVersioned(s.holderStates, t.holderStates, h)
    && GrowsVersioned(s.stakes, t.stakes, h)
    && GrowsVersioned(s.validatorStatus, t.validatorStatus, h)
    && GrowsVersioned(s.validatorSets, t.validatorSets, h)
    && GrowsVersioned(s.registrations, t.registrations, h)
    && GrowsVersioned(s.evidence, t.evidence, h)
    && GrowsVersioned(s.blsKeys, t.blsKeys, h)
    && GrowsVersioned(s.operators, t.operators, h)
    && GrowsVersioned(s.attestors, t.attestors, h)
    && GrowsVersioned(s.dropped, t.dropped, h)
  }

  lemma InsertStateGrows(s: State, h: int, e: BlockEffects)
    ensures StateGrows(s, InsertState(s, h, e), h)
  {
    hide GrowsVersioned;
    PutVersionedGrows(s.accounts, h, e.accounts);
    PutVersionedGrows(s.assetBalances, h, e.assetBalances);
    PutVersionedGrows(s.holderStates, h, e.holderStates);
    PutVersionedGrows(s.stakes, h, e.stakes);
    PutVersionedGrows(s.validatorStatus, h, e.validatorStatuses);
    PutVersionedGrows(s.validatorSets, h, SetEntries(e));
    PutVersionedGrows(s.registrations, h, Numbered(e.assetRegistrations));
    PutVersionedGrows(s.evidence, h, Marked(e.evidence));
    PutVersionedGrows(s.blsKeys, h, e.blsKeys);
    PutVersionedGrows(s.operators, h, e.operators);
    PutVersionedGrows(s.attestors, h, AttestorEntries(e));
    PutVersionedGrows(s.dropped, h, DroppedEntries(e));
  }

  lemma AssetsGrow(x: Index, b: Block, p: Projections)
    ensures GrowsKeyed(x.history.assetActions, InsertIndex(x, b, p).history.assetActions, b.height)
  {
    hide InsertState, TokenRows, AddressEntries, SenderEntries, PutVersioned, ActionEntries;
    InsertGrows(x, b, p);
    var actions := PutKeyed(x.history.actions, b.height, ActionEntries(b));
    UnderGrows(x.history.assetActions, AssetRows(x.history.actions, actions, p), b.height);
  }

  /** All eighteen tables: an insertion changes no row that is there, and every row it adds sits at the block's height. */
  lemma InsertOnlyAdds(x: Index, b: Block, p: Projections)
    ensures var y := InsertIndex(x, b, p);
      && y.history.blocks == StoreHeader(x.history.blocks, b)
      && HistoryGrows(x.history, y.history, b.height)
      && GrowsKeyed(x.history.assetActions, y.history.assetActions, b.height)
      && StateGrows(x.state, y.state, b.height)
  {
    hide InsertHistory, InsertState, HistoryGrows, StateGrows, GrowsKeyed, ProjectCreations;
    InsertGrows(x, b, p);
    InsertHistoryGrows(x.history, b, p);
    AssetsGrow(x, b, p);
    if b.effects.Some? { InsertStateGrows(x.state, b.height, b.effects.value); } else { SameStateGrows(x.state, b.height); }
  }

  lemma SameStateGrows(s: State, h: int)
    ensures StateGrows(s, s, h)
  {}
}

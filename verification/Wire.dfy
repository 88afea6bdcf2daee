/** The block an Arxium node serves, as the indexer reads it, and the rows it reads back. */
module Wire {

  datatype Option<+T> = None | Some(value: T)

  datatype Error = DuplicateHash | TooManyActions

  datatype Result<+T> = Ok(value: T) | Err(error: Error)

  function Lookup<K(==), V>(m: map<K, V>, k: K): Option<V> {
    if k in m then Some(m[k]) else None
  }

  /** JSON is kept as its text: nothing below looks inside a payload or a record. */
  type Json = string

  datatype Action = Action(identity: Option<string>, sender: string, kind: string, payload: Json)

  datatype AccountEffect = AccountEffect(balance: nat, nonce: nat, entry: Json)

  datatype DroppedEffect = DroppedEffect(signature: string, sender: string, reason: string)

  datatype BlsKey = BlsKey(effectiveHeight: nat, pubkey: Json)

  /** The node's effects record: one list of (key, new value) per state table. */
  datatype BlockEffects = BlockEffects(
    accounts: seq<(string, AccountEffect)>,
    assetBalances: seq<((string, string), nat)>,            // (asset, holder)
    holderStates: seq<((string, string), Json)>,            // (asset, holder)
    stakes: seq<((string, string), Option<Json>)>,          // (master, validator)
    validatorStatuses: seq<(string, Option<Json>)>,
    validatorSet: Option<Json>,
    assetRegistrations: seq<Json>,
    evidence: seq<(string, nat)>,                           // (proposer, height it signed twice)
    blsKeys: seq<(string, BlsKey)>,
    operators: seq<(string, Option<string>)>,
    attestorRegistrations: seq<(string, Json)>,
    attestorDeregistrations: seq<string>,
    dropped: seq<DroppedEffect>,
    disputedBlocks: seq<nat>)

  datatype Block = Block(
    height: nat,
    hash: string,
    parentHash: string,
    timestamp: nat,
    proposer: Option<string>,
    round: nat,
    actions: seq<Action>,
    effects: Option<BlockEffects>)

  /** Decimal text of a number, as `format!("{}")` writes it. */
  function Decimal(n: nat): string {
    if n < 10 then ["0123456789"[n]] else Decimal(n / 10) + ["0123456789"[n % 10]]
  }

  lemma {:induction false} DecimalInjective(a: nat, b: nat)
    requires Decimal(a) == Decimal(b)
    ensures a == b
  {
    DecimalShape(a);
    DecimalShape(b);
    if a >= 10 && b >= 10 {
      var x, y := Decimal(a), Decimal(b);
      assert x[..|x| - 1] == Decimal(a / 10) && y[..|y| - 1] == Decimal(b / 10);
      DecimalInjective(a / 10, b / 10);
    }
  }

  /** The last character is the last digit; more characters come before it exactly from ten up. */
  lemma DecimalShape(n: nat)
    ensures var t := Decimal(n);
      |t| >= 1 && t[|t| - 1] == "0123456789"[n % 10] && (|t| == 1 <==> n < 10) && t[0] != '-' && ':' !in t
  {
    if n >= 10 { DecimalShape(n / 10); }
  }

  /** The number a text of decimal digits stands for. */
  function ValueOf(t: string): int {
    if t == "" then 0 else 10 * ValueOf(t[..|t| - 1]) + (t[|t| - 1] as int - '0' as int)
  }

  lemma {:induction false} DecimalReads(n: nat)
    ensures ValueOf(Decimal(n)) == n && forall c :: c in Decimal(n) ==> '0' <= c <= '9'
  {
    var t := Decimal(n);
    var last := "0123456789"[n % 10];
    assert last as int == '0' as int + n % 10;
    if n < 10 {
      assert t == [last] && t[..0] == "";
    } else {
      DecimalReads(n / 10);
      assert t[..|t| - 1] == Decimal(n / 10);
    }
  }

  /** The key an action is stored under: its own identity, or its position. */
  function ActionId(height: nat, index: nat, action: Action): string {
    match action.identity
    case Some(id) => id
    case None => Decimal(height) + ":" + Decimal(index)
  }

  /**
   * An action with an identity of its own is stored under it; one without is stored under its
   * height, a colon and its place in the block, in decimal.
   */
  lemma KeyOfAction(h: nat, i: nat, a: Action)
    ensures a.identity.Some? ==> ActionId(h, i, a) == a.identity.value
    ensures a.identity.None? ==> var t := ActionId(h, i, a);
      exists k :: 0 <= k < |t| && t[k] == ':' && ValueOf(t[..k]) == h && ValueOf(t[k + 1..]) == i
  {
    if a.identity.None? {
      var t, k := ActionId(h, i, a), |Decimal(h)|;
      DecimalReads(h);
      DecimalReads(i);
      assert t[k] == ':' && t[..k] == Decimal(h) && t[k + 1..] == Decimal(i);
    }
  }

  lemma NoColonBefore(a: string, b: string)
    requires ':' !in a
    ensures forall i :: 0 <= i < |a| ==> (a + ":" + b)[i] != ':'
  {
    assert forall i :: 0 <= i < |a| ==> (a + ":" + b)[i] == a[i];
  }

  lemma SplitAtColon(a: string, b: string, c: string, d: string)
    requires ':' !in a && ':' !in c && a + ":" + b == c + ":" + d
    ensures a == c && b == d
  {
    var s, t := a + ":" + b, c + ":" + d;
    assert s[|a|] == ':' && t[|c|] == ':';
    NoColonBefore(a, b);
    NoColonBefore(c, d);
    assert |a| == |c|;
    assert s[..|a|] == a && t[..|c|] == c;
    assert s[|a| + 1..] == b && t[|c| + 1..] == d;
  }

  /** Actions without an identity of their own are kept apart by their positions, across the whole chain. */
  lemma PositionsNameActions(h: nat, i: nat, a: Action, g: nat, j: nat, b: Action)
    requires a.identity.None? && b.identity.None? && ActionId(h, i, a) == ActionId(g, j, b)
    ensures h == g && i == j
  {
    DecimalShape(h);
    DecimalShape(g);
    SplitAtColon(Decimal(h), Decimal(i), Decimal(g), Decimal(j));
    DecimalInjective(h, g);
    DecimalInjective(i, j);
  }
}

/** The rows the API serves for a block: built from the wire for the broadcast, read back from storage. */
module Rows {
  import opened Wire

  datatype ActionView = ActionView(id: string, height: int, index: nat, kind: string, sender: string, payload: Json, timestamp: nat)

  datatype DroppedView = DroppedView(height: int, effect: DroppedEffect)

  datatype BlockRow = BlockRow(
    height: int, hash: string, parentHash: string, timestamp: nat, proposer: Option<string>,
    undecoded: nat, actions: seq<ActionView>, dropped: seq<DroppedView>, disputed: bool)

  function Undecoded(actions: seq<ActionView>): nat {
    if actions == [] then 0
    else Undecoded(actions[1..]) + if actions[0].kind == "unknown" then 1 else 0
  }

  /** It counts the actions whose kind could not be told. */
  lemma {:induction false} UndecodedCounts(actions: seq<ActionView>)
    ensures Undecoded(actions) == multiset(seq(|actions|, i requires 0 <= i < |actions| => actions[i].kind))["unknown"]
  {
    if actions != [] {
      var rest := actions[1..];
      UndecodedCounts(rest);
      var kinds := seq(|rest|, i requires 0 <= i < |rest| => rest[i].kind);
      assert seq(|actions|, i requires 0 <= i < |actions| => actions[i].kind) == [actions[0].kind] + kinds;
    }
  }

  function WireActions(b: Block): seq<ActionView> {
    seq(|b.actions|, i requires 0 <= i < |b.actions| =>
      ActionView(ActionId(b.height, i, b.actions[i]), b.height, i, b.actions[i].kind, b.actions[i].sender,
                 b.actions[i].payload, b.timestamp))
  }

  function WireDropped(b: Block): seq<DroppedView> {
    match b.effects
    case None => []
    case Some(e) => seq(|e.dropped|, i requires 0 <= i < |e.dropped| => DroppedView(b.height, e.dropped[i]))
  }

  /** The broadcast row of a freshly ingested block. */
  function RowFromWire(b: Block): BlockRow {
    BlockRow(b.height, b.hash, b.parentHash, b.timestamp, b.proposer, Undecoded(WireActions(b)),
             WireActions(b), WireDropped(b), false)
  }

  function RowsOf(blocks: seq<Block>): seq<BlockRow> {
    seq(|blocks|, i requires 0 <= i < |blocks| => RowFromWire(blocks[i]))
  }
}

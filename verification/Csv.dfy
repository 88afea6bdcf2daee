/** The CSV audit exports, and reading them back by the quoting rules of RFC 4180, section 2. */
module Csv {
  import opened Wire

  // ----------------------------------------------------------------- encoding

  /** Doubles every quote. */
  function Escape(v: string): string {
    if v == [] then [] else Escape(v[..|v| - 1]) + if v[|v| - 1] == '"' then "\"\"" else [v[|v| - 1]]
  }

  function Cell(v: string): string {
    "\"" + Escape(v) + "\""
  }

  function Line(cells: seq<string>): string {
    if cells == [] then ""
    else if |cells| == 1 then Cell(cells[0])
    else Line(cells[..|cells| - 1]) + "," + Cell(cells[|cells| - 1])
  }

  function Body(rows: seq<seq<string>>): string {
    if rows == [] then "" else Body(rows[..|rows| - 1]) + Line(rows[|rows| - 1]) + "\n"
  }

  // ----------------------------------------------------------------- decoding

  /** Where a reader stands: before a field, in a bare field, in quotes, or just after a quote inside quotes. */
  datatype Mode = Start | Bare | Quoted | Closing

  datatype Reader = Bad | Reading(rows: seq<seq<string>>, row: seq<string>, cell: string, mode: Mode)

  function EndCell(r: Reader): Reader
    requires r.Reading?
  {
    r.(row := r.row + [r.cell], cell := "", mode := Start)
  }

  function EndRow(r: Reader): Reader
    requires r.Reading?
  {
    Reading(r.rows + [r.row + [r.cell]], [], "", Start)
  }

  /** Rules 4 to 7: commas separate, quotes enclose, a doubled quote stands for one; a line feed ends the record. */
  function Read(r: Reader, c: char): Reader {
    if r.Bad? then Bad
    else match r.mode
      case Start =>
        if c == '"' then r.(mode := Quoted)
        else if c == ',' then EndCell(r)
        else if c == '\n' then EndRow(r)
        else if c == '\r' then Bad
        else r.(cell := [c], mode := Bare)
      case Bare =>
        if c == ',' then EndCell(r)
        else if c == '\n' then EndRow(r)
        else if c == '"' || c == '\r' then Bad
        else r.(cell := r.cell + [c])
      case Quoted =>
        if c == '"' then r.(mode := Closing) else r.(cell := r.cell + [c])
      case Closing =>
        if c == '"' then r.(cell := r.cell + [c], mode := Quoted)
        else if c == ',' then EndCell(r)
        else if c == '\n' then EndRow(r)
        else Bad
  }

  function ReadAll(r: Reader, s: string): Reader {
    if s == [] then r else Read(ReadAll(r, s[..|s| - 1]), s[|s| - 1])
  }

  /** The records of a body; the last line break may be missing (rule 2). */
  function Decode(body: string): Option<seq<seq<string>>> {
    match ReadAll(Reading([], [], "", Start), body)
    case Bad => None
    case Reading(rows, row, cell, mode) =>
      if mode == Quoted then None
      else if mode == Start && row == [] then Some(rows)
      else Some(rows + [row + [cell]])
  }

  // --------------------------------------------------------------- round trip

  lemma {:induction false} ReadAppend(r: Reader, s: string, t: string)
    ensures ReadAll(r, s + t) == ReadAll(ReadAll(r, s), t)
  {
    if t == [] {
      assert s + t == s;
    } else {
      ReadAppend(r, s, t[..|t| - 1]);
      assert (s + t)[..|s + t| - 1] == s + t[..|t| - 1];
    }
  }

  lemma ReadOne(r: Reader, c: char)
    ensures ReadAll(r, [c]) == Read(r, c)
  {
    assert [c][..0] == [];
  }

  lemma {:induction false} ReadEscaped(r: Reader, v: string)
    requires r.Reading? && r.mode == Quoted
    ensures ReadAll(r, Escape(v)) == r.(cell := r.cell + v)
  {
    if v == [] {
      assert r.cell + v == r.cell;
    } else {
      var front, c := v[..|v| - 1], v[|v| - 1];
      ReadEscaped(r, front);
      assert v == front + [c] && r.cell + v == (r.cell + front) + [c];
      if c == '"' {
        ReadAppend(r, Escape(front), "\"\"");
        assert "\"\"" == "\"" + "\"";
        ReadAppend(r.(cell := r.cell + front), "\"", "\"");
        ReadOne(r.(cell := r.cell + front), '"');
        ReadOne(r.(cell := r.cell + front, mode := Closing), '"');
      } else {
        ReadAppend(r, Escape(front), [c]);
        ReadOne(r.(cell := r.cell + front), c);
      }
    }
  }

  lemma ReadCell(r: Reader, v: string)
    requires r.Reading? && r.mode == Start && r.cell == ""
    ensures ReadAll(r, Cell(v)) == r.(cell := v, mode := Closing)
  {
    hide Escape;
    assert Cell(v) == ("\"" + Escape(v)) + "\"";
    ReadAppend(r, "\"" + Escape(v), "\"");
    ReadAppend(r, "\"", Escape(v));
    ReadOne(r, '"');
    ReadEscaped(r.(mode := Quoted), v);
    assert "" + v == v;
    ReadOne(r.(cell := v, mode := Quoted), '"');
  }

  lemma {:induction false} ReadLine(r: Reader, cells: seq<string>)
    requires r.Reading? && r.mode == Start && r.cell == "" && r.row == [] && cells != []
    ensures ReadAll(r, Line(cells)) == r.(row := cells[..|cells| - 1], cell := cells[|cells| - 1], mode := Closing)
  {
    hide Read, Cell;
    if |cells| == 1 {
      ReadCell(r, cells[0]);
      assert cells[..0] == r.row;
    } else {
      var front, last := cells[..|cells| - 1], cells[|cells| - 1];
      ReadLine(r, front);
      ReadAppend(r, Line(front) + ",", Cell(last));
      ReadAppend(r, Line(front), ",");
      var closed := r.(row := front[..|front| - 1], cell := front[|front| - 1], mode := Closing);
      ReadOne(closed, ',');
      Comma(closed);
      assert front[..|front| - 1] + [front[|front| - 1]] == front;
      ReadCell(r.(row := front), last);
    }
  }

  lemma Comma(r: Reader)
    requires r.Reading? && r.mode == Closing
    ensures Read(r, ',') == EndCell(r)
    ensures Read(r, '\n') == EndRow(r)
  {}

  lemma {:induction false} ReadBody(rows: seq<seq<string>>)
    requires forall i :: 0 <= i < |rows| ==> rows[i] != []
    ensures ReadAll(Reading([], [], "", Start), Body(rows)) == Reading(rows, [], "", Start)
  {
    hide Read, Line;
    var r := Reading([], [], "", Start);
    if rows == [] {
    } else {
      var front, last := rows[..|rows| - 1], rows[|rows| - 1];
      ReadBody(front);
      ReadAppend(r, Body(front) + Line(last), "\n");
      ReadAppend(r, Body(front), Line(last));
      var after := Reading(front, [], "", Start);
      ReadLine(after, last);
      var closed := after.(row := last[..|last| - 1], cell := last[|last| - 1], mode := Closing);
      ReadOne(closed, '\n');
      Comma(closed);
      assert last[..|last| - 1] + [last[|last| - 1]] == last;
      assert front + [last] == rows;
    }
  }

  /** Decoding what was encoded gives the cells back: quotes, commas, line feeds and all. */
  lemma RoundTrip(rows: seq<seq<string>>)
    requires forall i :: 0 <= i < |rows| ==> rows[i] != []
    ensures Decode(Body(rows)) == Some(rows)
  {
    ReadBody(rows);
  }

  // ------------------------------------------------------------------ exports

  function IntText(n: int): string {
    if n < 0 then "-" + Decimal(-n) else Decimal(n)
  }

  function Text(v: Option<string>): string {
    if v.None? then "" else v.value
  }

  datatype Transfer = Transfer(
    actionHash: string, blockHeight: int, indexInBlock: int, blockHash: string, timestamp: int, kind: string,
    from: Option<string>, to: Option<string>, amount: Option<string>, fromState: Option<Json>, toState: Option<Json>)

  datatype Holder = Holder(holder: string, balance: string, height: int, state: Option<Json>, jurisdiction: Option<string>)

  function TransferCells(t: Transfer): (r: seq<string>)
    ensures r != []
  {
    [t.actionHash, IntText(t.blockHeight), IntText(t.indexInBlock), t.blockHash, IntText(t.timestamp), t.kind,
     Text(t.from), Text(t.to), Text(t.amount), Text(t.fromState), Text(t.toState)]
  }

  function HolderCells(h: Holder): (r: seq<string>)
    ensures r != []
  {
    [h.holder, h.balance, IntText(h.height), Text(h.state), Text(h.jurisdiction)]
  }

  /** The integer a cell stands for. */
  function ReadInt(t: string): int {
    if t != "" && t[0] == '-' then -ValueOf(t[1..]) else ValueOf(t)
  }

  lemma IntTextReads(n: int)
    ensures ReadInt(IntText(n)) == n
  {
    hide Decimal, ValueOf;
    if n < 0 {
      DecimalReads(-n);
      assert IntText(n)[1..] == Decimal(-n);
    } else {
      SignShows(n);
      DecimalReads(n);
    }
  }

  /** An optional field and its cell: empty when absent. */
  predicate Holds(cell: string, v: Option<string>) {
    cell == if v.Some? then v.value else ""
  }

  /** A row of the transfer export, column by column as its header names them. */
  predicate IsTransferRow(r: seq<string>, t: Transfer) {
    && |r| == 11
    && r[0] == t.actionHash && ReadInt(r[1]) == t.blockHeight && ReadInt(r[2]) == t.indexInBlock
    && r[3] == t.blockHash && ReadInt(r[4]) == t.timestamp && r[5] == t.kind
    && Holds(r[6], t.from) && Holds(r[7], t.to) && Holds(r[8], t.amount)
    && Holds(r[9], t.fromState) && Holds(r[10], t.toState)
  }

  predicate IsHolderRow(r: seq<string>, h: Holder) {
    && |r| == 5
    && r[0] == h.holder && r[1] == h.balance && ReadInt(r[2]) == h.height && Holds(r[3], h.state) && Holds(r[4], h.jurisdiction)
  }

  /** Reading the data rows of a transfer export back gives one row a record, each field in its column. */
  lemma TransferColumns(records: seq<Transfer>)
    ensures var rows := Decode(Body(Rows(records, TransferCells)));
      rows.Some? && |rows.value| == |records| && forall i :: 0 <= i < |records| ==> IsTransferRow(rows.value[i], records[i])
  {
    hide Body, Decode, IntText, ReadInt;
    RoundTrip(Rows(records, TransferCells));
    forall i | 0 <= i < |records| ensures IsTransferRow(TransferCells(records[i]), records[i]) {
      IntTextReads(records[i].blockHeight);
      IntTextReads(records[i].indexInBlock);
      IntTextReads(records[i].timestamp);
    }
  }

  lemma HolderColumns(records: seq<Holder>)
    ensures var rows := Decode(Body(Rows(records, HolderCells)));
      rows.Some? && |rows.value| == |records| && forall i :: 0 <= i < |records| ==> IsHolderRow(rows.value[i], records[i])
  {
    hide Body, Decode, IntText, ReadInt;
    RoundTrip(Rows(records, HolderCells));
    forall i | 0 <= i < |records| ensures IsHolderRow(HolderCells(records[i]), records[i]) {
      IntTextReads(records[i].height);
    }
  }

  function Rows<T>(records: seq<T>, cells: T -> seq<string>): seq<seq<string>> {
    seq(|records|, i requires 0 <= i < |records| => cells(records[i]))
  }

  const TRANSFER_HEADER := "action_hash,block_height,index_in_block,block_hash,timestamp,kind,from,to,amount,from_state_h_minus_1,to_state_h_minus_1\n"
  const HOLDER_HEADER := "holder,balance,balance_height,compliance_state,jurisdiction\n"

  /** The export loop: a header, then one quoted line a record. */
  method Export<T>(header: string, records: seq<T>, cells: T -> seq<string>) returns (out: string)
    ensures out == header + Body(Rows(records, cells))
  {
    hide Line;
    out := header;
    assert header + Body([]) == header;
    for i := 0 to |records|
      invariant out == header + Body(Rows(records[..i], cells))
    {
      var values := cells(records[i]);
      out := out + Line(values);
      out := out + "\n";
      assert Rows(records[..i + 1], cells)[..i] == Rows(records[..i], cells);
    }
    assert records[..|records|] == records;
  }

  // -------------------------------------------------------------- injectivity

  lemma IntTextInjective(a: int, b: int)
    requires IntText(a) == IntText(b)
    ensures a == b
  {
    if a < 0 && b < 0 {
      assert IntText(a)[1..] == Decimal(-a) && IntText(b)[1..] == Decimal(-b);
      DecimalInjective(-a, -b);
    } else if a >= 0 && b >= 0 {
      DecimalInjective(a, b);
    } else {
      SignShows(a);
      SignShows(b);
    }
  }

  lemma SignShows(a: int)
    ensures IntText(a) != "" && (IntText(a)[0] == '-' <==> a < 0)
  {
    if a >= 0 { DecimalShape(a); }
  }

  /** A record as the export shows it: an absent field reads as an empty one. */
  function Shown(v: Option<string>): Option<string> {
    Some(Text(v))
  }

  function ShownTransfer(t: Transfer): Transfer {
    t.(from := Shown(t.from), to := Shown(t.to), amount := Shown(t.amount),
       fromState := Shown(t.fromState), toState := Shown(t.toState))
  }

  function ShownHolder(h: Holder): Holder {
    h.(state := Shown(h.state), jurisdiction := Shown(h.jurisdiction))
  }

  lemma TransferCellsShow(a: Transfer, b: Transfer)
    ensures TransferCells(a) == TransferCells(b) <==> ShownTransfer(a) == ShownTransfer(b)
  {
    hide Decimal;
    var x, y := TransferCells(a), TransferCells(b);
    if x == y {
      assert x[1] == y[1] && x[2] == y[2] && x[4] == y[4];
      IntTextInjective(a.blockHeight, b.blockHeight);
      IntTextInjective(a.indexInBlock, b.indexInBlock);
      IntTextInjective(a.timestamp, b.timestamp);
      assert x[0] == y[0] && x[3] == y[3] && x[5] == y[5] && x[6] == y[6] && x[7] == y[7];
      assert x[8] == y[8] && x[9] == y[9] && x[10] == y[10];
    }
  }

  lemma HolderCellsShow(a: Holder, b: Holder)
    ensures HolderCells(a) == HolderCells(b) <==> ShownHolder(a) == ShownHolder(b)
  {
    hide Decimal;
    var x, y := HolderCells(a), HolderCells(b);
    if x == y {
      assert x[2] == y[2];
      IntTextInjective(a.height, b.height);
      assert x[0] == y[0] && x[1] == y[1] && x[3] == y[3] && x[4] == y[4];
    }
  }

  lemma BodyInjective(a: seq<seq<string>>, b: seq<seq<string>>)
    requires (forall i :: 0 <= i < |a| ==> a[i] != []) && (forall i :: 0 <= i < |b| ==> b[i] != [])
    requires Body(a) == Body(b)
    ensures a == b
  {
    RoundTrip(a);
    RoundTrip(b);
  }

  /**
   * Two transfer lists export to the same body exactly when they show the same records: only an
   * absent and an empty optional field cannot be told apart.
   */
  lemma TransferExportsDiffer(a: seq<Transfer>, b: seq<Transfer>)
    ensures TRANSFER_HEADER + Body(Rows(a, TransferCells)) == TRANSFER_HEADER + Body(Rows(b, TransferCells))
      <==> |a| == |b| && forall i :: 0 <= i < |a| ==> ShownTransfer(a[i]) == ShownTransfer(b[i])
  {
    hide TransferCells, ShownTransfer, Body;
    var x, y := Rows(a, TransferCells), Rows(b, TransferCells);
    SameTail(TRANSFER_HEADER, Body(x), Body(y));
    if Body(x) == Body(y) { BodyInjective(x, y); }
    forall i | 0 <= i < |a| && i < |b| ensures x[i] == y[i] <==> ShownTransfer(a[i]) == ShownTransfer(b[i]) {
      TransferCellsShow(a[i], b[i]);
    }
    if |a| == |b| && forall i :: 0 <= i < |a| ==> ShownTransfer(a[i]) == ShownTransfer(b[i]) {
      assert x == y;
    }
  }

  lemma HolderExportsDiffer(a: seq<Holder>, b: seq<Holder>)
    ensures HOLDER_HEADER + Body(Rows(a, HolderCells)) == HOLDER_HEADER + Body(Rows(b, HolderCells))
      <==> |a| == |b| && forall i :: 0 <= i < |a| ==> ShownHolder(a[i]) == ShownHolder(b[i])
  {
    hide HolderCells, ShownHolder, Body;
    var x, y := Rows(a, HolderCells), Rows(b, HolderCells);
    SameTail(HOLDER_HEADER, Body(x), Body(y));
    if Body(x) == Body(y) { BodyInjective(x, y); }
    forall i | 0 <= i < |a| && i < |b| ensures x[i] == y[i] <==> ShownHolder(a[i]) == ShownHolder(b[i]) {
      HolderCellsShow(a[i], b[i]);
    }
    if |a| == |b| && forall i :: 0 <= i < |a| ==> ShownHolder(a[i]) == ShownHolder(b[i]) {
      assert x == y;
    }
  }

  lemma SameTail(h: string, a: string, b: string)
    ensures h + a == h + b <==> a == b
  {
    if h + a == h + b {
      assert a == (h + a)[|h|..] == (h + b)[|h|..] == b;
    }
  }
}

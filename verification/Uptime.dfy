/** Validator uptime: turns owed, turns proposed and backups, counted from stored heights and fetched validator sets. */
module Uptime {
  import opened Wire
  import opened Order

  datatype ProposedHeight = ProposedHeight(height: nat, proposer: string, round: nat)

  datatype ValidatorUptime = ValidatorUptime(
    address: string, turnsOwed: nat, turnsProposed: nat, turnsMissed: nat, backupProposals: nat, uptime: Option<real>)

  type Sets = map<nat, seq<string>>

  /** Machine words are 64 bits wide: height and round add modulo this. */
  const WORD := 0x1_0000_0000_0000_0000

  /** The validator entitled to a height at a round. */
  function EligibleDesignee(sorted: seq<string>, height: nat, round: nat): Option<string> {
    if sorted == [] then None
    else Some(sorted[(height + round) % WORD % |sorted|])
  }

  function Primary(row: ProposedHeight, sets: Sets): Option<string> {
    if row.height in sets then EligibleDesignee(sets[row.height], row.height, 0) else None
  }

  // ------------------------------------------------------------ what is counted

  /** Rows whose set was fetched and is not empty. */
  function Counted(rows: seq<ProposedHeight>, sets: Sets): nat {
    if rows == [] then 0
    else Counted(rows[..|rows| - 1], sets) + if Primary(rows[|rows| - 1], sets).Some? then 1 else 0
  }

  function Backups(rows: seq<ProposedHeight>, sets: Sets): nat {
    if rows == [] then 0
    else Backups(rows[..|rows| - 1], sets)
         + if Primary(rows[|rows| - 1], sets).Some? && rows[|rows| - 1].round > 0 then 1 else 0
  }

  function OwedTo(rows: seq<ProposedHeight>, sets: Sets, a: string): nat {
    if rows == [] then 0
    else OwedTo(rows[..|rows| - 1], sets, a) + if Primary(rows[|rows| - 1], sets) == Some(a) then 1 else 0
  }

  function ProposedBy(rows: seq<ProposedHeight>, sets: Sets, a: string): nat {
    if rows == [] then 0
    else
      var row := rows[|rows| - 1];
      ProposedBy(rows[..|rows| - 1], sets, a)
      + if Primary(row, sets) == Some(a) && row.round == 0 && row.proposer == a then 1 else 0
  }

  function BackupBy(rows: seq<ProposedHeight>, sets: Sets, a: string): nat {
    if rows == [] then 0
    else
      var row := rows[|rows| - 1];
      BackupBy(rows[..|rows| - 1], sets, a)
      + if Primary(row, sets).Some? && row.round > 0 && row.proposer == a then 1 else 0
  }

  function Tally(m: map<string, nat>, a: string): nat {
    if a in m then m[a] else 0
  }

  function Entry(a: string, owed: nat, proposed: nat, backup: nat): ValidatorUptime {
    ValidatorUptime(a, owed, proposed, if owed < proposed then 0 else owed - proposed, backup,
                    if owed > 0 then Some(proposed as real / owed as real) else None)
  }

  type Counts = map<string, nat>

  /** The three maps hold the rows' counts; an address is in a map only if it was counted there. */
  ghost predicate Tallied(rows: seq<ProposedHeight>, sets: Sets, owed: Counts, proposed: Counts, backup: Counts) {
    OwedTallied(rows, sets, owed) && ProposedTallied(rows, sets, proposed) && BackupTallied(rows, sets, backup)
  }

  ghost predicate OwedTallied(rows: seq<ProposedHeight>, sets: Sets, owed: Counts) {
    forall a :: (a in owed <==> OwedTo(rows, sets, a) > 0) && Tally(owed, a) == OwedTo(rows, sets, a)
  }

  ghost predicate ProposedTallied(rows: seq<ProposedHeight>, sets: Sets, proposed: Counts) {
    forall a :: Tally(proposed, a) == ProposedBy(rows, sets, a)
  }

  ghost predicate BackupTallied(rows: seq<ProposedHeight>, sets: Sets, backup: Counts) {
    forall a :: (a in backup <==> BackupBy(rows, sets, a) > 0) && Tally(backup, a) == BackupBy(rows, sets, a)
  }

  function Bump(m: Counts, a: string): Counts {
    m[a := Tally(m, a) + 1]
  }

  lemma OwedRow(rows: seq<ProposedHeight>, sets: Sets, owed: Counts)
    requires rows != [] && OwedTallied(rows[..|rows| - 1], sets, owed)
    ensures var primary := Primary(rows[|rows| - 1], sets);
      OwedTallied(rows, sets, if primary.Some? then Bump(owed, primary.value) else owed)
  {
    hide Primary;
  }

  lemma ProposedRow(rows: seq<ProposedHeight>, sets: Sets, proposed: Counts)
    requires rows != [] && ProposedTallied(rows[..|rows| - 1], sets, proposed)
    ensures var row := rows[|rows| - 1];
      ProposedTallied(rows, sets,
        if Primary(row, sets) == Some(row.proposer) && row.round == 0 then Bump(proposed, row.proposer) else proposed)
  {
    hide Primary;
    var row := rows[|rows| - 1];
    var after := if Primary(row, sets) == Some(row.proposer) && row.round == 0 then Bump(proposed, row.proposer) else proposed;
    forall a ensures Tally(after, a) == ProposedBy(rows, sets, a) {
      assert Tally(proposed, a) == ProposedBy(rows[..|rows| - 1], sets, a);
    }
  }

  lemma BackupRow(rows: seq<ProposedHeight>, sets: Sets, backup: Counts)
    requires rows != [] && BackupTallied(rows[..|rows| - 1], sets, backup)
    ensures var row := rows[|rows| - 1];
      BackupTallied(rows, sets, if Primary(row, sets).Some? && row.round > 0 then Bump(backup, row.proposer) else backup)
  {
    hide Primary;
  }

  /** What one more row does to the maps. */
  lemma TallyRow(rows: seq<ProposedHeight>, i: nat, sets: Sets, owed: Counts, proposed: Counts, backup: Counts)
    requires i < |rows| && Tallied(rows[..i], sets, owed, proposed, backup)
    ensures var row, primary := rows[i], Primary(rows[i], sets);
      && (primary.None? ==> Tallied(rows[..i + 1], sets, owed, proposed, backup))
      && (primary.Some? ==> Tallied(rows[..i + 1], sets, Bump(owed, primary.value),
            if row.round == 0 && row.proposer == primary.value then Bump(proposed, row.proposer) else proposed,
            if row.round > 0 then Bump(backup, row.proposer) else backup))
  {
    hide OwedTallied, ProposedTallied, BackupTallied, Primary, Bump;
    assert rows[..i + 1][..i] == rows[..i];
    OwedRow(rows[..i + 1], sets, owed);
    ProposedRow(rows[..i + 1], sets, proposed);
    BackupRow(rows[..i + 1], sets, backup);
  }

  lemma NothingTallied(sets: Sets)
    ensures Tallied([], sets, map[], map[], map[])
  {}

  /** One pass over the rows into three counting maps. */
  method Count(rows: seq<ProposedHeight>, sets: Sets) returns (owed: Counts, proposed: Counts, backup: Counts)
    ensures Tallied(rows, sets, owed, proposed, backup)
  {
    hide Tallied, EligibleDesignee, OwedTo, ProposedBy, BackupBy;
    owed, proposed, backup := map[], map[], map[];
    NothingTallied(sets);
    for i := 0 to |rows|
      invariant Tallied(rows[..i], sets, owed, proposed, backup)
    {
      TallyRow(rows, i, sets, owed, proposed, backup);
      var row := rows[i];
      if row.height !in sets {
        continue;
      }
      var designee := EligibleDesignee(sets[row.height], row.height, 0);
      if designee.None? {
        continue;
      }
      var primary := designee.value;
      owed := owed[primary := Tally(owed, primary) + 1];
      if row.round == 0 {
        if row.proposer == primary {
          proposed := proposed[primary := Tally(proposed, primary) + 1];
        }
      } else {
        backup := backup[row.proposer := Tally(backup, row.proposer) + 1];
      }
    }
    assert rows[..|rows|] == rows;
  }

  ghost predicate Reported(report: seq<ValidatorUptime>, a: string) {
    exists i :: 0 <= i < |report| && report[i].address == a
  }

  function EntryOf(rows: seq<ProposedHeight>, sets: Sets, a: string): ValidatorUptime {
    Entry(a, OwedTo(rows, sets, a), ProposedBy(rows, sets, a), BackupBy(rows, sets, a))
  }

  /**
   * The report of some rows: one entry for each address owed a turn or seen as a backup, in
   * address order, holding exactly the rows' counts for it.
   */
  ghost predicate IsReport(rows: seq<ProposedHeight>, sets: Sets, report: seq<ValidatorUptime>) {
    && (forall i, j :: 0 <= i < j < |report| ==> TextLess(report[i].address, report[j].address))
    && (forall a :: Reported(report, a) <==> (OwedTo(rows, sets, a) > 0 || BackupBy(rows, sets, a) > 0))
    && (forall i :: 0 <= i < |report| ==> IsEntry(rows, sets, report[i]))
  }

  /** The entry's counts are the rows', what is owed is proposed or missed, and the uptime is proposed over owed. */
  ghost predicate IsEntry(rows: seq<ProposedHeight>, sets: Sets, e: ValidatorUptime) {
    && e.turnsOwed == OwedTo(rows, sets, e.address)
    && e.turnsProposed == ProposedBy(rows, sets, e.address)
    && e.backupProposals == BackupBy(rows, sets, e.address)
    && e.turnsProposed + e.turnsMissed == e.turnsOwed
    && (e.uptime.Some? <==> e.turnsOwed > 0)
    && (e.uptime.Some? ==> e.uptime.value * e.turnsOwed as real == e.turnsProposed as real)
  }

  lemma EntryIs(rows: seq<ProposedHeight>, sets: Sets, e: ValidatorUptime)
    ensures IsEntry(rows, sets, e) <==> e == EntryOf(rows, sets, e.address)
  {
    hide OwedTo, ProposedBy, BackupBy;
    ProposedAtMostOwed(rows, sets, e.address);
    if OwedTo(rows, sets, e.address) > 0 && e.uptime.Some? {
      ShareIs(e.uptime.value, ProposedBy(rows, sets, e.address) as real, OwedTo(rows, sets, e.address) as real);
    }
  }

  lemma ShareIs(x: real, part: real, whole: real)
    requires whole > 0.0
    ensures x * whole == part <==> x == part / whole
  {}

  lemma AddressOrder(names: set<string>)
    ensures var r := Sort(set a | a in names :: Key(0, 0, a));
      && (forall i, j :: 0 <= i < j < |r| ==> TextLess(r[i].name, r[j].name))
      && (forall a :: (exists i :: 0 <= i < |r| && r[i].name == a) <==> a in names)
  {
    hide Sort;
    var keys := set a | a in names :: Key(0, 0, a);
    var r := Sort(keys);
    forall i | 0 <= i < |r| ensures r[i] in keys { assert r[i] in Elements(r); }
    forall i, j | 0 <= i < j < |r| ensures TextLess(r[i].name, r[j].name) { assert Less(r[i], r[j]); }
    forall a | a in names ensures exists i :: 0 <= i < |r| && r[i].name == a {
      assert Key(0, 0, a) in Elements(r);
      var i :| 0 <= i < |r| && r[i] == Key(0, 0, a);
      assert r[i].name == a;
    }
  }

  /** The addresses in order, as the ordered set lists them. */
  function Listing(names: set<string>): seq<string> {
    var keys := Sort(set a | a in names :: Key(0, 0, a));
    seq(|keys|, i requires 0 <= i < |keys| => keys[i].name)
  }

  lemma ListingIs(names: set<string>)
    ensures forall i, j :: 0 <= i < j < |Listing(names)| ==> TextLess(Listing(names)[i], Listing(names)[j])
    ensures forall a :: a in Listing(names) <==> a in names
  {
    hide Sort, TextLess;
    AddressOrder(names);
    Listed(Sort(set a | a in names :: Key(0, 0, a)), Listing(names), names);
  }

  lemma Listed(keys: seq<Key>, r: seq<string>, names: set<string>)
    requires |r| == |keys| && forall i :: 0 <= i < |r| ==> r[i] == keys[i].name
    requires forall a :: (exists i :: 0 <= i < |keys| && keys[i].name == a) <==> a in names
    ensures forall a :: a in r <==> a in names
  {
    forall a ensures a in r <==> a in names {
      if a in names {
        var i :| 0 <= i < |keys| && keys[i].name == a;
        assert r[i] == a;
      }
    }
  }

  /** One entry for each counted address, in order. */
  method ComputeUptime(rows: seq<ProposedHeight>, sets: Sets) returns (report: seq<ValidatorUptime>)
    ensures IsReport(rows, sets, report)
  {
    var owed, proposed, backup := Count(rows, sets);
    hide OwedTo, ProposedBy, BackupBy, TextLess, Listing;
    var addresses := Listing(owed.Keys + backup.Keys);
    report := [];
    for i := 0 to |addresses|
      invariant |report| == i
      invariant forall j :: 0 <= j < i ==> report[j] == EntryOf(rows, sets, addresses[j])
    {
      var a := addresses[i];
      report := report + [Entry(a, Tally(owed, a), Tally(proposed, a), Tally(backup, a))];
    }
    ListingIs(owed.Keys + backup.Keys);
    MakesReport(rows, sets, owed.Keys + backup.Keys, addresses, report);
  }

  lemma MakesReport(rows: seq<ProposedHeight>, sets: Sets, names: set<string>, addresses: seq<string>, report: seq<ValidatorUptime>)
    requires forall a :: a in names <==> OwedTo(rows, sets, a) > 0 || BackupBy(rows, sets, a) > 0
    requires forall i, j :: 0 <= i < j < |addresses| ==> TextLess(addresses[i], addresses[j])
    requires forall a :: a in addresses <==> a in names
    requires |report| == |addresses| && forall j :: 0 <= j < |report| ==> report[j] == EntryOf(rows, sets, addresses[j])
    ensures IsReport(rows, sets, report)
  {
    hide OwedTo, ProposedBy, BackupBy, TextLess;
    forall a ensures Reported(report, a) <==> a in names {
      if i :| 0 <= i < |addresses| && addresses[i] == a { assert report[i].address == a; }
      if i :| 0 <= i < |report| && report[i].address == a { assert addresses[i] == a; }
    }
    forall i | 0 <= i < |report| ensures IsEntry(rows, sets, report[i]) { EntryIs(rows, sets, report[i]); }
  }

  // -------------------------------------------------------------------- totals

  function TotalOwed(report: seq<ValidatorUptime>): nat {
    if report == [] then 0 else TotalOwed(report[..|report| - 1]) + report[|report| - 1].turnsOwed
  }

  function TotalBackups(report: seq<ValidatorUptime>): nat {
    if report == [] then 0 else TotalBackups(report[..|report| - 1]) + report[|report| - 1].backupProposals
  }

  /** The report of `rows` for a list of addresses. */
  function ReportFor(rows: seq<ProposedHeight>, sets: Sets, names: seq<string>): seq<ValidatorUptime> {
    seq(|names|, i requires 0 <= i < |names| => EntryOf(rows, sets, names[i]))
  }

  lemma EntryCounts(rows: seq<ProposedHeight>, sets: Sets, a: string)
    ensures EntryOf(rows, sets, a).turnsOwed == OwedTo(rows, sets, a)
    ensures EntryOf(rows, sets, a).backupProposals == BackupBy(rows, sets, a)
  {}

  ghost predicate Distinct(names: seq<string>) {
    forall i, j :: 0 <= i < j < |names| ==> names[i] != names[j]
  }

  /** Adding a row adds one turn to its primary, and nothing to the other addresses. */
  lemma {:induction false} OwedStep(rows: seq<ProposedHeight>, sets: Sets, names: seq<string>)
    requires rows != [] && Distinct(names)
    ensures var primary := Primary(rows[|rows| - 1], sets);
      TotalOwed(ReportFor(rows, sets, names)) == TotalOwed(ReportFor(rows[..|rows| - 1], sets, names))
        + if primary.Some? && primary.value in names then 1 else 0
  {
    hide EntryOf, Primary, ProposedBy;
    if names != [] {
      var less, last := names[..|names| - 1], names[|names| - 1];
      var front := rows[..|rows| - 1];
      assert names == less + [last];
      OwedStep(rows, sets, less);
      EntryCounts(rows, sets, last);
      EntryCounts(front, sets, last);
      assert ReportFor(rows, sets, names)[..|less|] == ReportFor(rows, sets, less);
      assert ReportFor(front, sets, names)[..|less|] == ReportFor(front, sets, less);
    }
  }

  lemma {:induction false} BackupStep(rows: seq<ProposedHeight>, sets: Sets, names: seq<string>)
    requires rows != [] && Distinct(names)
    ensures var row := rows[|rows| - 1];
      TotalBackups(ReportFor(rows, sets, names)) == TotalBackups(ReportFor(rows[..|rows| - 1], sets, names))
        + if Primary(row, sets).Some? && row.round > 0 && row.proposer in names then 1 else 0
  {
    hide EntryOf, Primary, ProposedBy;
    if names != [] {
      var less, last := names[..|names| - 1], names[|names| - 1];
      var front := rows[..|rows| - 1];
      assert names == less + [last];
      BackupStep(rows, sets, less);
      EntryCounts(rows, sets, last);
      EntryCounts(front, sets, last);
      assert ReportFor(rows, sets, names)[..|less|] == ReportFor(rows, sets, less);
      assert ReportFor(front, sets, names)[..|less|] == ReportFor(front, sets, less);
    }
  }

  ghost predicate Names(rows: seq<ProposedHeight>, sets: Sets, names: seq<string>) {
    forall i :: 0 <= i < |rows| && Primary(rows[i], sets).Some? ==>
      Primary(rows[i], sets).value in names && (rows[i].round > 0 ==> rows[i].proposer in names)
  }

  lemma {:induction false} NothingOwed(sets: Sets, names: seq<string>)
    ensures TotalOwed(ReportFor([], sets, names)) == 0 && TotalBackups(ReportFor([], sets, names)) == 0
  {
    if names != [] {
      NothingOwed(sets, names[..|names| - 1]);
      assert ReportFor([], sets, names)[..|names| - 1] == ReportFor([], sets, names[..|names| - 1]);
    }
  }

  lemma {:induction false} ListTotals(rows: seq<ProposedHeight>, sets: Sets, names: seq<string>)
    requires Distinct(names) && Names(rows, sets, names)
    ensures TotalOwed(ReportFor(rows, sets, names)) == Counted(rows, sets)
    ensures TotalBackups(ReportFor(rows, sets, names)) == Backups(rows, sets)
  {
    if rows == [] {
      NothingOwed(sets, names);
    } else {
      ListTotals(rows[..|rows| - 1], sets, names);
      OwedStep(rows, sets, names);
      BackupStep(rows, sets, names);
    }
  }

  lemma {:induction false} RowIsTallied(rows: seq<ProposedHeight>, sets: Sets, i: nat)
    requires i < |rows| && Primary(rows[i], sets).Some?
    ensures OwedTo(rows, sets, Primary(rows[i], sets).value) > 0
    ensures rows[i].round > 0 ==> BackupBy(rows, sets, rows[i].proposer) > 0
  {
    if i < |rows| - 1 { RowIsTallied(rows[..|rows| - 1], sets, i); }
  }

  /**
   * Nothing is lost or invented: over the whole report the turns owed are the rows with a
   * non-empty fetched set, the backups are those of them at a later round, and no address has
   * proposed more turns than it was owed, so each missed count is exact.
   */
  lemma ReportAddsUp(rows: seq<ProposedHeight>, sets: Sets, report: seq<ValidatorUptime>)
    requires IsReport(rows, sets, report)
    ensures TotalOwed(report) == Counted(rows, sets) && TotalBackups(report) == Backups(rows, sets)
    ensures forall i :: 0 <= i < |report| ==> report[i].turnsProposed + report[i].turnsMissed == report[i].turnsOwed
  {
    hide EligibleDesignee;
    var names := seq(|report|, i requires 0 <= i < |report| => report[i].address);
    forall i | 0 <= i < |report| ensures report[i] == EntryOf(rows, sets, names[i]) { EntryIs(rows, sets, report[i]); }
    assert report == ReportFor(rows, sets, names);
    forall i, j | 0 <= i < j < |names| ensures names[i] != names[j] { TextTotal(names[i], names[j]); }
    forall i | 0 <= i < |rows| && Primary(rows[i], sets).Some?
      ensures Primary(rows[i], sets).value in names && (rows[i].round > 0 ==> rows[i].proposer in names)
    {
      RowIsTallied(rows, sets, i);
      ReportedName(report, names, Primary(rows[i], sets).value);
      ReportedName(report, names, rows[i].proposer);
    }
    ListTotals(rows, sets, names);
    forall i | 0 <= i < |report| ensures report[i].turnsProposed + report[i].turnsMissed == report[i].turnsOwed {
      ProposedAtMostOwed(rows, sets, report[i].address);
    }
  }

  lemma ReportedName(report: seq<ValidatorUptime>, names: seq<string>, a: string)
    requires |names| == |report| && forall i :: 0 <= i < |report| ==> names[i] == report[i].address
    ensures Reported(report, a) ==> a in names
  {
    if Reported(report, a) {
      var i :| 0 <= i < |report| && report[i].address == a;
      assert names[i] == a;
    }
  }

  lemma {:induction false} ProposedAtMostOwed(rows: seq<ProposedHeight>, sets: Sets, a: string)
    ensures ProposedBy(rows, sets, a) <= OwedTo(rows, sets, a)
  {
    if rows != [] { ProposedAtMostOwed(rows[..|rows| - 1], sets, a); }
  }

  // ------------------------------------------------------------------- fairness

  /** Every height of a stretch, once each, in order, all with the set `vs`. */
  ghost predicate Stretch(rows: seq<ProposedHeight>, sets: Sets, from: nat, vs: seq<string>) {
    && (forall i :: 0 <= i < |rows| ==> rows[i].height == from + i && rows[i].height in sets && sets[rows[i].height] == vs)
    && from + |rows| <= 0x1_0000_0000_0000_0000
  }

  /** How many of the `n` heights from `from` fall to place `k` of a set of `m`. */
  function Falls(from: nat, n: nat, m: nat, k: nat): nat
    requires m > 0
  {
    if n == 0 then 0 else Falls(from, n - 1, m, k) + if (from + n - 1) % m == k then 1 else 0
  }

  lemma {:induction false} OwedIsFalls(rows: seq<ProposedHeight>, sets: Sets, from: nat, vs: seq<string>, k: nat)
    requires Stretch(rows, sets, from, vs) && Distinct(vs) && k < |vs|
    ensures OwedTo(rows, sets, vs[k]) == Falls(from, |rows|, |vs|, k)
  {
    if rows != [] {
      var front, h := rows[..|rows| - 1], from + |rows| - 1;
      OwedIsFalls(front, sets, from, vs, k);
      assert rows[|rows| - 1].height == h && h % WORD == h by { Small(h, WORD); }
      assert 0 <= h % |vs| < |vs|;
      if h % |vs| < k { assert vs[h % |vs|] != vs[k]; }
    }
  }

  lemma Small(h: nat, m: nat)
    requires h < m
    ensures h % m == h
  {}

  lemma {:induction false} FallsSplit(from: nat, a: nat, b: nat, m: nat, k: nat)
    requires m > 0
    ensures Falls(from, a + b, m, k) == Falls(from, a, m, k) + Falls(from + a, b, m, k)
  {
    if b > 0 { FallsSplit(from, a, b - 1, m, k); }
  }

  lemma NextTurn(h: nat, m: nat)
    requires m > 0
    ensures (h + m) % m == h % m
  {
    assert h == m * (h / m) + h % m;
    Unique(h + m, m, h / m + 1, h % m);
  }

  lemma Unique(h: nat, m: nat, q: nat, r: nat)
    requires 0 <= r < m && h == m * q + r
    ensures h % m == r && h / m == q
  {
    var q', r' := h / m, h % m;
    assert h == m * q' + r';
    if q' < q { Times(m, q' + 1, q); } else if q < q' { Times(m, q + 1, q'); }
  }

  lemma Times(m: nat, a: nat, b: nat)
    requires a <= b
    ensures m * a <= m * b && m * (a - 1) == m * a - m
  {}

  /** Any `m` heights in a row fall to place `k` exactly once. */
  lemma {:induction false} OneRound(from: nat, m: nat, k: nat)
    requires k < m
    ensures Falls(from, m, m, k) == 1
  {
    if from == 0 {
      FirstRound(m, m, k);
    } else {
      OneRound(from - 1, m, k);
      FallsSplit(from - 1, 1, m, m, k);
      FallsSplit(from - 1, m, 1, m, k);
      assert Falls(from - 1 + m, 1, m, k) == Falls(from - 1, 1, m, k) by {
        NextTurn(from - 1, m);
        OneFall(from - 1 + m, m, k);
        OneFall(from - 1, m, k);
      }
    }
  }

  lemma OneFall(from: nat, m: nat, k: nat)
    requires m > 0
    ensures Falls(from, 1, m, k) == if from % m == k then 1 else 0
  {
    assert Falls(from, 0, m, k) == 0;
  }

  lemma {:induction false} FirstRound(n: nat, m: nat, k: nat)
    requires n <= m && k < m
    ensures Falls(0, n, m, k) == if k < n then 1 else 0
  {
    if n > 0 {
      FirstRound(n - 1, m, k);
      Small(n - 1, m);
    }
  }

  lemma OneLess(n: nat, m: nat)
    requires 0 < m <= n
    ensures (n - m) / m == n / m - 1 && (n - m) % m == n % m
  {
    assert n == m * (n / m) + n % m;
    if n / m == 0 { assert false; }
    Times(m, n / m, n / m);
    Unique(n - m, m, n / m - 1, n % m);
  }

  /** Of `n` heights in a row, place `k` gets n / m rounded down or up. */
  lemma {:induction false} FairShare(from: nat, n: nat, m: nat, k: nat)
    requires k < m
    ensures n / m <= Falls(from, n, m, k) <= n / m + if n % m == 0 then 0 else 1
    decreases n
  {
    if n < m {
      OneRound(from, m, k);
      FallsSplit(from, n, m - n, m, k);
      Unique(n, m, 0, n);
    } else {
      FairShare(from + m, n - m, m, k);
      OneRound(from, m, k);
      FallsSplit(from, m, n - m, m, k);
      OneLess(n, m);
    }
  }

  /**
   * Fair turns. Over a stretch of L heights with one set of n distinct validators, each validator
   * is owed L / n turns, rounded down or up - whatever the rounds and whoever proposed.
   */
  lemma TurnsAreFair(rows: seq<ProposedHeight>, sets: Sets, from: nat, vs: seq<string>, k: nat)
    requires Stretch(rows, sets, from, vs) && Distinct(vs) && k < |vs|
    ensures var L, n := |rows|, |vs|;
      L / n <= OwedTo(rows, sets, vs[k]) <= L / n + if L % n == 0 then 0 else 1
  {
    OwedIsFalls(rows, sets, from, vs, k);
    FairShare(from, |rows|, |vs|, k);
  }
}

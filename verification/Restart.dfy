/** Crashes on a fork-free source: losing every block in flight changes nothing that is stored. */
module Restart {
  import opened Wire
  import opened Storage
  import opened TipRules
  import Indexer
  import opened Replay
  import opened Convergence

  /** The running process: only `db` survives a crash. */
  datatype Process = Process(db: Database, tip: Option<Tip>, batch: seq<Block>, queue: seq<Block>, next: nat)

  datatype Event = Fetch(count: nat) | Take(finalized: Option<int>) | Flush | Crash

  /** A start reads the tip from the cursor's block and resumes after the cursor. */
  function Resume(d: Database): Process
    requires Top(d) >= -1
  {
    Process(d, Indexer.DurableTip(d), [], [], Top(d) + 1)
  }

  predicate Possible(s: Process, e: Event, c: seq<Block>) {
    match e
    case Fetch(count) => s.next + count <= |c|
    case Take(_) => s.queue != []
    case Flush => true
    case Crash => Top(s.db) >= -1
  }

  /** One event against a node serving `c`; `None` where the loop would skip the block or roll back, or a commit would fail. */
  function Happen(s: Process, e: Event, c: seq<Block>, depth: nat, p: Projections): Option<Process>
    requires Possible(s, e, c)
  {
    match e
    case Fetch(count) => Some(s.(queue := s.queue + c[s.next..s.next + count], next := s.next + count))
    case Take(finalized) =>
      var b := s.queue[0];
      var action := Classify(s.tip, b.height, b.parentHash, None, depth, finalized);
      if action.Extend? || action.Gap? then
        Some(s.(tip := Some(Tip(b.height, b.hash)), batch := s.batch + [b], queue := s.queue[1..]))
      else None
    case Flush =>
      (match InsertAll(s.db, s.batch, p)
       case Err(_) => None
       case Ok(d) => Some(s.(db := d, batch := [])))
    case Crash => Some(Resume(s.db))
  }

  /** Stored, pending, and queued blocks are consecutive pieces of the served chain. */
  ghost predicate OnChain(s: Process, c: seq<Block>, p: Projections) {
    var k := Top(s.db) + 1;
    var m := k + |s.batch|;
    && 0 <= k <= m <= s.next <= |c| && s.next == m + |s.queue|
    && Replays(s.db, c[..k], p) && s.batch == c[k..m] && s.queue == c[m..s.next]
    && (s.db.cursor.None? <==> k == 0)
    && s.tip == (if m == 0 then None else Some(Tip(m - 1, c[m - 1].hash)))
  }

  lemma FlushCommits(d: Database, c: seq<Block>, k: nat, m: nat, p: Projections)
    requires Served(c) && k <= m <= |c| && Replays(d, c[..k], p) && Top(d) == k - 1 && (d.cursor.None? <==> k == 0)
    ensures InsertAll(d, c[k..m], p).Ok?
    ensures var d' := InsertAll(d, c[k..m], p).value;
      Replays(d', c[..m], p) && Top(d') == m - 1 && (d'.cursor.None? <==> m == 0)
  {
    hide InsertBlock, Good, Served;
    assert c[..k] + c[k..m] == c[..m];
    PieceOfChain(c, k, m);
    ServedCommits(c[..m], p);
    InsertAllAppend(EMPTY, c[..k], c[k..m], p);
    InsertAllSameIndex(d, InsertAll(EMPTY, c[..k], p).value, c[k..m], p);
    InsertReplays(d, c[..k], c[k..m], p);
    CursorAfter(d, c[k..m], p) by { GoodReplay(d, c[..k], p); }
  }

  lemma GoodReplay(d: Database, live: seq<Block>, p: Projections)
    requires Replays(d, live, p)
    ensures Good(d)
  {}

  lemma PieceOfChain(c: seq<Block>, k: nat, m: nat)
    requires Served(c) && k <= m <= |c|
    ensures Served(c[..m]) && Ascending(c[k..m]) && Above(c[k..m], k - 1)
    ensures k < m ==> c[k..m][m - k - 1].height == m - 1
  {}

  lemma TipOnChain(d: Database, c: seq<Block>, k: nat, p: Projections)
    requires Served(c) && k <= |c| && Replays(d, c[..k], p) && Top(d) == k - 1 && (d.cursor.None? <==> k == 0)
    ensures Indexer.DurableTip(d) == if k == 0 then None else Some(Tip(k - 1, c[k - 1].hash))
  {
    hide InsertIndex, Below, Valid;
    if k > 0 {
      ReplayedHash(c[..k], p, k - 1);
    }
  }

  lemma NextExtends(c: seq<Block>, m: nat, depth: nat, finalized: Option<int>)
    requires Served(c) && m < |c|
    ensures c[m].height == m
    ensures Classify(if m == 0 then None else Some(Tip(m - 1, c[m - 1].hash)), m, c[m].parentHash, None, depth, finalized)
      == Extend
  {
    assert m > 0 ==> HashesMatch(c[m].parentHash, c[m - 1].hash);
  }

  lemma FetchKeeps(s: Process, count: nat, c: seq<Block>, p: Projections)
    requires OnChain(s, c, p) && s.next + count <= |c|
    ensures OnChain(s.(queue := s.queue + c[s.next..s.next + count], next := s.next + count), c, p)
  {
    hide Replays;
    var m := Top(s.db) + 1 + |s.batch|;
    assert c[m..s.next] + c[s.next..s.next + count] == c[m..s.next + count];
  }

  /** The head of the queue is the chain's next block, and taking it into the batch stays on the chain. */
  lemma TakenState(s: Process, c: seq<Block>, p: Projections)
    requires OnChain(s, c, p) && s.queue != []
    ensures var m := Top(s.db) + 1 + |s.batch|;
      && 0 <= m < |c| && s.queue[0] == c[m] && s.tip == (if m == 0 then None else Some(Tip(m - 1, c[m - 1].hash)))
      && OnChain(s.(tip := Some(Tip(m, c[m].hash)), batch := s.batch + [c[m]], queue := s.queue[1..]), c, p)
  {
    hide Replays, Top;
    var k, m := Top(s.db) + 1, Top(s.db) + 1 + |s.batch|;
    assert s.queue[0] == c[m] && s.queue[1..] == c[m + 1..s.next];
    assert c[k..m] + [c[m]] == c[k..m + 1];
  }

  lemma TakeKeeps(s: Process, finalized: Option<int>, c: seq<Block>, depth: nat, p: Projections)
    requires Served(c) && OnChain(s, c, p) && s.queue != []
    ensures Happen(s, Event.Take(finalized), c, depth, p).Some?
    ensures OnChain(Happen(s, Event.Take(finalized), c, depth, p).value, c, p)
  {
    hide OnChain, Classify, Served, Top;
    TakenState(s, c, p);
    NextExtends(c, Top(s.db) + 1 + |s.batch|, depth, finalized);
  }

  lemma FlushKeeps(s: Process, c: seq<Block>, p: Projections)
    requires Served(c) && OnChain(s, c, p)
    ensures InsertAll(s.db, s.batch, p).Ok?
    ensures OnChain(s.(db := InsertAll(s.db, s.batch, p).value, batch := []), c, p)
  {
    hide Replays, InsertAll, Served;
    var k, m := Top(s.db) + 1, Top(s.db) + 1 + |s.batch|;
    FlushCommits(s.db, c, k, m, p);
    assert c[m..m] == [];
  }

  lemma CrashKeeps(s: Process, c: seq<Block>, p: Projections)
    requires Served(c) && OnChain(s, c, p)
    ensures OnChain(Resume(s.db), c, p)
  {
    hide Replays, Served, Indexer.DurableTip;
    var k := Top(s.db) + 1;
    TipOnChain(s.db, c, k, p);
    assert c[k..k] == [];
  }

  lemma EventKeeps(s: Process, e: Event, c: seq<Block>, depth: nat, p: Projections)
    requires Served(c) && OnChain(s, c, p) && Possible(s, e, c)
    ensures Happen(s, e, c, depth, p).Some? && OnChain(Happen(s, e, c, depth, p).value, c, p)
  {
    hide OnChain, Served, InsertAll;
    match e {
      case Fetch(count) => FetchKeeps(s, count, c, p);
      case Take(finalized) => TakeKeeps(s, finalized, c, depth, p);
      case Flush => FlushKeeps(s, c, p);
      case Crash => CrashKeeps(s, c, p);
    }
  }

  function Live(s: Process, events: seq<Event>, c: seq<Block>, depth: nat, p: Projections): Option<Process> {
    if events == [] then Some(s)
    else match Live(s, events[..|events| - 1], c, depth, p)
      case None => None
      case Some(s') =>
        if Possible(s', events[|events| - 1], c) then Happen(s', events[|events| - 1], c, depth, p) else Some(s')
  }

  lemma {:induction false} LifeStaysOnChain(d: Database, k: nat, events: seq<Event>, c: seq<Block>, depth: nat, p: Projections)
    requires Served(c) && k <= |c| && Replays(d, c[..k], p) && Top(d) == k - 1 && (d.cursor.None? <==> k == 0)
    ensures Live(Resume(d), events, c, depth, p).Some?
    ensures OnChain(Live(Resume(d), events, c, depth, p).value, c, p)
  {
    hide Happen, Replays;
    if events == [] {
      TipOnChain(d, c, k, p);
      assert c[k..k] == [];
    } else {
      var front := events[..|events| - 1];
      LifeStaysOnChain(d, k, front, c, depth, p);
      var s := Live(Resume(d), front, c, depth, p).value;
      if Possible(s, events[|events| - 1], c) {
        EventKeeps(s, events[|events| - 1], c, depth, p);
      }
    }
  }

  /**
   * Crash and restart. Start from a database that replays part of a served chain and let any
   * fetches, flushes and crashes happen, at any points and any number of times. No commit fails,
   * no block is ever taken for a fork, and what is stored is exactly the chain up to the cursor -
   * so any two lives that stand at the same cursor, one that never crashed among them, hold the
   * same rows.
   */
  lemma CrashesChangeNothing(d: Database, k: nat, events: seq<Event>, others: seq<Event>, c: seq<Block>, depth: nat, p: Projections)
    requires Served(c) && k <= |c| && Replays(d, c[..k], p) && Top(d) == k - 1 && (d.cursor.None? <==> k == 0)
    ensures Live(Resume(d), events, c, depth, p).Some? && Live(Resume(d), others, c, depth, p).Some?
    ensures var x, y := Live(Resume(d), events, c, depth, p).value.db, Live(Resume(d), others, c, depth, p).value.db;
      && 0 <= Top(x) + 1 <= |c| && Replays(x, c[..Top(x) + 1], p)
      && (x.cursor == y.cursor ==> x.index == y.index)
  {
    hide Good, Live;
    LifeStaysOnChain(d, k, events, c, depth, p);
    LifeStaysOnChain(d, k, others, c, depth, p);
  }
}

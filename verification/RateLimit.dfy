/** The fixed-window request limiter: what its sweep may not change, and what it admits over any minute. */
module RateLimit {
  import opened Wire
  import Heights

  type Ip = string

  /** When the address's window began, and the requests counted in it. */
  datatype Window = Window(seen: nat, count: nat)

  type Hits = map<Ip, Window>

  /** Sixty seconds, in the nanoseconds instants are measured in. */
  const WINDOW := 60_000_000_000
  const SWEEP_THRESHOLD := 10_000
  const COUNTER := 0x1_0000_0000

  datatype Call = Call(ip: Ip, now: nat)

  function Elapsed(now: nat, seen: nat): nat {
    if now < seen then 0 else now - seen
  }

  /** The address's window after one more request; the 32-bit counter wraps. */
  function Touch(w: Option<Window>, now: nat): (r: Window) {
    if w.None? || Elapsed(now, w.value.seen) > WINDOW then Window(now, 1)
    else Window(w.value.seen, (w.value.count + 1) % COUNTER)
  }

  function Retained(hits: Hits, now: nat): Hits {
    map ip | ip in hits && Elapsed(now, hits[ip].seen) <= WINDOW :: hits[ip]
  }

  function Swept(hits: Hits, now: nat): Hits {
    if |hits| > SWEEP_THRESHOLD then Retained(hits, now) else hits
  }

  /** The map after a request, with and without the sweep. */
  function AfterCall(hits: Hits, c: Call): Hits {
    Swept(hits, c.now)[c.ip := Touch(Lookup(Swept(hits, c.now), c.ip), c.now)]
  }

  function AfterPlain(hits: Hits, c: Call): Hits {
    hits[c.ip := Touch(Lookup(hits, c.ip), c.now)]
  }

  class RateLimiter {
    const maxPerWindow: nat
    var hits: Hits

    constructor (maxPerWindow: nat)
      ensures this.maxPerWindow == maxPerWindow && hits == map[]
    {
      this.maxPerWindow, hits := maxPerWindow, map[];
    }

    /** One request under the lock: sweep a grown map, find or open the window, count, decide. */
    method Allow(ip: Ip, now: nat) returns (ok: bool)
      modifies this
      ensures hits == AfterCall(old(hits), Call(ip, now))
      ensures ok <==> hits[ip].count <= maxPerWindow
      ensures |old(hits)| > 10_000 ==> forall other :: other != ip ==>
        (other in hits <==> other in old(hits) && now - old(hits)[other].seen <= 60_000_000_000)
    {
      if |hits| > SWEEP_THRESHOLD {
        hits := Retained(hits, now);
      }
      if ip !in hits {
        hits := hits[ip := Window(now, 0)];
      }
      if Elapsed(now, hits[ip].seen) > WINDOW {
        hits := hits[ip := Window(now, 0)];
      }
      var w := hits[ip];
      hits := hits[ip := Window(w.seen, (w.count + 1) % COUNTER)];
      ok := hits[ip].count <= maxPerWindow;
    }
  }

  /** The map after a history of requests, each handled as `Allow` does, and without any sweep. */
  function RunSwept(hits: Hits, calls: seq<Call>): Hits {
    if calls == [] then hits else AfterCall(RunSwept(hits, calls[..|calls| - 1]), calls[|calls| - 1])
  }

  function RunPlain(hits: Hits, calls: seq<Call>): Hits {
    if calls == [] then hits else AfterPlain(RunPlain(hits, calls[..|calls| - 1]), calls[|calls| - 1])
  }

  /** Whether request `i` is let through. */
  predicate Decision(hits: Hits, calls: seq<Call>, i: nat, max: nat)
    requires i < |calls|
  {
    assert calls[..i + 1][i] == calls[i];
    RunSwept(hits, calls[..i + 1])[calls[i].ip].count <= max
  }

  ghost predicate Monotone(calls: seq<Call>) {
    forall i, j :: 0 <= i < j < |calls| ==> calls[i].now <= calls[j].now
  }

  // ------------------------------------------------------------------ the sweep

  /** The swept map lost only windows that are over by `now`. */
  ghost predicate Simulates(swept: Hits, plain: Hits, now: nat) {
    && (forall ip :: ip in swept ==> ip in plain && swept[ip] == plain[ip])
    && (forall ip :: ip in plain && ip !in swept ==> Elapsed(now, plain[ip].seen) > WINDOW)
  }

  lemma CallSimulates(swept: Hits, plain: Hits, before: nat, c: Call)
    requires Simulates(swept, plain, before) && before <= c.now
    ensures Simulates(AfterCall(swept, c), AfterPlain(plain, c), c.now)
    ensures AfterCall(swept, c)[c.ip] == AfterPlain(plain, c)[c.ip]
  {
    var s := Swept(swept, c.now);
    assert Simulates(s, plain, c.now);
  }

  lemma {:induction false} RunSimulates(calls: seq<Call>)
    requires Monotone(calls)
    ensures Simulates(RunSwept(map[], calls), RunPlain(map[], calls), if calls == [] then 0 else calls[|calls| - 1].now)
    ensures calls != [] ==> var ip := calls[|calls| - 1].ip;
      ip in RunPlain(map[], calls) && RunSwept(map[], calls)[ip] == RunPlain(map[], calls)[ip]
  {
    hide Simulates, AfterCall, AfterPlain;
    if calls == [] {
      EmptySimulates();
    } else {
      var front, c := calls[..|calls| - 1], calls[|calls| - 1];
      RunSimulates(front);
      CallSimulates(RunSwept(map[], front), RunPlain(map[], front), if front == [] then 0 else front[|front| - 1].now, c);
      Counted(RunPlain(map[], front), c);
    }
  }

  lemma EmptySimulates()
    ensures Simulates(map[], map[], 0)
  {}

  lemma Counted(hits: Hits, c: Call)
    ensures c.ip in AfterPlain(hits, c)
  {}

  /**
   * The sweep is invisible. Over every history of requests in time order, from any addresses, each
   * request is answered exactly as by a limiter that never forgets an address.
   */
  lemma SweepChangesNothing(calls: seq<Call>, i: nat, max: nat)
    requires Monotone(calls) && i < |calls|
    ensures calls[i].ip in RunPlain(map[], calls[..i + 1])
    ensures Decision(map[], calls, i, max) <==> RunPlain(map[], calls[..i + 1])[calls[i].ip].count <= max
  {
    RunSimulates(calls[..i + 1]);
  }

  // ------------------------------------------------------------ any one minute

  predicate Within(now: nat, a: nat) {
    a <= now <= a + 60_000_000_000
  }

  /** How many requests of `ip` are let through in the closed minute from `a`. */
  function Admitted(calls: seq<Call>, ip: Ip, a: nat, max: nat): nat {
    if calls == [] then 0
    else
      var last := calls[|calls| - 1];
      Admitted(calls[..|calls| - 1], ip, a, max)
      + if last.ip == ip && Within(last.now, a) && Decision(map[], calls, |calls| - 1, max) then 1 else 0
  }

  function Standing(calls: seq<Call>, ip: Ip): Option<Window> {
    Lookup(RunPlain(map[], calls), ip)
  }

  /** The requests of `ip` in its current window, counted without bound. */
  function Load(calls: seq<Call>, ip: Ip): nat {
    if calls == [] then 0
    else
      var front, last := calls[..|calls| - 1], calls[|calls| - 1];
      if last.ip != ip then Load(front, ip)
      else if Standing(front, ip).None? || Elapsed(last.now, Standing(front, ip).value.seen) > WINDOW then 1
      else Load(front, ip) + 1
  }

  /** Some window of `ip` saw so many requests that its 32-bit counter wrapped. */
  ghost predicate Wraps(calls: seq<Call>, ip: Ip) {
    exists n :: 0 <= n <= |calls| && Load(calls[..n], ip) >= 0x1_0000_0000
  }

  lemma {:induction false} CountIsLoad(calls: seq<Call>, ip: Ip)
    ensures Standing(calls, ip).Some? ==> Standing(calls, ip).value.count == Load(calls, ip) % COUNTER
    ensures Standing(calls, ip).None? ==> Load(calls, ip) == 0
  {
    if calls != [] {
      CountIsLoad(calls[..|calls| - 1], ip);
    }
  }

  lemma FrontWraps(calls: seq<Call>, ip: Ip)
    requires calls != [] && !Wraps(calls, ip)
    ensures !Wraps(calls[..|calls| - 1], ip) && Load(calls, ip) < COUNTER
  {
    var front := calls[..|calls| - 1];
    assert calls[..|calls|] == calls;
    forall n | 0 <= n <= |front| ensures Load(front[..n], ip) < COUNTER {
      assert front[..n] == calls[..n];
    }
  }

  /** What the minute from `a` can have admitted so far, by where the address's current window began. */
  ghost predicate Bounded(w: Option<Window>, admitted: nat, a: nat, max: nat) {
    match w
    case None => admitted == 0
    case Some(Window(seen, count)) =>
      count >= 1 &&
      (if seen < a then admitted <= Heights.Least(count, max) - 1
       else if seen <= a + WINDOW then admitted <= max - 1 + Heights.Least(count, max)
       else admitted <= 2 * max - 1)
  }

  /** One more request of the address keeps the bound. */
  lemma TouchBounded(w: Option<Window>, now: nat, before: nat, admitted: nat, a: nat, max: nat)
    requires max >= 1 && Bounded(w, admitted, a, max) && before <= now
    requires w.Some? ==> w.value.seen <= before
    requires w.Some? && Elapsed(now, w.value.seen) <= WINDOW ==> w.value.count + 1 < COUNTER
    requires before < a ==> admitted == 0
    ensures var t := Touch(w, now);
      Bounded(Some(t), admitted + if Within(now, a) && t.count <= max then 1 else 0, a, max)
  {}

  lemma {:induction false} MinuteBounded(calls: seq<Call>, ip: Ip, a: nat, max: nat)
    requires Monotone(calls) && !Wraps(calls, ip) && max >= 1
    ensures Bounded(Standing(calls, ip), Admitted(calls, ip, a, max), a, max)
    ensures Standing(calls, ip).Some? ==> calls != [] && Standing(calls, ip).value.seen <= calls[|calls| - 1].now
    ensures calls != [] && calls[|calls| - 1].now < a ==> Admitted(calls, ip, a, max) == 0
  {
    hide Bounded, Decision, Wraps;
    if calls == [] {
      NothingBounded(a, max);
    } else {
      var front, c := calls[..|calls| - 1], calls[|calls| - 1];
      FrontWraps(calls, ip);
      MinuteBounded(front, ip, a, max);
      if c.ip == ip {
        SweepChangesNothing(calls, |calls| - 1, max);
        assert calls[..|calls|] == calls;
        CountIsLoad(front, ip);
        var before := if front == [] then 0 else front[|front| - 1].now;
        TouchBounded(Standing(front, ip), c.now, before, Admitted(front, ip, a, max), a, max);
      }
    }
  }

  lemma NothingBounded(a: nat, max: nat)
    ensures Bounded(None, 0, a, max)
  {}

  /**
   * The rate over any minute. However an address times its requests, and whatever the others do,
   * the closed sixty seconds from any instant see at most twice the per-window maximum, less one,
   * let through - unless one of its windows saw 2^32 requests and the counter wrapped.
   */
  lemma AtMostTwicePerMinute(calls: seq<Call>, ip: Ip, a: nat, max: nat)
    requires Monotone(calls) && max >= 1
    ensures Admitted(calls, ip, a, max) <= 2 * max - 1 || Wraps(calls, ip)
  {
    if !Wraps(calls, ip) {
      MinuteBounded(calls, ip, a, max);
    }
  }

  /** A limiter with maximum 0 lets nothing through, but for the request that wraps the counter. */
  lemma {:induction false} ZeroAdmitsNone(calls: seq<Call>, ip: Ip, a: nat)
    requires Monotone(calls)
    ensures Admitted(calls, ip, a, 0) == 0 || Wraps(calls, ip)
  {
    hide Decision, Wraps;
    if calls != [] && !Wraps(calls, ip) {
      var front, c := calls[..|calls| - 1], calls[|calls| - 1];
      FrontWraps(calls, ip);
      ZeroAdmitsNone(front, ip, a);
      SweepChangesNothing(calls, |calls| - 1, 0);
      assert calls[..|calls|] == calls;
      CountIsLoad(calls, ip);
      LoadPositive(calls);
    }
  }

  lemma LoadPositive(calls: seq<Call>)
    requires calls != []
    ensures Load(calls, calls[|calls| - 1].ip) >= 1
  {}

  // ------------------------------------------------------------- the bound is met

  function Burst(ip: Ip, now: nat, n: nat): seq<Call> {
    seq(n, i => Call(ip, now))
  }

  lemma SameWindow(calls: seq<Call>, c: Call, a: nat, max: nat)
    requires Monotone(calls + [c]) && Standing(calls, c.ip).Some? && Within(c.now, a)
    requires Elapsed(c.now, Standing(calls, c.ip).value.seen) <= WINDOW
    ensures var w := Standing(calls, c.ip).value; var count := (w.count + 1) % COUNTER;
      && Standing(calls + [c], c.ip) == Some(Window(w.seen, count))
      && Admitted(calls + [c], c.ip, a, max) == Admitted(calls, c.ip, a, max) + if count <= max then 1 else 0
  {
    hide Decision;
    var all := calls + [c];
    assert all[..|all| - 1] == calls && all[..|all|] == all;
    SweepChangesNothing(all, |all| - 1, max);
  }

  /** A burst inside a window is counted and, up to the maximum, let through. */
  lemma {:induction false} BurstCounts(calls: seq<Call>, ip: Ip, now: nat, n: nat, a: nat, max: nat)
    requires Monotone(calls) && calls != [] && calls[|calls| - 1].now <= now && Within(now, a)
    requires Standing(calls, ip).Some? && Elapsed(now, Standing(calls, ip).value.seen) <= WINDOW
    requires Standing(calls, ip).value.count + n <= max < COUNTER
    ensures var all := calls + Burst(ip, now, n); var w := Standing(calls, ip).value;
      && Monotone(all) && all[|all| - 1].now <= now && Standing(all, ip) == Some(Window(w.seen, w.count + n))
      && Admitted(all, ip, a, max) == Admitted(calls, ip, a, max) + n
  {
    hide Decision, Monotone, Standing, Admitted;
    var all := calls + Burst(ip, now, n);
    if n == 0 {
      assert all == calls;
    } else {
      BurstCounts(calls, ip, now, n - 1, a, max);
      var front := calls + Burst(ip, now, n - 1);
      assert all == front + [Call(ip, now)];
      MoreMonotone(front, Call(ip, now), now);
      SameWindow(front, Call(ip, now), a, max);
    }
  }

  /** The history that meets it: one request, the rest of its window at the last instant, and a full window right after. */
  function Worst(ip: Ip, max: nat): seq<Call>
    requires max >= 1
  {
    ([Call(ip, 0)] + Burst(ip, WINDOW, max - 1)) + [Call(ip, WINDOW + 1)] + Burst(ip, WINDOW + 1, max - 1)
  }

  lemma OneMore(calls: seq<Call>, c: Call, a: nat, max: nat)
    requires Monotone(calls + [c])
    requires Standing(calls, c.ip).None? || Elapsed(c.now, Standing(calls, c.ip).value.seen) > WINDOW
    ensures Standing(calls + [c], c.ip) == Some(Window(c.now, 1))
    ensures max >= 1 ==> Admitted(calls + [c], c.ip, a, max) == Admitted(calls, c.ip, a, max) + if Within(c.now, a) then 1 else 0
  {
    hide Decision;
    var all := calls + [c];
    assert all[..|all| - 1] == calls && all[..|all|] == all;
    SweepChangesNothing(all, |all| - 1, max);
  }

  /** Twice the maximum less one is reached: no smaller bound holds. */
  lemma BoundIsMet(ip: Ip, max: nat)
    requires 1 <= max < COUNTER
    ensures Monotone(Worst(ip, max)) && Admitted(Worst(ip, max), ip, 1, max) == 2 * max - 1
  {
    hide Decision, Admitted, Monotone;
    var one := [] + [Call(ip, 0)];
    Alone(ip, max);
    BurstCounts(one, ip, WINDOW, max - 1, 1, max);
    var two := one + Burst(ip, WINDOW, max - 1);
    MoreMonotone(two, Call(ip, WINDOW + 1), WINDOW);
    OneMore(two, Call(ip, WINDOW + 1), 1, max);
    var three := two + [Call(ip, WINDOW + 1)];
    BurstCounts(three, ip, WINDOW + 1, max - 1, 1, max);
    assert one == [Call(ip, 0)];
  }

  lemma Alone(ip: Ip, max: nat)
    ensures var one := [] + [Call(ip, 0)];
      Monotone(one) && Standing(one, ip) == Some(Window(0, 1)) && Admitted(one, ip, 1, max) == 0
  {
    hide Decision;
    OneMore([], Call(ip, 0), 1, max);
    assert ([] + [Call(ip, 0)])[..0] == [];
  }

  lemma MoreMonotone(calls: seq<Call>, c: Call, now: nat)
    requires Monotone(calls) && calls != [] && calls[|calls| - 1].now <= now <= c.now
    ensures Monotone(calls + [c])
  {
    forall i, j | 0 <= i < j < |calls + [c]| ensures (calls + [c])[i].now <= (calls + [c])[j].now {
      if j == |calls| && i < |calls| - 1 { assert calls[i].now <= calls[|calls| - 1].now; }
    }
  }

  // ------------------------------------------------------- the wrap exceeds it

  /** How many of `n` requests at one instant pass: the count runs up to 2^32, then starts again from 0. */
  function Through(n: nat, max: nat): nat {
    if n < COUNTER then Heights.Least(n, max) else max + 1 + (n - COUNTER)
  }

  lemma ThroughStep(n: nat, max: nat)
    requires 1 <= max < COUNTER && 2 <= n <= COUNTER + max
    ensures ((n - 1) % COUNTER + 1) % COUNTER == n % COUNTER
    ensures Through(n, max) == Through(n - 1, max) + if n % COUNTER <= max then 1 else 0
  {
    if n > COUNTER { assert (n - 1) % COUNTER == n - 1 - COUNTER; }
  }

  lemma {:induction false} BurstWraps(ip: Ip, n: nat, max: nat)
    requires 1 <= max < COUNTER && 1 <= n <= COUNTER + max
    ensures var calls := Burst(ip, 0, n);
      && Monotone(calls) && Standing(calls, ip) == Some(Window(0, n % COUNTER)) && Load(calls, ip) == n
      && Admitted(calls, ip, 0, max) == Through(n, max)
  {
    hide Decision, Monotone, Standing, Admitted, Load, Through;
    var calls, c := Burst(ip, 0, n), Call(ip, 0);
    if n == 1 {
      assert calls == [] + [c];
      FirstCall(ip, max);
    } else {
      var front := Burst(ip, 0, n - 1);
      BurstWraps(ip, n - 1, max);
      assert calls == front + [c];
      MoreMonotone(front, c, 0);
      SameWindow(front, c, 0, max);
      LoadMore(front, c);
      ThroughStep(n, max);
    }
  }

  lemma LoadMore(calls: seq<Call>, c: Call)
    requires Standing(calls, c.ip).Some? && Elapsed(c.now, Standing(calls, c.ip).value.seen) <= WINDOW
    ensures Load(calls + [c], c.ip) == Load(calls, c.ip) + 1
  {
    hide Standing;
    assert (calls + [c])[..|calls|] == calls;
  }

  lemma FirstCall(ip: Ip, max: nat)
    requires max >= 1
    ensures var one := [] + [Call(ip, 0)];
      && Monotone(one) && Standing(one, ip) == Some(Window(0, 1)) && Load(one, ip) == 1
      && Admitted(one, ip, 0, max) == 1 == Through(1, max)
  {
    hide Decision;
    OneMore([], Call(ip, 0), 0, max);
    assert ([] + [Call(ip, 0)])[..0] == [];
  }

  /** Why a wrap is excepted: with one, a single instant admits more than the bound of a minute. */
  lemma WrapExceedsBound(ip: Ip, max: nat)
    requires 1 <= max < COUNTER
    ensures var calls := Burst(ip, 0, COUNTER + max);
      Monotone(calls) && Wraps(calls, ip) && Admitted(calls, ip, 0, max) == 2 * max + 1
  {
    hide Decision, Monotone, Admitted, Load;
    var calls := Burst(ip, 0, COUNTER + max);
    BurstWraps(ip, COUNTER + max, max);
    assert calls[..|calls|] == calls && Load(calls[..|calls|], ip) >= COUNTER;
  }
}

/**
 * The fixed-window rate limiter for one key prefix, limit and window length, with the clock
 * reading, INCR and EXPIRE of many calls interleaved.  Calls are assumed to reach INCR within
 * one window length of their clock reading; EXPIRE may come late or never.
 */
module RateLimit {
  import opened Prelude
  import opened Redis

  datatype Request =
    | Stamped(at: real)                 // has read the clock
    | Counted(at: real, count: nat)     // INCR has answered; EXPIRE follows if count is 1
    | Finished(at: real, count: nat)

  /** One INCR: the window and clock reading of its request, and Redis's answer. */
  datatype Entry = Entry(window: int, at: real, count: nat)

  datatype Limiter = Limiter(
    prefix: string,
    limit: int,
    window: int,
    now: real,
    counters: map<(string, int), Counter>,
    requests: map<nat, Request>,
    log: seq<Entry>)

  datatype Event =
    | Tick(elapsed: real)
    | Arrive(i: nat)
    | CallIncr(i: nat)
    | CallExpire(i: nat)

  function Init(prefix: string, limit: int, window: int, now: real): Limiter {
    Limiter(prefix, limit, window, now, map[], map[], [])
  }

  function WindowOf(t: real, window: int): int
    requires window > 0
  {
    t.Floor / window
  }

  function IncrStep(s: Limiter, i: nat, at: real): Limiter
    requires s.window > 0
  {
    var w := WindowOf(at, s.window);
    var c := Incremented(s.counters, (s.prefix, w), s.now);
    s.(counters := s.counters[(s.prefix, w) := c],
       requests := s.requests[i := Counted(at, c.count)],
       log := s.log + [Entry(w, at, c.count)])
  }

  function ExpireStep(s: Limiter, i: nat, at: real, count: nat): Limiter
    requires s.window > 0
  {
    var key := (s.prefix, WindowOf(at, s.window));
    var s1 := s.(requests := s.requests[i := Finished(at, count)]);
    if count == 1 && CounterAlive(s.counters, key, s.now) then
      s1.(counters := s.counters[key := s.counters[key].(dies := Some(s.now + (2 * s.window) as real))])
    else s1
  }

  function Step(s: Limiter, e: Event): Limiter
    requires s.window > 0
  {
    match e
    case Tick(elapsed) => if elapsed >= 0.0 then s.(now := s.now + elapsed) else s
    case Arrive(i) => if i in s.requests then s else s.(requests := s.requests[i := Stamped(s.now)])
    case CallIncr(i) =>
      if i in s.requests && s.requests[i].Stamped? && s.now < s.requests[i].at + s.window as real then
        IncrStep(s, i, s.requests[i].at)
      else s
    case CallExpire(i) =>
      if i in s.requests && s.requests[i].Counted? then
        ExpireStep(s, i, s.requests[i].at, s.requests[i].count)
      else s
  }

  function Exec(s: Limiter, events: seq<Event>): (t: Limiter)
    requires s.window > 0
    ensures t.window == s.window && t.limit == s.limit && t.prefix == s.prefix
  {
    if events == [] then s else Step(Exec(s, events[..|events| - 1]), events[|events| - 1])
  }

  // ---- Counting entries -------------------------------------------------------------------

  ghost function InWindow(w: int): Entry -> bool {
    (e: Entry) => e.window == w
  }

  ghost function AllowedIn(w: int, limit: int): Entry -> bool {
    (e: Entry) => e.window == w && e.count <= limit
  }

  /** Allowed, with a window among the n from lo on. */
  ghost function AllowedRange(lo: int, n: nat, limit: int): Entry -> bool {
    (e: Entry) => lo <= e.window < lo + n && e.count <= limit
  }

  /** Allowed, and stamped in the half-open span of the given length. */
  ghost function AllowedSpan(a: real, length: real, limit: int): Entry -> bool {
    (e: Entry) => a <= e.at < a + length && e.count <= limit
  }

  /** Each INCR of a window answered one more than the number before it. */
  ghost predicate Numbered(log: seq<Entry>) {
    log == [] ||
      var n := |log| - 1;
      Numbered(log[..n]) && log[n].count == Count(InWindow(log[n].window), log[..n]) + 1
  }

  ghost function Min(a: int, b: int): int { if a < b then a else b }

  ghost function AtLeast0(a: int): nat { if a < 0 then 0 else a }

  lemma {:induction false} AllowedInWindow(log: seq<Entry>, w: int, limit: int)
    requires Numbered(log)
    ensures Count(AllowedIn(w, limit), log) == Min(Count(InWindow(w), log), AtLeast0(limit))
  {
    if log != [] {
      AllowedInWindow(log[..|log| - 1], w, limit);
    }
  }

  lemma {:induction false} CountMonotone(p: Entry -> bool, q: Entry -> bool, log: seq<Entry>)
    requires forall i :: 0 <= i < |log| && p(log[i]) ==> q(log[i])
    ensures Count(p, log) <= Count(q, log)
  {
    if log != [] {
      CountMonotone(p, q, log[..|log| - 1]);
    }
  }

  lemma {:induction false} RangeSplits(log: seq<Entry>, lo: int, n: nat, limit: int)
    ensures Count(AllowedRange(lo, n + 1, limit), log)
         == Count(AllowedRange(lo, n, limit), log) + Count(AllowedIn(lo + n, limit), log)
  {
    if log != [] {
      RangeSplits(log[..|log| - 1], lo, n, limit);
    }
  }

  lemma {:induction false} RangeBound(log: seq<Entry>, lo: int, n: nat, limit: int)
    requires Numbered(log)
    ensures Count(AllowedRange(lo, n, limit), log) <= n * AtLeast0(limit)
  {
    if n == 0 {
      CountNone(AllowedRange(lo, 0, limit), log);
    } else {
      RangeBound(log, lo, n - 1, limit);
      RangeSplits(log, lo, n - 1, limit);
      AllowedInWindow(log, lo + n - 1, limit);
      assert n * AtLeast0(limit) == (n - 1) * AtLeast0(limit) + AtLeast0(limit);
    }
  }

  // ---- The invariant ----------------------------------------------------------------------

  ghost predicate Stamps(s: Limiter)
    requires s.window > 0
  {
    && (forall i :: i in s.requests ==> s.requests[i].at <= s.now)
    && (forall k :: 0 <= k < |s.log| ==> s.log[k].window == WindowOf(s.log[k].at, s.window))
  }

  ghost function EndOfGrace(w: int, window: int): real {
    ((w + 2) * window) as real
  }

  /** The counter of a window is the number of its INCRs, and outlives every request stamped in it. */
  ghost predicate CounterRight(s: Limiter, w: int) {
    var key := (s.prefix, w);
    if key in s.counters then
      && s.counters[key].count == Count(InWindow(w), s.log)
      && (s.counters[key].dies.Some? ==> EndOfGrace(w, s.window) <= s.counters[key].dies.value)
    else Count(InWindow(w), s.log) == 0
  }

  ghost predicate Inv(s: Limiter)
    requires s.window > 0
  {
    Stamps(s) && Numbered(s.log) && forall w :: CounterRight(s, w)
  }

  /** A window is as long as it should be. */
  lemma WindowSpan(t: real, window: int)
    requires window > 0
    ensures var w := WindowOf(t, window);
            (w * window) as real <= t < ((w + 1) * window) as real
  {
    var w := WindowOf(t, window);
    assert w * window <= t.Floor < (w + 1) * window;
    assert t < t.Floor as real + 1.0;
  }

  /** The counter never expires before the requests of its window are counted. */
  lemma NotExpired(s: Limiter, at: real)
    requires s.window > 0 && Inv(s) && at <= s.now < at + s.window as real
    ensures var key := (s.prefix, WindowOf(at, s.window));
            key in s.counters ==> CounterAlive(s.counters, key, s.now)
  {
    var w := WindowOf(at, s.window);
    WindowSpan(at, s.window);
    assert (w + 2) * s.window == (w + 1) * s.window + s.window;
    assert CounterRight(s, w);
  }

  lemma IncrKeepsInv(s: Limiter, i: nat)
    requires s.window > 0 && Inv(s) && i in s.requests && s.requests[i].Stamped?
    requires s.now < s.requests[i].at + s.window as real
    ensures Inv(IncrStep(s, i, s.requests[i].at))
  {
    var at := s.requests[i].at;
    var t := IncrStep(s, i, at);
    var w := WindowOf(at, s.window);
    NotExpired(s, at);
    assert CounterRight(s, w);
    var last := t.log[|s.log|];
    assert t.log[..|s.log|] == s.log;
    forall v ensures CounterRight(t, v) {
      assert CounterRight(s, v);
      CountSnoc(InWindow(v), s.log, last);
    }
  }

  lemma ExpireKeepsInv(s: Limiter, i: nat)
    requires s.window > 0 && Inv(s) && i in s.requests && s.requests[i].Counted?
    ensures Inv(ExpireStep(s, i, s.requests[i].at, s.requests[i].count))
  {
    var at := s.requests[i].at;
    var t := ExpireStep(s, i, at, s.requests[i].count);
    var w := WindowOf(at, s.window);
    WindowSpan(at, s.window);
    assert (w + 2) * s.window == w * s.window + 2 * s.window;
    forall v ensures CounterRight(t, v) {
      assert CounterRight(s, v);
    }
  }

  lemma StepKeepsInv(s: Limiter, e: Event)
    requires s.window > 0 && Inv(s)
    ensures Inv(Step(s, e))
  {
    var t := Step(s, e);
    match e {
      case CallIncr(i) => if t != s { IncrKeepsInv(s, i); }
      case CallExpire(i) => if t != s { ExpireKeepsInv(s, i); }
      case _ =>
        forall v ensures CounterRight(t, v) {
          assert CounterRight(s, v);
        }
    }
  }

  lemma {:induction false} RunKeepsInv(s: Limiter, es: seq<Event>)
    requires s.window > 0 && Inv(s)
    ensures Inv(Exec(s, es))
  {
    if es != [] {
      RunKeepsInv(s, es[..|es| - 1]);
      StepKeepsInv(Exec(s, es[..|es| - 1]), es[|es| - 1]);
    }
  }

  // ---- Main results -----------------------------------------------------------------------

  /** Of the n requests counted in any one window exactly min(n, limit) are allowed. */
  lemma {:induction false} ExactPerWindow(prefix: string, limit: int, window: int, start: real, es: seq<Event>, w: int)
    requires window > 0
    ensures var s := Exec(Init(prefix, limit, window, start), es);
            Count(AllowedIn(w, limit), s.log) == Min(Count(InWindow(w), s.log), AtLeast0(limit))
  {
    RunKeepsInv(Init(prefix, limit, window, start), es);
    AllowedInWindow(Exec(Init(prefix, limit, window, start), es).log, w, limit);
  }

  /** No span of k windows' length admits more than (k + 1) times the limit, wherever it begins. */
  lemma {:induction false} SpanBound(
    prefix: string, limit: int, window: int, start: real, es: seq<Event>, a: real, k: nat)
    requires window > 0
    ensures var s := Exec(Init(prefix, limit, window, start), es);
            Count(AllowedSpan(a, (k * window) as real, limit), s.log) <= (k + 1) * AtLeast0(limit)
  {
    RunKeepsInv(Init(prefix, limit, window, start), es);
    var s := Exec(Init(prefix, limit, window, start), es);
    var lo := WindowOf(a, window);
    forall i | 0 <= i < |s.log| && AllowedSpan(a, (k * window) as real, limit)(s.log[i])
      ensures AllowedRange(lo, k + 1, limit)(s.log[i])
    {
      SpanWindows(a, k, window, s.log[i].at);
    }
    CountMonotone(AllowedSpan(a, (k * window) as real, limit), AllowedRange(lo, k + 1, limit), s.log);
    RangeBound(s.log, lo, k + 1, limit);
  }

  lemma SpanWindows(a: real, k: nat, window: int, t: real)
    requires window > 0 && a <= t < a + (k * window) as real
    ensures WindowOf(a, window) <= WindowOf(t, window) <= WindowOf(a, window) + k
  {
    var lo, w := WindowOf(a, window), WindowOf(t, window);
    WindowSpan(a, window);
    WindowSpan(t, window);
    assert lo < w + 1 by {
      if w + 1 <= lo { MulMonotone(w + 1, lo, window); }
    }
    assert (lo + 1) * window + k * window == (lo + 1 + k) * window;
    assert w < lo + 1 + k by {
      if lo + 1 + k <= w { MulMonotone(lo + 1 + k, w, window); }
    }
  }

  lemma MulMonotone(x: int, y: int, m: int)
    requires x <= y && m > 0
    ensures x * m <= y * m
  {
  }

  // ---- The bound is attained --------------------------------------------------------------

  ghost predicate Reachable(s: Limiter) {
    s.window > 0 && exists es :: s == Exec(Init(s.prefix, s.limit, s.window, 0.0), es)
  }

  lemma ReachableStep(s: Limiter, e: Event) returns (t: Limiter)
    requires Reachable(s)
    ensures t == Step(s, e) && Reachable(t)
  {
    var start := Init(s.prefix, s.limit, s.window, 0.0);
    var es :| s == Exec(start, es);
    assert (es + [e])[..|es|] == es;
    t := Exec(start, es + [e]);
  }

  lemma ReachableInv(s: Limiter)
    requires Reachable(s)
    ensures Inv(s)
  {
    var es :| s == Exec(Init(s.prefix, s.limit, s.window, 0.0), es);
    RunKeepsInv(Init(s.prefix, s.limit, s.window, 0.0), es);
  }

  ghost predicate Unnumbered(s: Limiter, i: nat) {
    forall j :: j in s.requests ==> j < i
  }

  /** Same configuration, one clock reading. */
  ghost predicate SameClock(s: Limiter, t: Limiter) {
    t.prefix == s.prefix && t.limit == s.limit && t.window == s.window && t.now == s.now
  }

  lemma Serve(s: Limiter, i: nat) returns (t: Limiter)
    requires Reachable(s) && Unnumbered(s, i)
    ensures Reachable(t) && SameClock(s, t) && Unnumbered(t, i + 1)
    ensures var w := WindowOf(s.now, s.window);
            t.log == s.log + [Entry(w, s.now, Count(InWindow(w), s.log) + 1)]
  {
    t := ReachableStep(s, Arrive(i));
    var s1 := t;
    t := ReachableStep(t, CallIncr(i));
    ReachableInv(t);
    assert t.log[..|s.log|] == s.log;
    assert t.log == s1.log + [t.log[|s.log|]];
  }

  /** n requests at one instant, within the limit of their window, are all allowed. */
  lemma {:induction false} Burst(s: Limiter, i: nat, n: nat, a: real, length: real) returns (t: Limiter)
    requires Reachable(s) && Unnumbered(s, i) && a <= s.now < a + length
    requires Count(InWindow(WindowOf(s.now, s.window)), s.log) + n <= s.limit
    ensures Reachable(t) && SameClock(s, t) && Unnumbered(t, i + n)
    ensures Count(AllowedSpan(a, length, s.limit), t.log) == Count(AllowedSpan(a, length, s.limit), s.log) + n
    ensures forall v :: Count(InWindow(v), t.log)
                     == Count(InWindow(v), s.log) + if v == WindowOf(s.now, s.window) then n else 0
    decreases n
  {
    if n == 0 {
      t := s;
    } else {
      var w := WindowOf(s.now, s.window);
      var s1 := Serve(s, i);
      var last := Entry(w, s.now, Count(InWindow(w), s.log) + 1);
      CountSnoc(AllowedSpan(a, length, s.limit), s.log, last);
      forall v ensures Count(InWindow(v), s1.log) == Count(InWindow(v), s.log) + if v == w then 1 else 0 {
        CountSnoc(InWindow(v), s.log, last);
      }
      t := Burst(s1, i + 1, n - 1, a, length);
    }
  }

  /** Which window an instant is in is settled by the window's two ends. */
  lemma WindowIs(t: real, w: int, window: int)
    requires window > 0 && w * window <= t.Floor < w * window + window
    ensures WindowOf(t, window) == w
  {
    var q := t.Floor / window;
    assert q * window <= t.Floor < q * window + window;
    if q < w { MulMonotone(q + 1, w, window); }
    if q > w { MulMonotone(w + 1, q, window); }
  }

  /** Half a second before the second window begins, and then the start of every later window. */
  ghost function BurstTime(j: nat, window: int): real {
    if j == 0 then window as real - 0.5 else (j * window) as real
  }

  lemma BurstWindow(j: nat, window: int)
    requires window > 0
    ensures WindowOf(BurstTime(j, window), window) == j
  {
    if j == 0 { assert BurstTime(0, window).Floor == window - 1; }
    else { assert BurstTime(j, window).Floor == j * window; }
    WindowIs(BurstTime(j, window), j, window);
  }

  lemma BurstIsInSpan(j: nat, k: nat, window: int)
    requires window > 0 && 1 <= k && j <= k
    ensures BurstTime(0, window) <= BurstTime(j, window) < BurstTime(0, window) + (k * window) as real
    ensures j > 0 ==> BurstTime(j, window) - BurstTime(j - 1, window) >= 0.0
  {
    MulMonotone(j, k, window);
    MulMonotone(1, k, window);
    var x, y := j * window, k * window;
    assert window <= y && x <= y;
    assert x as real <= y as real;
    if j > 0 {
      MulMonotone(1, j, window);
      assert x == (j - 1) * window + window;
    }
  }

  /** Bursts of `limit` requests at the first j + 1 burst times, all allowed. */
  lemma {:induction false} Bursts(prefix: string, limit: nat, window: int, k: nat, j: nat) returns (t: Limiter)
    requires window > 0 && 1 <= k && j <= k
    ensures Reachable(t) && SameClock(Init(prefix, limit, window, BurstTime(j, window)), t)
    ensures Unnumbered(t, (j + 1) * limit)
    ensures forall v :: v > j ==> Count(InWindow(v), t.log) == 0
    ensures Count(AllowedSpan(BurstTime(0, window), (k * window) as real, limit), t.log) == (j + 1) * limit
    decreases j
  {
    var a, length := BurstTime(0, window), (k * window) as real;
    BurstWindow(j, window);
    BurstIsInSpan(j, k, window);
    if j == 0 {
      var start := Init(prefix, limit, window, 0.0);
      assert start == Exec(start, []);
      t := ReachableStep(start, Tick(a));
      t := Burst(t, 0, limit, a, length);
    } else {
      t := Bursts(prefix, limit, window, k, j - 1);
      t := ReachableStep(t, Tick(BurstTime(j, window) - BurstTime(j - 1, window)));
      t := Burst(t, j * limit, limit, a, length);
      assert (j + 1) * limit == j * limit + limit;
    }
  }

  /** In this run (k + 1) * limit requests stamped in the span from `a` of k windows' length were allowed. */
  ghost predicate Admits(s: Limiter, a: real, prefix: string, limit: int, window: int, k: nat) {
    && Reachable(s) && s.prefix == prefix && s.limit == limit && s.window == window
    && Count(AllowedSpan(a, (k * window) as real, limit), s.log) == (k + 1) * limit
  }

  /** For every limit, window and k >= 1 some span of k windows' length does admit (k + 1) times the limit. */
  lemma SpanBoundIsAttained(prefix: string, limit: nat, window: int, k: nat)
    requires window > 0 && k >= 1
    ensures exists s, a :: Admits(s, a, prefix, limit, window, k)
  {
    var s := Bursts(prefix, limit, window, k, k);
    assert Admits(s, BurstTime(0, window), prefix, limit, window, k);
  }
}

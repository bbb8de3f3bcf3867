/** What the router believes about one worker: the rolling windows, ejection,
    backoff and probing of internal/router/router.go. Times are in seconds. */
module Health {

  const WINDOW_SIZE := 50
  const EJECT_SECONDS := 10.0
  const MAX_EJECT_SECONDS := 120.0
  const GRAY_FAILURE_MULTIPLE := 3.0
  const MIN_LATENCY_SAMPLES := 20

  datatype Status = Healthy | Degraded | Ejected

  datatype State = State(outcomes: seq<bool>, latencies: seq<real>, status: Status,
                         ejectAt: real, probing: bool, backoff: real, draining: bool)

  const NewWorker := State([], [], Healthy, 0.0, false, EJECT_SECONDS, false)

  // ---- nearest-rank p95 ----

  function Insert(x: real, xs: seq<real>): seq<real> {
    if xs == [] || x <= xs[0] then [x] + xs else [xs[0]] + Insert(x, xs[1..])
  }

  function Sort(xs: seq<real>): seq<real> {
    if xs == [] then [] else Insert(xs[0], Sort(xs[1..]))
  }

  predicate Sorted(xs: seq<real>) {
    |xs| <= 1 || (xs[0] <= xs[1] && Sorted(xs[1..]))
  }

  /** int(0.95 * n), which never reaches n. */
  function P95Index(n: nat): nat { 95 * n / 100 }

  function P95(d: seq<real>): real {
    if d == [] then 0.0
    else
      SortKeeps(d);
      Sort(d)[P95Index(|d|)]
  }

  lemma {:induction false} InsertKeeps(x: real, xs: seq<real>)
    ensures multiset(Insert(x, xs)) == multiset{x} + multiset(xs)
    ensures |Insert(x, xs)| == |xs| + 1
  {
    if xs == [] || x <= xs[0] {
      assert multiset([x] + xs) == multiset{x} + multiset(xs);
    } else {
      InsertKeeps(x, xs[1..]);
      assert xs == [xs[0]] + xs[1..];
    }
  }

  lemma {:induction false} SortKeeps(xs: seq<real>)
    ensures multiset(Sort(xs)) == multiset(xs) && |Sort(xs)| == |xs|
  {
    if xs != [] {
      SortKeeps(xs[1..]);
      InsertKeeps(xs[0], Sort(xs[1..]));
      assert xs == [xs[0]] + xs[1..];
    }
  }

  lemma {:induction false} InsertSorted(x: real, xs: seq<real>)
    requires Sorted(xs)
    ensures Sorted(Insert(x, xs))
    ensures Insert(x, xs)[0] == if xs == [] || x <= xs[0] then x else xs[0]
  {
    if xs == [] || x <= xs[0] {
      assert ([x] + xs)[1..] == xs;
    } else {
      InsertSorted(x, xs[1..]);
      assert ([xs[0]] + Insert(x, xs[1..]))[1..] == Insert(x, xs[1..]);
    }
  }

  lemma {:induction false} SortSorted(xs: seq<real>)
    ensures Sorted(Sort(xs))
  {
    if xs != [] {
      SortSorted(xs[1..]);
      InsertSorted(xs[0], Sort(xs[1..]));
    }
  }

  function CountAbove(d: seq<real>, x: real): nat {
    if d == [] then 0 else (if d[0] > x then 1 else 0) + CountAbove(d[1..], x)
  }

  lemma {:induction false} InsertCounts(y: real, xs: seq<real>, x: real)
    ensures CountAbove(Insert(y, xs), x) == (if y > x then 1 else 0) + CountAbove(xs, x)
  {
    if xs == [] || y <= xs[0] {
      assert ([y] + xs)[1..] == xs;
    } else {
      InsertCounts(y, xs[1..], x);
      assert ([xs[0]] + Insert(y, xs[1..]))[1..] == Insert(y, xs[1..]);
    }
  }

  lemma {:induction false} SortCounts(d: seq<real>, x: real)
    ensures CountAbove(Sort(d), x) == CountAbove(d, x)
  {
    if d != [] {
      SortCounts(d[1..], x);
      InsertCounts(d[0], Sort(d[1..]), x);
    }
  }

  lemma {:induction false} CountInSorted(s: seq<real>, i: nat)
    requires Sorted(s) && i < |s|
    ensures CountAbove(s, s[i]) <= |s| - 1 - i
  {
    if i == 0 {
      CountAtMost(s[1..], s[0]);
    } else {
      HeadSmallest(s, i);
      CountInSorted(s[1..], i - 1);
    }
  }

  lemma {:induction false} HeadSmallest(s: seq<real>, i: nat)
    requires Sorted(s) && i < |s|
    ensures s[0] <= s[i]
  {
    if i > 0 {
      HeadSmallest(s[1..], i - 1);
    }
  }

  lemma {:induction false} CountAtMost(s: seq<real>, x: real)
    ensures CountAbove(s, x) <= |s|
  {
    if s != [] {
      CountAtMost(s[1..], x);
    }
  }

  /** P95 is one of the samples, with at most the top 5% above it. */
  lemma P95Rank(d: seq<real>)
    requires d != []
    ensures P95(d) in d
    ensures CountAbove(d, P95(d)) <= |d| - 1 - P95Index(|d|)
  {
    SortKeeps(d);
    SortSorted(d);
    CountInSorted(Sort(d), P95Index(|d|));
    SortCounts(d, P95(d));
    assert P95(d) in multiset(Sort(d));
  }

  /** The nearest-rank index is still the maximum at 20 samples and first stops
      being it at 21. */
  lemma P95IsMaximum(n: nat)
    requires n > 0
    ensures P95Index(n) == n - 1 <==> n <= 20
  {
  }

  /** So at exactly MIN_LATENCY_SAMPLES a worker is judged by its slowest call. */
  lemma JudgedBySlowest(d: seq<real>, i: nat)
    requires |d| == MIN_LATENCY_SAMPLES && i < |d|
    ensures d[i] <= P95(d)
  {
    P95Rank(d);
    NoneAbove(d, P95(d), i);
  }

  lemma {:induction false} NoneAbove(d: seq<real>, x: real, i: nat)
    requires CountAbove(d, x) == 0 && i < |d|
    ensures d[i] <= x
  {
    if i > 0 {
      NoneAbove(d[1..], x, i - 1);
    }
  }

  // ---- transitions ----

  function Slide<T>(window: seq<T>, x: T): seq<T> {
    var w := window + [x];
    if |w| > WINDOW_SIZE then w[1..] else w
  }

  function Failures(outcomes: seq<bool>): nat {
    if outcomes == [] then 0
    else Failures(outcomes[..|outcomes|-1]) + if outcomes[|outcomes|-1] then 0 else 1
  }

  function Eject(s: State, now: real): State {
    s.(status := Ejected, ejectAt := now + s.backoff, probing := false)
  }

  function ProbeFailed(s: State, now: real): State {
    var b := if s.backoff * 2.0 > MAX_EJECT_SECONDS then MAX_EJECT_SECONDS else s.backoff * 2.0;
    s.(probing := false, backoff := b, ejectAt := now + b)
  }

  function ProbeSucceeded(s: State): State {
    s.(probing := false, status := Healthy, backoff := EJECT_SECONDS, outcomes := [], latencies := [])
  }

  /** The verdict on a worker that is not ejected, from its updated windows. */
  function Judge(s: State, peerP95: real, now: real): State {
    var fails, n := Failures(s.outcomes), |s.outcomes|;
    if 2 * fails > n then Eject(s, now)
    else if |s.latencies| >= MIN_LATENCY_SAMPLES && peerP95 > 0.0
            && P95(s.latencies) > GRAY_FAILURE_MULTIPLE * peerP95 then Eject(s, now)
    else if 10 * fails > n then s.(status := Degraded)
    else s.(status := Healthy)
  }

  function Record(s: State, ok: bool, latency: real): State {
    s.(outcomes := Slide(s.outcomes, ok),
       latencies := if latency > 0.0 then Slide(s.latencies, latency) else s.latencies)
  }

  function Report(s: State, ok: bool, latency: real, peerP95: real, now: real): State {
    if s.status == Ejected && s.probing then
      if ok then ProbeSucceeded(s) else ProbeFailed(s, now)
    else if s.status == Ejected then s
    else Judge(Record(s, ok, latency), peerP95, now)
  }

  function BeginProbe(s: State): State {
    if s.status == Ejected then s.(probing := true) else s
  }

  function MarkUnhealthy(s: State, now: real): State {
    if s.status != Ejected then Eject(s, now) else s
  }

  predicate Eligible(s: State, now: real) {
    !s.draining && (s.status == Ejected ==> !s.probing && now > s.ejectAt)
  }

  predicate DueForProbe(s: State, now: real) {
    !s.draining && s.status == Ejected && !s.probing && now > s.ejectAt
  }

  // ---- every run ----

  datatype Op =
    | Outcome(ok: bool, latency: real, peerP95: real, at: real)
    | Chosen
    | Unreachable(at: real)
    | Drain(on: bool)

  function Apply(s: State, op: Op): State {
    match op
    case Outcome(ok, latency, peer, at) => Report(s, ok, latency, peer, at)
    case Chosen => BeginProbe(s)
    case Unreachable(at) => MarkUnhealthy(s, at)
    case Drain(on) => s.(draining := on)
  }

  function Run(ops: seq<Op>): State {
    if ops == [] then NewWorker else Apply(Run(ops[..|ops|-1]), ops[|ops|-1])
  }

  function Undrained(ops: seq<Op>): seq<Op> {
    if ops == [] then []
    else Undrained(ops[..|ops|-1]) + if ops[|ops|-1].Drain? then [] else [ops[|ops|-1]]
  }

  /** Draining is an operator's decision and no health signal: over any run, all but the
      flag is as if nobody had ever touched it. */
  lemma {:induction false} DrainIsNoSignal(ops: seq<Op>)
    ensures Run(ops).(draining := false) == Run(Undrained(ops))
  {
    if ops != [] {
      var init, op := ops[..|ops|-1], ops[|ops|-1];
      DrainIsNoSignal(init);
      if !op.Drain? {
        assert (Undrained(init) + [op])[..|Undrained(init)|] == Undrained(init);
        DrainApart(Run(init), op);
      } else {
        assert Undrained(init) + [] == Undrained(init);
      }
    }
  }

  lemma DrainApart(s: State, op: Op)
    requires !op.Drain?
    ensures Apply(s, op).(draining := false) == Apply(s.(draining := false), op)
  {
    hide Judge, Slide;
    if op.Outcome? {
      JudgedApart(Record(s, op.ok, op.latency), op.peerP95, op.at);
    }
  }

  lemma JudgedApart(s: State, peerP95: real, now: real)
    ensures Judge(s, peerP95, now).(draining := false) == Judge(s.(draining := false), peerP95, now)
  {
    hide P95, Failures;
  }

  /** What an observer would write down: the outcomes accepted, and the failed
      probes, since the last successful probe. */
  datatype History = History(outcomes: seq<bool>, latencies: seq<real>, failedProbes: nat)

  function Observe(s: State, h: History, op: Op): History {
    if !op.Outcome? then h
    else if s.status != Ejected then
      h.(outcomes := h.outcomes + [op.ok],
         latencies := if op.latency > 0.0 then h.latencies + [op.latency] else h.latencies)
    else if !s.probing then h
    else if op.ok then History([], [], 0)
    else h.(failedProbes := h.failedProbes + 1)
  }

  function Observed(ops: seq<Op>): History {
    if ops == [] then History([], [], 0)
    else Observe(Run(ops[..|ops|-1]), Observed(ops[..|ops|-1]), ops[|ops|-1])
  }

  function Latest<T>(xs: seq<T>): seq<T> {
    if |xs| <= WINDOW_SIZE then xs else xs[|xs| - WINDOW_SIZE..]
  }

  function Doubled(n: nat): real {
    if n == 0 then EJECT_SECONDS else 2.0 * Doubled(n - 1)
  }

  /** Ten seconds doubled per failed probe, capped at two minutes. */
  function Backoff(failedProbes: nat): real {
    if Doubled(failedProbes) < MAX_EJECT_SECONDS then Doubled(failedProbes) else MAX_EJECT_SECONDS
  }

  lemma {:induction false} DoubledGrows(n: nat)
    ensures Doubled(n) >= EJECT_SECONDS
  {
    if n > 0 {
      DoubledGrows(n - 1);
    }
  }

  lemma BackoffStep(n: nat)
    ensures Backoff(n + 1) ==
            if Backoff(n) * 2.0 > MAX_EJECT_SECONDS then MAX_EJECT_SECONDS else Backoff(n) * 2.0
  {
    DoubledGrows(n);
  }

  lemma SlideIsLatest<T>(xs: seq<T>, x: T)
    ensures Slide(Latest(xs), x) == Latest(xs + [x])
  {
  }

  ghost predicate Explains(h: History, s: State) {
    && (s.probing ==> s.status == Ejected)
    && s.outcomes == Latest(h.outcomes)
    && s.latencies == Latest(h.latencies)
    && s.backoff == Backoff(h.failedProbes)
  }

  lemma ExplainsStep(h: History, s: State, op: Op)
    requires Explains(h, s)
    ensures Explains(Observe(s, h, op), Apply(s, op))
  {
    hide P95, Failures;
    BackoffStep(h.failedProbes);
    if op.Outcome? {
      SlideIsLatest(h.outcomes, op.ok);
      SlideIsLatest(h.latencies, op.latency);
    }
  }

  /** Over every run: only an ejected worker is being probed; the windows are
      the latest 50 accepted samples, and the backoff counts the failed probes,
      since the last successful probe. */
  lemma {:induction false} HealthHistory(ops: seq<Op>)
    ensures Explains(Observed(ops), Run(ops))
  {
    if ops == [] {
      assert Doubled(0) == EJECT_SECONDS;
    } else {
      hide Explains, Apply, Observe;
      HealthHistory(ops[..|ops|-1]);
      ExplainsStep(Observed(ops[..|ops|-1]), Run(ops[..|ops|-1]), ops[|ops|-1]);
    }
  }
}

/** Worker selection: internal/router/router.go. */
module Router {
  import opened Wrappers
  import Bucket
  import Health

  const ONLINE := "online"
  const UNOBSERVED_LATENCY := 0.001

  class Worker {
    const id: string
    const key: string                 // compatibility key
    const streaming: bool
    const serializable: bool
    const modes: seq<string>
    const bucket: Bucket.RateBucket
    var outstanding: int
    var outcomes: seq<bool>
    var latencies: seq<real>
    var status: Health.Status
    var ejectAt: real
    var probing: bool
    var backoff: real
    var draining: bool

    ghost function View(): Health.State
      reads this
    {
      Health.State(outcomes, latencies, status, ejectAt, probing, backoff, draining)
    }

    constructor (id: string, key: string, streaming: bool, serializable: bool, modes: seq<string>, now: real)
      ensures this.id == id && this.key == key && this.modes == modes
      ensures this.streaming == streaming && this.serializable == serializable
      ensures View() == Health.NewWorker && outstanding == 0
      ensures fresh(bucket) && bucket.owner == id && Bucket.Sound(bucket.View())
    {
      this.id, this.key, this.modes := id, key, modes;
      this.streaming, this.serializable := streaming, serializable;
      bucket := new Bucket.RateBucket(Bucket.DEFAULT_LIMIT, Bucket.DEFAULT_HEADROOM, now, id);
      outstanding := 0;
      outcomes, latencies, status := [], [], Health.Healthy;
      ejectAt, probing, backoff, draining := 0.0, false, Health.EJECT_SECONDS, false;
    }

    method BindSession()
      modifies this`outstanding
      ensures outstanding == old(outstanding) + 1
    {
      outstanding := outstanding + 1;
    }

    method UnbindSession()
      modifies this`outstanding
      ensures outstanding == old(outstanding) - 1
    {
      outstanding := outstanding - 1;
    }

    method SetDraining(on: bool)
      modifies this`draining
      ensures View() == Health.Apply(old(View()), Health.Drain(on))
    {
      draining := on;
    }

    method EligibleAt(now: real) returns (ok: bool)
      ensures ok == Health.Eligible(View(), now)
    {
      if draining {
        return false;
      }
      match status
      case Healthy => ok := true;
      case Degraded => ok := true;
      case Ejected => ok := !probing && now > ejectAt;
    }

    method DueForProbeAt(now: real) returns (ok: bool)
      ensures ok == Health.DueForProbe(View(), now)
    {
      if draining {
        return false;
      }
      ok := status == Health.Ejected && !probing && now > ejectAt;
    }

    method BeginProbe()
      modifies this`probing
      ensures View() == Health.BeginProbe(old(View()))
    {
      if status == Health.Ejected {
        probing := true;
      }
    }

    method EjectAt(now: real)
      modifies this`status, this`ejectAt, this`probing
      ensures View() == Health.Eject(old(View()), now)
    {
      status := Health.Ejected;
      ejectAt := now + backoff;
      probing := false;
    }

    method CountFailures() returns (fails: nat)
      ensures fails == Health.Failures(outcomes)
    {
      fails := 0;
      for i := 0 to |outcomes|
        invariant fails == Health.Failures(outcomes[..i])
      {
        assert outcomes[..i+1][..i] == outcomes[..i];
        if !outcomes[i] {
          fails := fails + 1;
        }
      }
      assert outcomes[..|outcomes|] == outcomes;
    }

    method SettleProbe(ok: bool, now: real)
      modifies this`outcomes, this`latencies, this`status, this`ejectAt, this`probing, this`backoff
      ensures View() == if ok then Health.ProbeSucceeded(old(View())) else Health.ProbeFailed(old(View()), now)
    {
      probing := false;
      if ok {
        status, backoff, outcomes, latencies := Health.Healthy, Health.EJECT_SECONDS, [], [];
      } else {
        backoff := backoff * 2.0;
        if backoff > Health.MAX_EJECT_SECONDS {
          backoff := Health.MAX_EJECT_SECONDS;
        }
        ejectAt := now + backoff;
      }
    }

    method Observe(ok: bool, latency: real)
      modifies this`outcomes, this`latencies
      ensures View() == Health.Record(old(View()), ok, latency)
    {
      outcomes := outcomes + [ok];
      if |outcomes| > Health.WINDOW_SIZE {
        outcomes := outcomes[1..];
      }
      if latency > 0.0 {
        latencies := latencies + [latency];
        if |latencies| > Health.WINDOW_SIZE {
          latencies := latencies[1..];
        }
      }
    }

    method Judge(peerP95: real, now: real)
      modifies this`status, this`ejectAt, this`probing
      ensures View() == Health.Judge(old(View()), peerP95, now)
    {
      hide Health.P95, Health.Failures;
      var fails := CountFailures();
      if 2 * fails > |outcomes| {
        EjectAt(now);
      } else if |latencies| >= Health.MIN_LATENCY_SAMPLES && peerP95 > 0.0
                && Health.P95(latencies) > Health.GRAY_FAILURE_MULTIPLE * peerP95 {
        EjectAt(now);
      } else if 10 * fails > |outcomes| {
        status := Health.Degraded;
      } else {
        status := Health.Healthy;
      }
    }

    /** One outcome: it settles an outstanding probe, is ignored while ejected,
        and otherwise joins the windows the verdict is taken from. */
    method Report(ok: bool, latency: real, peerP95: real, now: real)
      modifies this`outcomes, this`latencies, this`status, this`ejectAt, this`probing, this`backoff
      ensures View() == Health.Report(old(View()), ok, latency, peerP95, now)
    {
      hide Health.Judge, Health.Record, Health.ProbeFailed, Health.ProbeSucceeded;
      if status == Health.Ejected && probing {
        SettleProbe(ok, now);
        return;
      }
      if status == Health.Ejected {
        return;
      }
      Observe(ok, latency);
      Judge(peerP95, now);
    }
  }

  // ---- the peers a worker is judged against ----

  predicate IsPeer(id: string, key: string, subjectId: string, subjectKey: string, samples: nat) {
    id != subjectId && key == subjectKey && samples >= Health.MIN_LATENCY_SAMPLES
  }

  ghost function PeerP95s(ws: seq<Worker>, subject: Worker): seq<real>
    reads ws
  {
    if ws == [] then []
    else
      var w := ws[|ws|-1];
      PeerP95s(ws[..|ws|-1], subject)
      + if IsPeer(w.id, w.key, subject.id, subject.key, |w.latencies|) then [Health.P95(w.latencies)] else []
  }

  function Median(each: seq<real>): real {
    if each == [] then 0.0
    else
      Health.SortKeeps(each);
      Health.Sort(each)[|each| / 2]
  }

  /** The baseline is one of the peers' own p95s, and fewer than half of them
      are above it. */
  lemma MedianRank(each: seq<real>)
    requires each != []
    ensures Median(each) in each
    ensures 2 * Health.CountAbove(each, Median(each)) < |each|
  {
    Health.SortKeeps(each);
    Health.SortSorted(each);
    Health.CountInSorted(Health.Sort(each), |each| / 2);
    Health.SortCounts(each, Median(each));
    assert Median(each) in multiset(Health.Sort(each));
  }

  // ---- picking ----

  function LatencyOf(latencies: seq<real>): real {
    if Health.P95(latencies) <= 0.0 then UNOBSERVED_LATENCY else Health.P95(latencies)
  }

  /** (outstanding + 1) x latency, halved for the preferred key. */
  function ScoreOf(outstanding: int, latencies: seq<real>, preferred: bool): real {
    var score := Bucket.Mul((outstanding + 1) as real, LatencyOf(latencies));
    if preferred then score * 0.5 else score
  }

  predicate Prefers(prefer: string, key: string) { prefer != "" && key == prefer }

  predicate Capable(w: Worker, mode: string) {
    (mode == ONLINE ==> w.streaming) && mode in w.modes
  }

  ghost predicate Usable(w: Worker, now: real)
    reads w, w.bucket
  {
    Health.Eligible(w.View(), now) && Bucket.CanTake(w.bucket.View(), now)
  }

  /** Passes every filter. */
  ghost predicate Qualifies(w: Worker, mode: string, exclude: set<string>, now: real)
    reads w, w.bucket
  {
    w.id !in exclude && Capable(w, mode) && Usable(w, now)
  }

  ghost predicate Due(w: Worker, now: real)
    reads w
  {
    Health.DueForProbe(w.View(), now)
  }

  ghost function Score(w: Worker, prefer: string): real
    reads w
  {
    ScoreOf(w.outstanding, w.latencies, Prefers(prefer, w.key))
  }

  /** rand.Perm: some order, whichever. */
  method RandPerm(n: nat) returns (perm: seq<nat>)
    ensures Permutation(perm, n)
  {
    perm := *;
    if !Permutation(perm, n) {
      perm := seq(n, i requires 0 <= i < n => i);
      forall k | 0 <= k < n ensures k in perm {
        assert perm[k] == k;
      }
    }
  }

  predicate Permutation(perm: seq<nat>, n: nat) {
    && (forall i | 0 <= i < |perm| :: perm[i] < n)
    && (forall k | 0 <= k < n :: k in perm)
  }

  ghost function Buckets(ws: seq<Worker>): set<Bucket.RateBucket> {
    set w | w in ws :: w.bucket
  }

  ghost function Fits(ws: seq<Worker>, mode: string, exclude: set<string>, now: real): (r: seq<bool>)
    reads ws, Buckets(ws)
    ensures |r| == |ws|
  {
    seq(|ws|, i requires 0 <= i < |ws| reads ws, Buckets(ws) => Qualifies(ws[i], mode, exclude, now))
  }

  ghost function Dues(ws: seq<Worker>, now: real): (r: seq<bool>)
    reads ws
    ensures |r| == |ws|
  {
    seq(|ws|, i requires 0 <= i < |ws| reads ws => Due(ws[i], now))
  }

  ghost function Scores(ws: seq<Worker>, prefer: string): (r: seq<real>)
    reads ws
    ensures |r| == |ws|
  {
    seq(|ws|, i requires 0 <= i < |ws| reads ws => Score(ws[i], prefer))
  }

  ghost function Tanks(ws: seq<Worker>): (r: seq<Bucket.Tokens>)
    reads Buckets(ws)
    ensures |r| == |ws|
  {
    seq(|ws|, i requires 0 <= i < |ws| reads Buckets(ws) => ws[i].bucket.View())
  }

  /** What the visited workers leave of the two races. */
  ghost predicate Leaders(fits: seq<bool>, due: seq<bool>, scores: seq<real>, seen: seq<nat>,
                          probe: Option<nat>, best: Option<nat>, bestScore: real)
    requires |fits| == |due| == |scores| && forall i | 0 <= i < |seen| :: seen[i] < |fits|
  {
    && (probe.Some? ==> probe.value < |fits| && fits[probe.value] && due[probe.value])
    && (best.Some? ==> best.value < |fits| && fits[best.value] && !due[best.value] && bestScore == scores[best.value])
    && (forall m | 0 <= m < |seen| && fits[seen[m]] ::
          if due[seen[m]] then probe.Some? else best.Some? && bestScore <= scores[seen[m]])
  }

  /** Nothing but refills has happened to the budgets. */
  ghost predicate OnlyRefilled(ws: seq<Worker>, tanks: seq<Bucket.Tokens>, now: real)
    reads Buckets(ws)
    requires |tanks| == |ws|
  {
    forall i | 0 <= i < |ws| :: Bucket.Sound(tanks[i]) &&
      (ws[i].bucket.View() == tanks[i] || ws[i].bucket.View() == Bucket.Refill(tanks[i], now))
  }

  /** A pick: a due probe if there is one, else the least score. */
  ghost predicate Picked(fits: seq<bool>, due: seq<bool>, scores: seq<real>, k: nat)
    requires |fits| == |due| == |scores|
  {
    && k < |fits| && fits[k]
    && ((exists i :: 0 <= i < |fits| && fits[i] && due[i]) ==> due[k])
    && (!due[k] ==> forall i | 0 <= i < |fits| && fits[i] :: scores[k] <= scores[i])
  }

  /** One token spent on worker k, the other budgets at most refilled. */
  ghost predicate ChargedOnly(ws: seq<Worker>, tanks: seq<Bucket.Tokens>, now: real, k: nat)
    reads Buckets(ws)
    requires |tanks| == |ws|
  {
    && k < |ws| && ws[k].bucket.View() == Bucket.Taken(tanks[k], now)
    && forall i | 0 <= i < |ws| && i != k ::
         ws[i].bucket.View() == tanks[i] || ws[i].bucket.View() == Bucket.Refill(tanks[i], now)
  }

  lemma NoLeaders(fits: seq<bool>, due: seq<bool>, scores: seq<real>)
    requires |fits| == |due| == |scores|
    ensures Leaders(fits, due, scores, [], None, None, 0.0)
  {
  }

  /** Every worker was visited, so the leaders lead all of them. */
  lemma LeadersOfAll(fits: seq<bool>, due: seq<bool>, scores: seq<real>, perm: seq<nat>,
                     probe: Option<nat>, best: Option<nat>, bestScore: real)
    requires |fits| == |due| == |scores| && Permutation(perm, |fits|)
    requires Leaders(fits, due, scores, perm, probe, best, bestScore)
    ensures probe.Some? ==> Picked(fits, due, scores, probe.value) && due[probe.value]
    ensures probe.None? && best.Some? ==> Picked(fits, due, scores, best.value) && !due[best.value]
    ensures probe.None? && best.None? <==> forall i | 0 <= i < |fits| :: !fits[i]
  {
    forall i | 0 <= i < |fits| && fits[i]
      ensures if due[i] then probe.Some? else best.Some? && bestScore <= scores[i]
    {
      assert i in perm;
      var m :| 0 <= m < |perm| && perm[m] == i;
    }
  }

  /** The filter stage for one worker. Looking at a budget only refills it. */
  method Consider(w: Worker, mode: string, exclude: set<string>, now: real) returns (ok: bool)
    requires Bucket.Sound(w.bucket.View())
    modifies w.bucket
    ensures ok == old(Qualifies(w, mode, exclude, now)) == Qualifies(w, mode, exclude, now)
    ensures w.bucket.View() == old(w.bucket.View()) || w.bucket.View() == Bucket.Refill(old(w.bucket.View()), now)
    ensures Bucket.Sound(w.bucket.View())
  {
    hide Bucket.CanTake, Bucket.Refill, Health.Eligible;
    Bucket.AskThenTake(w.bucket.View(), now);
    if w.id in exclude {
      return false;
    }
    var eligible := w.EligibleAt(now);
    if !eligible {
      return false;
    }
    var available := w.bucket.AvailableAt(now);
    if !available {
      return false;
    }
    if mode == ONLINE && !w.streaming {
      return false;
    }
    ok := mode in w.modes;
  }

  class Router {
    var workers: seq<Worker>
    ghost var index: map<string, nat>
    ghost var fleet: set<Worker>
    ghost var budgets: set<Bucket.RateBucket>

    /** Worker identities are distinct, and so are their budgets. */
    ghost predicate Valid()
      reads this, budgets
    {
      forall i | 0 <= i < |workers| ::
        && workers[i] in fleet && workers[i].bucket in budgets
        && workers[i].id in index && index[workers[i].id] == i
        && workers[i].bucket.owner == workers[i].id
        && Bucket.Sound(workers[i].bucket.View())
    }

    /** The bind counters, in fleet order. */
    ghost function Binds(): (r: seq<int>)
      reads this, fleet
      ensures |r| == |workers|
    {
      seq(|workers|, i requires 0 <= i < |workers| reads this,
          fleet => if workers[i] in fleet then workers[i].outstanding else 0)
    }

    constructor ()
      ensures Valid() && workers == []
    {
      workers, index, fleet, budgets := [], map[], {}, {};
    }

    /** A look at one worker's budget. */
    method Look(k: nat, mode: string, exclude: set<string>, now: real, ghost fits: seq<bool>,
                ghost tanks: seq<Bucket.Tokens>)
        returns (ok: bool)
      requires Valid() && k < |workers| == |tanks| && fits == Fits(workers, mode, exclude, now)
      requires OnlyRefilled(workers, tanks, now)
      modifies workers[k].bucket
      ensures Valid() && fits == Fits(workers, mode, exclude, now)
      ensures OnlyRefilled(workers, tanks, now)
      ensures ok == fits[k]
    {
      hide Bucket.Refill, Bucket.Sound, Bucket.CanTake, Health.Eligible;
      var w := workers[k];
      assert Bucket.Sound(tanks[k]);
      Bucket.RefillTwice(tanks[k], now, now);
      ok := Consider(w, mode, exclude, now);
    }

    /** One visited worker joins the race it belongs to. */
    method Race(k: nat, ok: bool, prefer: string, now: real,
                ghost fits: seq<bool>, ghost due: seq<bool>, ghost scores: seq<real>, ghost seen: seq<nat>,
                probe: Option<nat>, best: Option<nat>, bestScore: real)
        returns (probe': Option<nat>, best': Option<nat>, bestScore': real)
      requires k < |workers| == |fits| && ok == fits[k]
      requires due == Dues(workers, now) && scores == Scores(workers, prefer)
      requires forall i | 0 <= i < |seen| :: seen[i] < |fits|
      requires Leaders(fits, due, scores, seen, probe, best, bestScore)
      ensures Leaders(fits, due, scores, seen + [k], probe', best', bestScore')
    {
      probe', best', bestScore' := probe, best, bestScore;
      if !ok {
        return;
      }
      var w := workers[k];
      var isDue := w.DueForProbeAt(now);
      // An ejected worker's latency is frozen, so it is not scored at all.
      if isDue {
        if probe.None? {
          probe' := Some(k);
        }
        return;
      }
      var score := ScoreOf(w.outstanding, w.latencies, Prefers(prefer, w.key));
      if best.None? || score < bestScore {
        best', bestScore' := Some(k), score;
      }
    }

    /** Spend one token of a worker that can spare it. */
    method Charge(k: nat, now: real, ghost tanks: seq<Bucket.Tokens>) returns (ok: bool)
      requires Valid() && k < |workers| == |tanks| && OnlyRefilled(workers, tanks, now)
      modifies workers[k].bucket
      ensures Valid() && ok == Bucket.CanTake(tanks[k], now)
      ensures ChargedOnly(workers, tanks, now, k)
    {
      hide Bucket.Refill, Bucket.Sound, Bucket.CanTake, Bucket.Taken;
      assert Bucket.Sound(tanks[k]);
      Bucket.AskThenTake(tanks[k], now);
      Bucket.TakenSound(tanks[k], now);
      ok := workers[k].bucket.TakeAt(now);
    }

    /** The loop over the workers, in the given order. */
    method Survey(mode: string, exclude: set<string>, prefer: string, perm: seq<nat>, now: real,
                  ghost fits: seq<bool>, ghost due: seq<bool>, ghost scores: seq<real>, ghost tanks: seq<Bucket.Tokens>)
        returns (probe: Option<nat>, best: Option<nat>)
      requires Valid() && Permutation(perm, |workers|) && |tanks| == |workers| && OnlyRefilled(workers, tanks, now)
      requires fits == Fits(workers, mode, exclude, now) && due == Dues(workers, now)
      requires scores == Scores(workers, prefer)
      modifies Buckets(workers)
      ensures Valid() && OnlyRefilled(workers, tanks, now)
      ensures probe.Some? ==> Picked(fits, due, scores, probe.value) && due[probe.value]
      ensures probe.None? && best.Some? ==> Picked(fits, due, scores, best.value) && !due[best.value]
      ensures probe.None? && best.None? <==> forall i | 0 <= i < |fits| :: !fits[i]
    {
      hide Leaders, Fits, Dues, Scores, OnlyRefilled, Picked;
      probe, best := None, None;
      var bestScore := 0.0;
      NoLeaders(fits, due, scores);
      for n := 0 to |perm|
        invariant Valid() && OnlyRefilled(workers, tanks, now) && fits == Fits(workers, mode, exclude, now)
        invariant due == Dues(workers, now) && scores == Scores(workers, prefer)
        invariant Leaders(fits, due, scores, perm[..n], probe, best, bestScore)
      {
        var ok := Look(perm[n], mode, exclude, now, fits, tanks);
        probe, best, bestScore := Race(perm[n], ok, prefer, now, fits, due, scores, perm[..n], probe, best, bestScore);
        assert perm[..n+1] == perm[..n] + [perm[n]];
      }
      assert perm[..|perm|] == perm;
      LeadersOfAll(fits, due, scores, perm, probe, best, bestScore);
    }

    lemma NothingSpent(now: real)
      requires Valid()
      ensures OnlyRefilled(workers, Tanks(workers), now)
    {
      hide Bucket.Sound, Bucket.Refill;
    }

    /** FILTER then SCORE, in whatever order the workers are visited: a due probe
        if any qualifies, otherwise the least score; nobody exactly when nobody
        qualifies. One token is spent. */
    method Pick(mode: string, exclude: set<string>, prefer: string, perm: seq<nat>, now: real)
        returns (chosen: Option<Worker>, ghost k: nat)
      requires Valid() && Permutation(perm, |workers|)
      modifies workers`probing, Buckets(workers)
      ensures Valid()
      ensures chosen.None? <==> forall i | 0 <= i < |workers| :: !old(Fits(workers, mode, exclude, now))[i]
      ensures chosen.Some? ==> k < |workers| && chosen.value == workers[k]
      ensures chosen.Some? ==> chosen.value.id !in exclude && Capable(chosen.value, mode)
      ensures chosen.Some? ==> Picked(old(Fits(workers, mode, exclude, now)), old(Dues(workers, now)),
                                      old(Scores(workers, prefer)), k)
      ensures chosen.None? ==> OnlyRefilled(workers, old(Tanks(workers)), now)
      ensures chosen.Some? ==> ChargedOnly(workers, old(Tanks(workers)), now, k)
      ensures forall i | 0 <= i < |workers| && !(chosen.Some? && i == k) ::
                workers[i].probing == old(workers[i].probing)
      ensures chosen.Some? ==> chosen.value.View() == Health.BeginProbe(old(chosen.value.View()))
    {
      hide Bucket.Refill, Bucket.Sound, Bucket.CanTake, Bucket.Taken, Picked, ChargedOnly, OnlyRefilled, Fits, Dues,
           Scores, Tanks;
      ghost var fits, due := Fits(workers, mode, exclude, now), Dues(workers, now);
      ghost var scores, tanks := Scores(workers, prefer), Tanks(workers);
      FitsMean(workers, mode, exclude, now);
      NothingSpent(now);
      k := 0;
      var probe, best := Survey(mode, exclude, prefer, perm, now, fits, due, scores, tanks);
      if probe.Some? {
        PickedFits(fits, due, scores, probe.value);
        var taken := Charge(probe.value, now, tanks);
        if taken {
          k := probe.value;
          workers[probe.value].BeginProbe();
          return Some(workers[probe.value]), k;
        }
      }
      if best.None? {
        return None, k;
      }
      PickedFits(fits, due, scores, best.value);
      var taken := Charge(best.value, now, tanks);
      if !taken {
        return None, k;
      }
      k := best.value;
      chosen := Some(workers[best.value]);
    }

    /** Pick, at some moment and in some order; what a recovery relies on. */
    method PickNow(mode: string, exclude: set<string>, prefer: string) returns (chosen: Option<Worker>)
      requires Valid()
      modifies fleet, budgets
      ensures Valid()
      ensures chosen.Some? ==> chosen.value in workers && chosen.value.id !in exclude && Capable(chosen.value, mode)
      ensures Binds() == old(Binds())
    {
      hide Permutation, Fits, Dues, Scores, Tanks, Picked, OnlyRefilled, ChargedOnly;
      var perm := RandPerm(|workers|);
      var now: real := *;
      ghost var k;
      chosen, k := Pick(mode, exclude, prefer, perm, now);
    }

    method Find(id: string) returns (found: Option<Worker>)
      ensures found.Some? ==> found.value in workers && found.value.id == id
      ensures found.None? ==> forall w | w in workers :: w.id != id
    {
      for i := 0 to |workers|
        invariant forall j | 0 <= j < i :: workers[j].id != id
      {
        if workers[i].id == id {
          return Some(workers[i]);
        }
      }
      found := None;
    }

    /** Identity is immutable: an id is never replaced. */
    method Add(w: Worker) returns (ok: bool)
      requires Valid() && w.bucket.owner == w.id && Bucket.Sound(w.bucket.View())
      modifies this
      ensures Valid()
      ensures ok <==> w.id != "" && forall x | x in old(workers) :: x.id != w.id
      ensures workers == if ok then old(workers) + [w] else old(workers)
    {
      hide Bucket.Sound;
      if w.id == "" {
        return false;
      }
      var existing := Find(w.id);
      if existing.Some? {
        return false;
      }
      index := index[w.id := |workers|];
      fleet, budgets := fleet + {w}, budgets + {w.bucket};
      workers := workers + [w];
      ok := true;
    }

    /** The worker itself, then every other worker of its key, in fleet order. */
    method Pool(id: string) returns (pool: seq<Worker>)
      requires Valid()
      ensures pool == [] <==> forall w | w in workers :: w.id != id
      ensures pool != [] ==> pool[0] in workers && pool[0].id == id
      ensures pool != [] ==> pool[1..] == Cohort(workers, id, pool[0].key)
    {
      var self := Find(id);
      if self.None? {
        return [];
      }
      var others := [];
      for i := 0 to |workers|
        invariant others == Cohort(workers[..i], id, self.value.key)
      {
        assert workers[..i+1][..i] == workers[..i];
        if workers[i].id != id && workers[i].key == self.value.key {
          others := others + [workers[i]];
        }
      }
      assert workers[..|workers|] == workers;
      pool := [self.value] + others;
      assert pool[1..] == others;
    }

    method PeerBaseline(subject: Worker) returns (baseline: real)
      ensures baseline == Median(PeerP95s(workers, subject))
    {
      hide Health.P95;
      var each := [];
      for i := 0 to |workers|
        invariant each == PeerP95s(workers[..i], subject)
      {
        var w := workers[i];
        assert workers[..i+1][..i] == workers[..i];
        if w.id != subject.id && w.key == subject.key && |w.latencies| >= Health.MIN_LATENCY_SAMPLES {
          each := each + [Health.P95(w.latencies)];
        }
      }
      assert workers[..|workers|] == workers;
      baseline := Median(each);
    }

    /** The named worker is judged against the others of its own key; nobody
        else changes. */
    method Report(id: string, ok: bool, latency: real, now: real)
      requires Valid()
      modifies workers`outcomes, workers`latencies, workers`status, workers`ejectAt, workers`probing, workers`backoff
      ensures Valid()
      ensures forall w | w in workers ::
                w.View() == if w.id == id
                            then Health.Report(old(w.View()), ok, latency, old(Median(PeerP95s(workers, w))), now)
                            else old(w.View())
    {
      hide Health.Report, Median, PeerP95s;
      var w := Find(id);
      SameIdSameWorker(id);
      if w.Some? {
        var baseline := PeerBaseline(w.value);
        w.value.Report(ok, latency, baseline, now);
      }
    }

    /** Report, at some moment. */
    method ReportNow(id: string, ok: bool, latency: real)
      requires Valid()
      modifies fleet
      ensures Valid()
      ensures Binds() == old(Binds())
      ensures forall w | w in workers && w.id != id :: w.View() == old(w.View())
    {
      hide Health.Report;
      var now: real := *;
      Report(id, ok, latency, now);
    }

    /** The replacement takes the bind and the dead worker gives it up. */
    method Transfer(target: Worker, owner: string)
      requires Valid() && target in workers && target.id != owner
      modifies fleet
      ensures Valid()
      ensures Binds() == TransferBind(old(Binds()), Ids(workers), target.id, owner)
    {
      hide Bucket.Sound;
      SameIdSameWorker(owner);
      SameIdSameWorker(target.id);
      target.BindSession();
      var dead := Find(owner);
      if dead.Some? {
        dead.value.UnbindSession();
      }
    }

    method BindTo(target: Worker)
      requires Valid() && target in workers
      modifies fleet
      ensures Valid() && Binds() == AddBind(old(Binds()), Ids(workers), target.id, 1)
    {
      hide Bucket.Sound;
      SameIdSameWorker(target.id);
      target.BindSession();
    }

    /** A session's end; its worker may have left the fleet. */
    method UnbindFrom(id: string)
      requires Valid()
      modifies fleet
      ensures Valid() && Binds() == AddBind(old(Binds()), Ids(workers), id, -1)
    {
      hide Bucket.Sound;
      SameIdSameWorker(id);
      var w := Find(id);
      if w.Some? {
        w.value.UnbindSession();
      } else {
        assert forall i | 0 <= i < |workers| :: workers[i].id != id;
      }
    }

    /** On429, at some moment. */
    method On429Now(id: string, retryAfter: real)
      requires Valid()
      modifies budgets
      ensures Valid()
    {
      var now: real := *;
      On429(id, retryAfter, now);
    }

    lemma SameIdSameWorker(id: string)
      requires Valid()
      ensures forall v, w | v in workers && w in workers && v.id == id && w.id == id :: v == w
    {
      hide Bucket.Sound;
    }

    method MarkUnhealthy(id: string, now: real)
      requires Valid()
      modifies workers`status, workers`ejectAt, workers`probing
      ensures Valid()
      ensures forall w | w in workers ::
                w.View() == if w.id == id then Health.MarkUnhealthy(old(w.View()), now) else old(w.View())
    {
      var w := Find(id);
      SameIdSameWorker(id);
      if w.Some? && w.value.status != Health.Ejected {
        w.value.EjectAt(now);
      }
    }

    method On429(id: string, retryAfter: real, now: real)
      requires Valid()
      modifies Buckets(workers)
      ensures Valid()
      ensures forall w | w in workers ::
                w.bucket.View() == if w.id == id then Bucket.Refused(old(w.bucket.View()), now, retryAfter)
                                   else old(w.bucket.View())
    {
      var w := Find(id);
      SameIdSameWorker(id);
      if w.Some? {
        w.value.bucket.On429At(now, retryAfter);
      }
    }

    /** While some worker is owed a probe, a pick hands out exactly one. */
    method PickProbe(mode: string, exclude: set<string>, prefer: string, perm: seq<nat>, now: real)
        returns (chosen: Worker, ghost k: nat)
      requires Valid() && Permutation(perm, |workers|)
      requires Owed(workers, mode, exclude, now) != {}
      modifies workers`probing, Buckets(workers)
      ensures Valid()
      ensures k < |workers| && k in old(Owed(workers, mode, exclude, now)) && chosen == workers[k] && chosen.probing
      ensures Owed(workers, mode, exclude, now) == old(Owed(workers, mode, exclude, now)) - {k}
      ensures forall i | 0 <= i < |workers| && old(workers[i].probing) :: workers[i].probing
    {
      hide Bucket.Sound, Scores, Fits, Dues, Capables, OwedOf, ChargedOnly, Tanks, Permutation;
      ghost var ws, tanks, views := workers, Tanks(workers), Views(workers);
      ghost var fits, due := Fits(ws, mode, exclude, now), Dues(ws, now);
      ghost var owed :| owed in Owed(ws, mode, exclude, now);
      SomeOwed(ws, mode, exclude, now);
      assert fits[owed] && due[owed];
      SoundTanks();
      var picked;
      picked, k := Pick(mode, exclude, prefer, perm, now);
      chosen := picked.value;
      hide Picked, Valid;
      OwedShrinks(Capables(ws, mode, exclude), views, tanks, Views(ws), Tanks(ws), now, k) by {
        ChargedTanks(ws, tanks, now, k);
      }
    }

    lemma SoundTanks()
      requires Valid()
      ensures forall i | 0 <= i < |workers| :: Bucket.Sound(Tanks(workers)[i])
    {
      hide Bucket.Sound;
    }

    /** With nothing else happening, every worker owed a probe has got one after
        as many picks as there are such workers. */
    method Heal(mode: string, exclude: set<string>, prefer: string, perms: seq<seq<nat>>, now: real)
      requires Valid() && |perms| == |Owed(workers, mode, exclude, now)|
      requires forall n | 0 <= n < |perms| :: Permutation(perms[n], |workers|)
      modifies workers`probing, Buckets(workers)
      ensures Valid() && Owed(workers, mode, exclude, now) == {}
      ensures forall i | i in old(Owed(workers, mode, exclude, now)) :: i < |workers| && workers[i].probing
    {
      hide Owed, Permutation;
      ghost var owed := Owed(workers, mode, exclude, now);
      for n := 0 to |perms|
        invariant Valid() && Owed(workers, mode, exclude, now) <= owed
        invariant |Owed(workers, mode, exclude, now)| == |perms| - n
        invariant forall i | i in owed && i !in Owed(workers, mode, exclude, now) :: i < |workers| && workers[i].probing
      {
        var chosen, k := PickProbe(mode, exclude, prefer, perms[n], now);
      }
    }
  }

  ghost function Views(ws: seq<Worker>): (r: seq<Health.State>)
    reads ws
    ensures |r| == |ws|
  {
    seq(|ws|, i requires 0 <= i < |ws| reads ws => ws[i].View())
  }

  ghost function Capables(ws: seq<Worker>, mode: string, exclude: set<string>): (r: seq<bool>)
    ensures |r| == |ws|
  {
    seq(|ws|, i requires 0 <= i < |ws| => ws[i].id !in exclude && Capable(ws[i], mode))
  }

  ghost function OwedOf(capable: seq<bool>, views: seq<Health.State>, tanks: seq<Bucket.Tokens>, now: real): set<nat>
    requires |capable| == |views| == |tanks|
  {
    set i: nat | i < |views| && capable[i] && Health.DueForProbe(views[i], now) && Bucket.CanTake(tanks[i], now)
  }

  /** The workers a pick would have to probe before it scores anybody. */
  ghost function Owed(ws: seq<Worker>, mode: string, exclude: set<string>, now: real): set<nat>
    reads ws, Buckets(ws)
  {
    OwedOf(Capables(ws, mode, exclude), Views(ws), Tanks(ws), now)
  }

  lemma SomeOwed(ws: seq<Worker>, mode: string, exclude: set<string>, now: real)
    ensures forall i: nat :: i in Owed(ws, mode, exclude, now)
                         <==> i < |ws| && Fits(ws, mode, exclude, now)[i] && Dues(ws, now)[i]
    ensures forall i: nat | i in Owed(ws, mode, exclude, now) :: Health.DueForProbe(Views(ws)[i], now)
  {
    hide Bucket.CanTake;
  }

  lemma ChargedTanks(ws: seq<Worker>, tanks: seq<Bucket.Tokens>, now: real, k: nat)
    requires |tanks| == |ws| && ChargedOnly(ws, tanks, now, k)
    ensures forall i | 0 <= i < |ws| && i != k ::
              Tanks(ws)[i] == tanks[i] || Tanks(ws)[i] == Bucket.Refill(tanks[i], now)
  {
    hide Bucket.Refill, Bucket.Taken;
  }

  lemma OwedShrinks(capable: seq<bool>, views: seq<Health.State>, tanks: seq<Bucket.Tokens>,
                    views': seq<Health.State>, tanks': seq<Bucket.Tokens>, now: real, k: nat)
    requires |capable| == |views| == |tanks| == |views'| == |tanks'| && k < |views|
    requires Health.DueForProbe(views[k], now) && views'[k] == Health.BeginProbe(views[k])
    requires forall i | 0 <= i < |views| && i != k :: views'[i] == views[i]
    requires forall i | 0 <= i < |views| :: Bucket.Sound(tanks[i])
    requires forall i | 0 <= i < |views| && i != k :: tanks'[i] == tanks[i] || tanks'[i] == Bucket.Refill(tanks[i], now)
    ensures OwedOf(capable, views', tanks', now) == OwedOf(capable, views, tanks, now) - {k}
  {
    hide Bucket.CanTake, Bucket.Refill, Bucket.Sound;
    forall i | 0 <= i < |views|
      ensures Bucket.CanTake(Bucket.Refill(tanks[i], now), now) == Bucket.CanTake(tanks[i], now)
    {
      Bucket.AskThenTake(tanks[i], now);
    }
  }

  function Ids(ws: seq<Worker>): (r: seq<string>)
    ensures |r| == |ws|
  {
    seq(|ws|, i requires 0 <= i < |ws| => ws[i].id)
  }

  /** One bind moves from owner to target; a worker no longer in the fleet has
      none to give up. */
  ghost function TransferBind(before: seq<int>, ids: seq<string>, target: string, owner: string): (after: seq<int>)
    requires |before| == |ids|
    ensures |after| == |before|
  {
    seq(|ids|, i requires 0 <= i < |ids| =>
      before[i] + (if ids[i] == target then 1 else 0) - (if ids[i] == owner then 1 else 0))
  }

  ghost function AddBind(before: seq<int>, ids: seq<string>, id: string, n: int): (after: seq<int>)
    requires |before| == |ids|
    ensures |after| == |before|
  {
    seq(|ids|, i requires 0 <= i < |ids| => before[i] + if ids[i] == id then n else 0)
  }

  /** A bind taken, moved any number of times and given up leaves no trace. */
  lemma BindBalances(before: seq<int>, ids: seq<string>, first: string, last: string)
    requires |before| == |ids|
    ensures AddBind(TransferBind(AddBind(before, ids, first, 1), ids, last, first), ids, last, -1) == before
  {
  }

  lemma TransferToItself(before: seq<int>, ids: seq<string>, id: string)
    requires |before| == |ids|
    ensures TransferBind(before, ids, id, id) == before
  {
  }

  /** Moving on from b is as good as having moved from a. */
  lemma TransferTwice(before: seq<int>, ids: seq<string>, a: string, b: string, c: string)
    requires |before| == |ids|
    ensures TransferBind(TransferBind(before, ids, b, a), ids, c, b) == TransferBind(before, ids, c, a)
  {
  }

  function Cohort(ws: seq<Worker>, id: string, key: string): (rest: seq<Worker>)
    ensures forall w | w in rest :: w in ws && w.id != id && w.key == key
    ensures forall w | w in ws && w.id != id && w.key == key :: w in rest
  {
    if ws == [] then []
    else
      var w := ws[|ws|-1];
      Cohort(ws[..|ws|-1], id, key) + if w.id != id && w.key == key then [w] else []
  }

  /** A worker that passes can be charged, and is ejected only if it is due. */
  lemma FitsMean(ws: seq<Worker>, mode: string, exclude: set<string>, now: real)
    ensures forall i | 0 <= i < |ws| && Fits(ws, mode, exclude, now)[i] ::
              ws[i].id !in exclude && Capable(ws[i], mode)
    ensures forall i | 0 <= i < |ws| && Fits(ws, mode, exclude, now)[i] ::
              Bucket.CanTake(Tanks(ws)[i], now) && (ws[i].status == Health.Ejected ==> Dues(ws, now)[i])
  {
  }

  lemma PickedFits(fits: seq<bool>, due: seq<bool>, scores: seq<real>, k: nat)
    requires |fits| == |due| == |scores| && Picked(fits, due, scores, k)
    ensures k < |fits| && fits[k]
  {
  }
}

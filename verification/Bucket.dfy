/** The per-worker rate-limit budget: internal/router/bucket.go.

    Time is in seconds; tokens, limits and times are exact reals. */
module Bucket {
  import opened Wrappers

  const DEFAULT_LIMIT := 200.0
  const DEFAULT_HEADROOM := 0.2

  datatype Tokens = Tokens(limit: real, headroom: real, tokens: real,
                           blockedUntil: real, lastRefill: Option<real>)

  /** Configured sensibly, and holding no more than the limit. */
  ghost predicate Sound(b: Tokens) {
    b.limit > 0.0 && 0.0 <= b.headroom < 1.0 && b.tokens <= b.limit && b.lastRefill.Some?
  }

  function Mul(x: real, y: real): real { x * y }

  function Earned(limit: real, from: real, to: real): real {
    Mul(to - from, limit)
  }

  function Refill(b: Tokens, now: real): Tokens {
    match b.lastRefill
    case None => b.(lastRefill := Some(now))
    case Some(last) =>
      if now <= last then b
      else
        var t := b.tokens + Earned(b.limit, last, now);
        b.(lastRefill := Some(now), tokens := if t > b.limit then b.limit else t)
  }

  /** The level below which nothing is handed out. */
  function Reserve(b: Tokens): real { Mul(b.limit, b.headroom) }

  predicate Open(b: Tokens, now: real) {
    !(now < b.blockedUntil) && b.tokens > Reserve(b)
  }

  predicate CanTake(b: Tokens, now: real) {
    Open(Refill(b, now), now)
  }

  function Taken(b: Tokens, now: real): Tokens {
    var r := Refill(b, now);
    if Open(r, now) then r.(tokens := r.tokens - 1.0) else r
  }

  function Refused(b: Tokens, now: real, retryAfter: real): Tokens {
    b.(tokens := 0.0, lastRefill := Some(now), blockedUntil := now + retryAfter)
  }

  // ---- runs ----

  datatype Op = Ask(at: real) | Take(at: real) | On429(at: real, retryAfter: real)

  function Apply(b: Tokens, op: Op): Tokens {
    match op
    case Ask(t) => Refill(b, t)
    case Take(t) => Taken(b, t)
    case On429(t, d) => Refused(b, t, d)
  }

  /** How far below zero one take may push the bucket, hence what a refusal's
      reset to zero can give back. */
  function Slack(b: Tokens): real {
    if Reserve(b) >= 1.0 then 0.0 else 1.0 - Reserve(b)
  }

  /** One Slack for every refusal in the run. */
  function Forgiven(b: Tokens, ops: seq<Op>): real {
    if ops == [] then 0.0
    else Forgiven(b, ops[..|ops|-1]) + if ops[|ops|-1].On429? then Slack(b) else 0.0
  }

  predicate Succeeds(b: Tokens, op: Op) {
    op.Take? && CanTake(b, op.at)
  }

  function Run(b: Tokens, ops: seq<Op>): Tokens {
    if ops == [] then b else Apply(Run(b, ops[..|ops|-1]), ops[|ops|-1])
  }

  function Successes(b: Tokens, ops: seq<Op>): nat {
    if ops == [] then 0
    else
      var init := ops[..|ops|-1];
      Successes(b, init) + if Succeeds(Run(b, init), ops[|ops|-1]) then 1 else 0
  }

  /** Operation times never go back, starting from the bucket's own clock. */
  ghost predicate Monotone(from: real, ops: seq<Op>) {
    ops == [] ||
    var init := ops[..|ops|-1];
    Monotone(from, init) && Clock(from, init) <= ops[|ops|-1].at
  }

  function Clock(from: real, ops: seq<Op>): real {
    if ops == [] then from else ops[|ops|-1].at
  }

  lemma {:induction false} RunSound(b: Tokens, from: real, ops: seq<Op>)
    requires Sound(b) && Monotone(from, ops) && b.lastRefill.value <= from
    ensures var e := Run(b, ops);
            Sound(e) && e.limit == b.limit && e.headroom == b.headroom && e.lastRefill.value <= Clock(from, ops)
  {
    if ops != [] {
      RunSound(b, from, ops[..|ops|-1]);
      ReserveNonNegative(b);
    }
  }

  lemma ReserveNonNegative(b: Tokens)
    requires Sound(b)
    ensures 0.0 <= Reserve(b)
  {
  }

  // ---- reading the budget changes nothing ----

  lemma EarnedSplits(limit: real, a: real, b: real, c: real)
    ensures Earned(limit, a, c) == Earned(limit, a, b) + Earned(limit, b, c)
  {
  }

  lemma EarnedMonotone(limit: real, a: real, b: real)
    requires limit > 0.0 && a <= b
    ensures Earned(limit, a, b) >= 0.0
  {
  }

  /** Refilling on the way makes no difference later. */
  lemma RefillTwice(b: Tokens, now: real, later: real)
    requires Sound(b) && now <= later
    ensures Refill(Refill(b, now), later) == Refill(b, later)
  {
    hide Earned;
    var last := b.lastRefill.value;
    EarnedSplits(b.limit, last, now, later);
    EarnedMonotone(b.limit, now, later);
  }

  /** Checking first, at the same moment, changes no take. */
  lemma AskThenTake(b: Tokens, now: real)
    requires Sound(b)
    ensures CanTake(Refill(b, now), now) == CanTake(b, now)
    ensures Taken(Refill(b, now), now) == Taken(b, now)
    ensures Sound(Refill(b, now)) && Refill(b, now).limit == b.limit
  {
    RefillTwice(b, now, now);
  }

  lemma TakenSound(b: Tokens, now: real)
    requires Sound(b)
    ensures Sound(Taken(b, now))
  {
    hide Reserve;
  }

  function WithoutAsks(ops: seq<Op>): seq<Op> {
    if ops == [] then []
    else WithoutAsks(ops[..|ops|-1]) + if ops[|ops|-1].Ask? then [] else [ops[|ops|-1]]
  }

  lemma {:induction false} MonotoneWithout(from: real, ops: seq<Op>)
    requires Monotone(from, ops)
    ensures Monotone(from, WithoutAsks(ops)) && Clock(from, WithoutAsks(ops)) <= Clock(from, ops)
  {
    if ops != [] {
      MonotoneWithout(from, ops[..|ops|-1]);
      var kept, op := WithoutAsks(ops[..|ops|-1]), ops[|ops|-1];
      WithoutSnoc(ops[..|ops|-1], op);
      assert ops == ops[..|ops|-1] + [op];
      if !op.Ask? {
        assert (kept + [op])[..|kept|] == kept;
      }
    }
  }

  lemma WithoutSnoc(ops: seq<Op>, op: Op)
    ensures WithoutAsks(ops + [op]) == if op.Ask? then WithoutAsks(ops) else WithoutAsks(ops) + [op]
  {
    assert (ops + [op])[..|ops|] == ops;
  }

  lemma RunSnoc(b: Tokens, ops: seq<Op>, op: Op)
    ensures Run(b, ops + [op]) == Apply(Run(b, ops), op)
    ensures Successes(b, ops + [op]) == Successes(b, ops) + if Succeeds(Run(b, ops), op) then 1 else 0
    ensures Forgiven(b, ops + [op]) == Forgiven(b, ops) + if op.On429? then Slack(b) else 0.0
  {
    assert (ops + [op])[..|ops|] == ops;
  }

  /** Any number of availability checks may be inserted into a run without
      changing how many takes succeed or what any later moment sees. */
  lemma {:induction false} AsksAreFree(b: Tokens, from: real, ops: seq<Op>, later: real)
    requires Sound(b) && b.lastRefill.value <= from && Monotone(from, ops) && Clock(from, ops) <= later
    ensures Refill(Run(b, ops), later) == Refill(Run(b, WithoutAsks(ops)), later)
    ensures Successes(b, ops) == Successes(b, WithoutAsks(ops))
  {
    if ops != [] {
      hide Refill, Monotone, Open, Apply, Succeeds, Run, Successes, WithoutAsks;
      var init, op := ops[..|ops|-1], ops[|ops|-1];
      assert ops == init + [op];
      MonotoneSnoc(from, ops);
      AsksAreFree(b, from, init, op.at);
      RunSound(b, from, init);
      MonotoneWithout(from, init);
      var kept := WithoutAsks(init);
      RunSound(b, from, kept);
      WithoutSnoc(init, op);
      RunSnoc(b, init, op);
      RunSnoc(b, kept, op);
      SameLater(Run(b, init), Run(b, kept), op, later);
    } else {
      assert WithoutAsks(ops) == [];
    }
  }

  lemma MonotoneSnoc(from: real, ops: seq<Op>)
    requires ops != [] && Monotone(from, ops)
    ensures Monotone(from, ops[..|ops|-1]) && Clock(from, ops[..|ops|-1]) <= ops[|ops|-1].at
  {
  }

  lemma SameLater(a: Tokens, b: Tokens, op: Op, later: real)
    requires Sound(a) && Sound(b) && Refill(a, op.at) == Refill(b, op.at) && op.at <= later
    requires a.limit == b.limit && a.headroom == b.headroom
    ensures Succeeds(a, op) == Succeeds(b, op)
    ensures op.Ask? ==> Refill(Apply(a, op), later) == Refill(b, later)
    ensures !op.Ask? ==> Refill(Apply(a, op), later) == Refill(Apply(b, op), later)
  {
    hide Earned;
    RefillTwice(a, op.at, later);
    RefillTwice(b, op.at, later);
  }

  // ---- how much a window can grant ----

  /** The tokens left at time t, against what a run may have spent. */
  lemma {:induction false} Spending(b: Tokens, from: real, ops: seq<Op>, t: real)
    requires Sound(b) && b.lastRefill.value <= from && Monotone(from, ops) && Clock(from, ops) <= t
    requires b.tokens >= -Slack(b)
    ensures -Slack(b) <= Run(b, ops).tokens
    ensures Refill(Run(b, ops), t).tokens
         <= b.limit - Successes(b, ops) as real + Earned(b.limit, from, t) + Forgiven(b, ops)
  {
    if ops == [] {
      EarnedMonotone(b.limit, from, t);
    } else {
      hide Refill, Monotone, Apply, Succeeds, Run, Successes, Forgiven, Earned, Slack;
      var init, op := ops[..|ops|-1], ops[|ops|-1];
      assert ops == init + [op];
      MonotoneSnoc(from, ops);
      Spending(b, from, init, op.at);
      RunSound(b, from, init);
      RunSnoc(b, init, op);
      SpendingStep(b, Run(b, init), from, op, t,
                   b.limit - Successes(b, init) as real + Forgiven(b, init));
    }
  }

  lemma SpendingStep(b: Tokens, e: Tokens, from: real, op: Op, t: real, budget: real)
    requires Sound(e) && e.limit == b.limit && e.headroom == b.headroom && Sound(b)
    requires e.lastRefill.value <= op.at <= t
    requires -Slack(b) <= e.tokens
    requires Refill(e, op.at).tokens <= budget + Earned(b.limit, from, op.at)
    ensures -Slack(b) <= Apply(e, op).tokens
    ensures Refill(Apply(e, op), t).tokens
         <= budget - (if Succeeds(e, op) then 1.0 else 0.0) + (if op.On429? then Slack(b) else 0.0)
            + Earned(b.limit, from, t)
  {
    hide Earned, Reserve;
    ReserveNonNegative(b);
    EarnedSplits(b.limit, from, op.at, t);
    EarnedMonotone(b.limit, op.at, t);
    EarnedMonotone(b.limit, e.lastRefill.value, op.at);
    ReserveSame(b, e);
    var r := Refill(e, op.at);
    ReserveSame(b, r);
    assert e.tokens <= r.tokens && r.lastRefill == Some(op.at) && Sound(r);
    RefillAtMost(Apply(e, op), op.at, t);
  }

  lemma RefillAtMost(b: Tokens, last: real, t: real)
    requires b.limit > 0.0 && b.lastRefill == Some(last) && last <= t
    ensures Refill(b, t).tokens <= b.tokens + Earned(b.limit, last, t)
  {
    EarnedMonotone(b.limit, last, t);
  }

  lemma ReserveSame(a: Tokens, b: Tokens)
    requires a.limit == b.limit && a.headroom == b.headroom
    ensures Reserve(a) == Reserve(b)
  {
  }

  /** Over any run lasting until t, the takes that succeed stay below the
      headroom plus what was earned plus one, plus one Slack per refusal. */
  lemma {:induction false} TakesBounded(b: Tokens, from: real, ops: seq<Op>, t: real)
    requires Sound(b) && b.lastRefill.value <= from && Monotone(from, ops) && Clock(from, ops) <= t
    requires b.tokens >= -Slack(b)
    ensures Successes(b, ops) as real
            < b.limit - Reserve(b) + Earned(b.limit, from, t) + 1.0 + Forgiven(b, ops)
  {
    if ops == [] {
      EarnedMonotone(b.limit, from, t);
      ReserveBelowLimit(b);
    } else {
      hide Refill, Monotone, Apply, Run, Successes, Forgiven, Earned, Reserve;
      var init, op := ops[..|ops|-1], ops[|ops|-1];
      assert ops == init + [op];
      MonotoneSnoc(from, ops);
      RunSnoc(b, init, op);
      TakesBounded(b, from, init, t);
      if Succeeds(Run(b, init), op) {
        Spending(b, from, init, op.at);
        RunSound(b, from, init);
        EarnedSplits(b.limit, from, op.at, t);
        EarnedMonotone(b.limit, op.at, t);
        ReserveSame(b, Refill(Run(b, init), op.at)) by {
          RefillKeeps(Run(b, init), op.at);
        }
      }
    }
  }

  lemma RefillKeeps(b: Tokens, now: real)
    ensures Refill(b, now).limit == b.limit && Refill(b, now).headroom == b.headroom
  {
  }

  lemma ReserveBelowLimit(b: Tokens)
    requires Sound(b)
    ensures Reserve(b) < b.limit
  {
    Distribute(b.limit, b.headroom, 1.0 - b.headroom);
    NonPositive(-b.limit, 1.0 - b.headroom);
  }

  // ---- exactly when the plain bound holds ----

  /** The documented bound, with nothing granted for refusals. */
  ghost predicate WithinBound(b: Tokens, ops: seq<Op>) {
    Successes(b, ops) as real < b.limit - Reserve(b) + Earned(b.limit, 0.0, Clock(0.0, ops)) + 1.0
  }

  ghost predicate Starts(b: Tokens, limit: real, headroom: real) {
    && b.limit == limit && b.headroom == headroom
    && 0.0 <= b.tokens <= limit && b.lastRefill == Some(0.0)
  }

  lemma {:induction false} NothingForgiven(b: Tokens, ops: seq<Op>)
    requires Reserve(b) >= 1.0
    ensures Forgiven(b, ops) == 0.0
  {
    if ops != [] {
      NothingForgiven(b, ops[..|ops|-1]);
    }
  }

  function CycleTime(step: real, n: nat): real {
    if n == 0 then 0.0 else CycleTime(step, n - 1) + step
  }

  /** n rounds of: wait one step, take, be refused. */
  function Cycles(step: real, n: nat): seq<Op> {
    if n == 0 then []
    else Cycles(step, n - 1) + [Take(CycleTime(step, n))] + [On429(CycleTime(step, n), 0.0)]
  }

  lemma {:induction false} CyclesTime(limit: real, step: real, n: nat)
    ensures Earned(limit, 0.0, CycleTime(step, n)) == Mul(n as real, Mul(step, limit))
  {
    if n > 0 {
      CyclesTime(limit, step, n - 1);
      EarnedSplits(limit, 0.0, CycleTime(step, n - 1), CycleTime(step, n));
    }
  }

  lemma {:induction false} CyclesAllSucceed(b: Tokens, step: real, n: nat)
    requires b.limit > 0.0 && 0.0 <= b.headroom < 1.0 && step > 0.0
    requires b.tokens == 0.0 && b.blockedUntil == 0.0 && b.lastRefill == Some(0.0)
    requires Reserve(b) < Mul(step, b.limit) <= b.limit
    ensures Successes(b, Cycles(step, n)) == n
    ensures var t := CycleTime(step, n);
            && Run(b, Cycles(step, n)) == b.(lastRefill := Some(t), blockedUntil := t)
            && Monotone(0.0, Cycles(step, n)) && Clock(0.0, Cycles(step, n)) == t
  {
    if n > 0 {
      hide Apply, Succeeds, Run, Successes, Forgiven, Monotone, Reserve;
      var early, t := Cycles(step, n - 1), CycleTime(step, n);
      CyclesAllSucceed(b, step, n - 1);
      CycleRound(b, CycleTime(step, n - 1), step);
      RunSnoc(b, early, Take(t));
      RunSnoc(b, early + [Take(t)], On429(t, 0.0));
      assert !Succeeds(Run(b, early + [Take(t)]), On429(t, 0.0)) by {
        NotATake(Run(b, early + [Take(t)]), t);
      }
      MonotoneBack(0.0, early, Take(t));
      MonotoneBack(0.0, early + [Take(t)], On429(t, 0.0));
    }
  }

  lemma NotATake(b: Tokens, t: real)
    ensures !Succeeds(b, On429(t, 0.0))
  {
  }

  lemma MonotoneBack(from: real, ops: seq<Op>, op: Op)
    requires Monotone(from, ops) && Clock(from, ops) <= op.at
    ensures Monotone(from, ops + [op]) && Clock(from, ops + [op]) == op.at
  {
    assert (ops + [op])[..|ops|] == ops;
  }

  lemma CycleRound(b: Tokens, t: real, step: real)
    requires b.limit > 0.0 && step > 0.0 && Reserve(b) < Mul(step, b.limit) <= b.limit && b.tokens == 0.0
    ensures var e := b.(lastRefill := Some(t), blockedUntil := t);
            && Succeeds(e, Take(t + step))
            && var taken := Apply(e, Take(t + step));
               Apply(taken, On429(t + step, 0.0)) == b.(lastRefill := Some(t + step), blockedUntil := t + step)
  {
    assert t + step - t == step;
  }

  /** The plain bound holds on every run exactly when the reserve is worth a
      whole token; below that, refusals hand back what takes overdrew. */
  lemma BoundHoldsIff(limit: real, headroom: real)
    requires limit > 0.0 && 0.0 <= headroom < 1.0
    ensures (forall b: Tokens, ops: seq<Op> | Starts(b, limit, headroom) && Monotone(0.0, ops) :: WithinBound(b, ops))
       <==> Mul(limit, headroom) >= 1.0
  {
    if Mul(limit, headroom) >= 1.0 {
      forall b: Tokens, ops: seq<Op> | Starts(b, limit, headroom) && Monotone(0.0, ops)
        ensures WithinBound(b, ops)
      {
        TakesBounded(b, 0.0, ops, Clock(0.0, ops));
        NothingForgiven(b, ops);
      }
    } else {
      var b, ops := Overrun(limit, headroom);
      assert Starts(b, limit, headroom) && Monotone(0.0, ops) && !WithinBound(b, ops);
    }
  }

  lemma Overrun(limit: real, headroom: real) returns (b: Tokens, ops: seq<Op>)
    requires limit > 0.0 && 0.0 <= headroom < 1.0 && Mul(limit, headroom) < 1.0
    ensures Starts(b, limit, headroom) && Monotone(0.0, ops) && !WithinBound(b, ops)
  {
    hide Run, Successes, Earned, Monotone, Mul;
    b := Tokens(limit, headroom, 0.0, 0.0, Some(0.0));
    ReserveBelowLimit(b);
    ReserveNonNegative(b);
    var gain := CycleGain(Reserve(b), limit);
    var step := Quotient(gain, limit);
    var n := EnoughCycles(limit - Reserve(b) + 1.0, gain);
    CyclesTime(limit, step, n);
    CyclesAllSucceed(b, step, n);
    ops := Cycles(step, n);
  }

  /** What one cycle earns: above the reserve, below a token, within the cap. */
  lemma CycleGain(reserve: real, limit: real) returns (gain: real)
    requires reserve < 1.0 && reserve < limit
    ensures reserve < gain < 1.0 && gain <= limit
  {
    var half := (1.0 - reserve) / 2.0;
    gain := reserve + if half < limit - reserve then half else limit - reserve;
  }

  lemma EnoughCycles(x: real, gain: real) returns (n: nat)
    requires x > 0.0 && gain < 1.0
    ensures n as real > x + Mul(n as real, gain)
  {
    hide Mul;
    var rest := 1.0 - gain;
    var q := Quotient(x, rest);
    n := q.Floor + 1;
    ScaleUp(q, n as real, rest);
    Distribute(n as real, gain, rest);
  }

  lemma Quotient(x: real, y: real) returns (q: real)
    requires x > 0.0 && y > 0.0
    ensures q > 0.0 && Mul(q, y) == x
  {
    q := x / y;
    if q <= 0.0 {
      NonPositive(q, y);
    }
  }

  lemma NonPositive(q: real, y: real)
    requires q <= 0.0 && y > 0.0
    ensures Mul(q, y) <= 0.0
  {
  }

  lemma Distribute(x: real, y: real, rest: real)
    requires rest == 1.0 - y
    ensures Mul(x, rest) == x - Mul(x, y)
  {
  }

  lemma ScaleUp(x: real, y: real, k: real)
    requires x < y && k > 0.0
    ensures Mul(x, k) < Mul(y, k)
  {
  }

  // ---- a refusal's deadline ----

  lemma {:induction false} DeadlineStays(b: Tokens, ops: seq<Op>)
    requires forall i | 0 <= i < |ops| :: !ops[i].On429?
    ensures Run(b, ops).blockedUntil == b.blockedUntil
  {
    if ops != [] {
      DeadlineStays(b, ops[..|ops|-1]);
    }
  }

  /** Nothing is taken before the deadline of the latest refusal. */
  lemma NoTakeBeforeDeadline(b: Tokens, before: seq<Op>, refusal: Op, since: seq<Op>, op: Op)
    requires refusal.On429? && forall i | 0 <= i < |since| :: !since[i].On429?
    requires op.at < refusal.at + refusal.retryAfter
    ensures !Succeeds(Run(Run(b, before + [refusal]), since), op)
  {
    RunSnoc(b, before, refusal);
    DeadlineStays(Run(b, before + [refusal]), since);
  }

  // ---- the live object ----

  class RateBucket {
    ghost const owner: string   // the one worker this budget belongs to
    const limit: real
    const headroom: real
    var tokens: real
    var blockedUntil: real
    var lastRefill: Option<real>

    ghost function View(): Tokens
      reads this
    {
      Tokens(limit, headroom, tokens, blockedUntil, lastRefill)
    }

    constructor (limit: real, headroom: real, now: real, ghost owner: string)
      ensures View() == Tokens(limit, headroom, limit, 0.0, Some(now)) && this.owner == owner
    {
      this.limit, this.headroom, this.owner := limit, headroom, owner;
      tokens, blockedUntil, lastRefill := limit, 0.0, Some(now);
    }

    method RefillTo(now: real)
      modifies this
      ensures View() == Refill(old(View()), now)
    {
      if lastRefill.None? {
        lastRefill := Some(now);
        return;
      }
      var elapsed := now - lastRefill.value;
      if elapsed <= 0.0 {
        return;
      }
      lastRefill := Some(now);
      tokens := tokens + Mul(elapsed, limit);
      if tokens > limit {
        tokens := limit;
      }
    }

    method AvailableAt(now: real) returns (ok: bool)
      modifies this
      ensures View() == Refill(old(View()), now)
      ensures ok == CanTake(old(View()), now)
    {
      RefillTo(now);
      ok := !(now < blockedUntil) && tokens > Mul(limit, headroom);
    }

    method TakeAt(now: real) returns (ok: bool)
      modifies this
      ensures View() == Taken(old(View()), now)
      ensures ok == CanTake(old(View()), now)
    {
      RefillTo(now);
      if now < blockedUntil || tokens <= Mul(limit, headroom) {
        return false;
      }
      tokens := tokens - 1.0;
      ok := true;
    }

    method On429At(now: real, retryAfter: real)
      modifies this
      ensures View() == Refused(old(View()), now, retryAfter)
    {
      tokens := 0.0;
      lastRefill := Some(now);
      blockedUntil := now + retryAfter;
    }
  }
}

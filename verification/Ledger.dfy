/** The binding ledger across every session at once: which worker each session is
    counted against while starts, failovers and teardowns interleave at the grain
    of a single counter update (cmd/gateway/conn.go, internal/coord/failover.go). */
module Ledger {
  import Router

  /** One session, between counter updates. Recovering, the session may already name
      a candidate though its bind is still with the owner; Taking, both have one. */
  datatype Phase =
    | Unstarted
    | Opened(target: string)
    | Bound(target: string)
    | Running(worker: string)
    | Recovering(owner: string, named: string)
    | Taking(owner: string, taker: string)
    | Ended

  datatype Ledger = Ledger(ids: seq<string>, binds: seq<int>, sessions: seq<Phase>)

  datatype Step =
    | Join(id: string)
    | Pick(i: nat, id: string)
    | Refuse(i: nat)
    | Bind(i: nat)
    | Record(i: nat)
    | Fail(i: nat)
    | Install(i: nat, id: string)
    | RollBack(i: nat)
    | GiveUp(i: nat)
    | Take(i: nat)
    | Drop(i: nat)
    | TearDown(i: nat)

  ghost predicate Shaped(l: Ledger) { |l.binds| == |l.ids| }

  predicate Enabled(l: Ledger, step: Step) {
    if step.Join? then step.id !in l.ids
    else
      step.i < |l.sessions| &&
      var p := l.sessions[step.i];
      match step
      case Pick(_, id) => p.Unstarted? && id in l.ids
      case Refuse(_) => p.Unstarted?
      case Bind(_) => p.Opened?
      case Record(_) => p.Bound?
      case Fail(_) => p.Running?
      case Install(_, id) => p.Recovering? && id in l.ids && id != p.owner
      case RollBack(_) => p.Recovering?
      case GiveUp(_) => p.Recovering? && p.named == p.owner
      case Take(_) => p.Recovering? && p.named != p.owner
      case Drop(_) => p.Taking?
      case TearDown(_) => p.Running?
      case Join(_) => true
  }

  /** The session's next phase. */
  function After(p: Phase, step: Step): Phase {
    match (step, p)
    case (Pick(_, id), Unstarted) => Opened(id)
    case (Refuse(_), Unstarted) => Ended
    case (Bind(_), Opened(id)) => Bound(id)
    case (Record(_), Bound(id)) => Running(id)
    case (Fail(_), Running(id)) => Recovering(id, id)
    case (Install(_, id), Recovering(owner, _)) => Recovering(owner, id)
    case (RollBack(_), Recovering(owner, _)) => Recovering(owner, owner)
    case (GiveUp(_), Recovering(owner, _)) => Running(owner)
    case (Take(_), Recovering(owner, id)) => Taking(owner, id)
    case (Drop(_), Taking(_, id)) => Running(id)
    case (TearDown(_), Running(_)) => Ended
    case (_, _) => p
  }

  /** What the step does to the counters. A worker that cannot be found is left alone. */
  ghost function Counters(l: Ledger, step: Step): (binds: seq<int>)
    requires Shaped(l) && Enabled(l, step)
    ensures |binds| == |l.binds| + if step.Join? then 1 else 0
  {
    match step
    case Join(_) => l.binds + [0]
    case Bind(i) => Router.AddBind(l.binds, l.ids, l.sessions[i].target, 1)
    case Take(i) => Router.AddBind(l.binds, l.ids, l.sessions[i].named, 1)
    case Drop(i) => Router.AddBind(l.binds, l.ids, l.sessions[i].owner, -1)
    case TearDown(i) => Router.AddBind(l.binds, l.ids, l.sessions[i].worker, -1)
    case _ => l.binds
  }

  ghost function Next(l: Ledger, step: Step): (l': Ledger)
    requires Shaped(l) && Enabled(l, step)
    ensures Shaped(l')
  {
    if step.Join? then Ledger(l.ids + [step.id], Counters(l, step), l.sessions)
    else Ledger(l.ids, Counters(l, step), l.sessions[step.i := After(l.sessions[step.i], step)])
  }

  ghost predicate Leads(l: Ledger, step: Step, l': Ledger) {
    Shaped(l) && Enabled(l, step) && l' == Next(l, step)
  }

  ghost predicate Steps(l: Ledger, l': Ledger) {
    exists step :: Leads(l, step, l')
  }

  /** A run: sessions and workers in any number, one step at a time. */
  ghost predicate Run(run: seq<Ledger>) {
    && run != []
    && (if |run| == 1 then
          && Shaped(run[0])
          && (forall k | 0 <= k < |run[0].binds| :: run[0].binds[k] == 0)
          && forall i | 0 <= i < |run[0].sessions| :: run[0].sessions[i] == Unstarted
        else
          && Run(run[..|run|-1])
          && Steps(run[|run|-2], run[|run|-1]))
  }

  // ---- what a session is good for ----

  function Owes(p: Phase, id: string): nat {
    match p
    case Bound(w) => if w == id then 1 else 0
    case Running(w) => if w == id then 1 else 0
    case Recovering(o, _) => if o == id then 1 else 0
    case Taking(o, t) => (if o == id then 1 else 0) + (if t == id then 1 else 0)
    case _ => 0
  }

  /** Binds all sessions together hold on a worker. */
  function Owed(ps: seq<Phase>, id: string): nat {
    if ps == [] then 0 else Owed(ps[..|ps|-1], id) + Owes(ps[|ps|-1], id)
  }

  /** Started sessions that name the worker. */
  function Naming(ps: seq<Phase>, id: string): nat {
    if ps == [] then 0
    else Naming(ps[..|ps|-1], id) + if ps[|ps|-1] == Running(id) then 1 else 0
  }

  predicate Known(p: Phase, ids: seq<string>) {
    match p
    case Opened(w) => w in ids
    case Bound(w) => w in ids
    case Running(w) => w in ids
    case Recovering(o, n) => o in ids && n in ids
    case Taking(o, t) => o in ids && t in ids
    case _ => true
  }

  /** Every counter is what the sessions owe, and no session names a stranger. */
  ghost predicate Agrees(l: Ledger) {
    && Shaped(l)
    && (forall k | 0 <= k < |l.ids| :: l.binds[k] == Owed(l.sessions, l.ids[k]))
    && forall i | 0 <= i < |l.sessions| :: Known(l.sessions[i], l.ids)
  }

  lemma {:induction false} OwedUpdate(ps: seq<Phase>, i: nat, p: Phase, id: string)
    requires i < |ps|
    ensures Owed(ps[i := p], id) == Owed(ps, id) - Owes(ps[i], id) + Owes(p, id)
  {
    var init := ps[..|ps|-1];
    if i < |ps| - 1 {
      OwedUpdate(init, i, p, id);
      assert ps[i := p][..|ps|-1] == init[i := p];
    } else {
      assert ps[i := p][..|ps|-1] == init;
    }
  }

  lemma {:induction false} OwedNothing(ps: seq<Phase>, ids: seq<string>, id: string)
    requires (forall i | 0 <= i < |ps| :: Known(ps[i], ids)) && id !in ids
    ensures Owed(ps, id) == 0
  {
    if ps != [] {
      OwedNothing(ps[..|ps|-1], ids, id);
    }
  }

  lemma {:induction false} OwedAtRest(ps: seq<Phase>, id: string)
    requires forall i | 0 <= i < |ps| :: ps[i].Running? || ps[i].Unstarted? || ps[i].Ended?
    ensures Owed(ps, id) == Naming(ps, id)
    ensures (forall i | 0 <= i < |ps| :: !ps[i].Running?) ==> Owed(ps, id) == 0
  {
    if ps != [] {
      OwedAtRest(ps[..|ps|-1], id);
    }
  }

  lemma StepAgrees(l: Ledger, step: Step)
    requires Agrees(l) && Enabled(l, step)
    ensures Agrees(Next(l, step))
  {
    hide Owed;
    var l' := Next(l, step);
    if step.Join? {
      OwedNothing(l.sessions, l.ids, step.id);
    } else {
      forall k | 0 <= k < |l'.ids| ensures l'.binds[k] == Owed(l'.sessions, l'.ids[k]) {
        OwedUpdate(l.sessions, step.i, l'.sessions[step.i], l.ids[k]);
      }
    }
  }

  /** No session is between two counter updates. */
  ghost predicate AtRest(l: Ledger) {
    forall i | 0 <= i < |l.sessions| :: l.sessions[i].Running? || l.sessions[i].Unstarted? || l.sessions[i].Ended?
  }

  ghost predicate NoneLeft(l: Ledger) {
    forall i | 0 <= i < |l.sessions| :: l.sessions[i].Unstarted? || l.sessions[i].Ended?
  }

  lemma Settles(l: Ledger)
    requires Agrees(l)
    ensures forall k | 0 <= k < |l.ids| :: l.binds[k] >= 0
    ensures AtRest(l) ==> forall k | 0 <= k < |l.ids| :: l.binds[k] == Naming(l.sessions, l.ids[k])
    ensures NoneLeft(l) ==> forall k | 0 <= k < |l.ids| :: l.binds[k] == 0
  {
    hide Owed, Naming;
    if AtRest(l) {
      forall k | 0 <= k < |l.ids|
        ensures Owed(l.sessions, l.ids[k]) == Naming(l.sessions, l.ids[k])
        ensures NoneLeft(l) ==> Owed(l.sessions, l.ids[k]) == 0
      {
        OwedAtRest(l.sessions, l.ids[k]);
      }
    }
  }

  lemma BeginsAgreed(l: Ledger)
    requires Shaped(l) && (forall k | 0 <= k < |l.binds| :: l.binds[k] == 0)
    requires forall i | 0 <= i < |l.sessions| :: l.sessions[i] == Unstarted
    ensures Agrees(l)
  {
    forall k | 0 <= k < |l.ids| ensures Owed(l.sessions, l.ids[k]) == 0 {
      OwedAtRest(l.sessions, l.ids[k]);
    }
  }

  /** However starts, failovers and teardowns interleave, each worker's counter is
      what the sessions owe it: never negative; between transfers exactly the
      number of sessions that name it; and zero once none is left. */
  lemma {:induction false} LedgerBalances(run: seq<Ledger>)
    requires Run(run)
    ensures var l := run[|run|-1];
            && Agrees(l)
            && (forall k | 0 <= k < |l.ids| :: l.binds[k] >= 0)
            && (AtRest(l) ==> forall k | 0 <= k < |l.ids| :: l.binds[k] == Naming(l.sessions, l.ids[k]))
            && (NoneLeft(l) ==> forall k | 0 <= k < |l.ids| :: l.binds[k] == 0)
  {
    hide Agrees, AtRest, NoneLeft, Enabled, Next;
    var l := run[|run|-1];
    if |run| > 1 {
      LedgerBalances(run[..|run|-1]);
      var step :| Leads(run[|run|-2], step, l);
      StepAgrees(run[|run|-2], step);
    } else {
      BeginsAgreed(l);
    }
    Settles(l);
  }

  /** With nobody in between, a take and a drop are the transfer the router's
      counters see. */
  lemma TransferSteps(l: Ledger, i: nat)
    requires Shaped(l) && Enabled(l, Take(i))
    ensures var l' := Next(Next(l, Take(i)), Drop(i));
            && l'.binds == Router.TransferBind(l.binds, l.ids, l.sessions[i].named, l.sessions[i].owner)
            && l'.sessions[i] == Running(l.sessions[i].named)
  {
  }

  /** A failed recovery, tried on any candidates, is no step of the ledger at all. */
  lemma FailedRecovery(l: Ledger, i: nat, id: string)
    requires Shaped(l) && i < |l.sessions| && l.sessions[i].Running? && id in l.ids && id != l.sessions[i].worker
    ensures Next(Next(Next(Next(l, Fail(i)), Install(i, id)), RollBack(i)), GiveUp(i)) == l
  {
    var p := l.sessions[i];
    assert l.sessions[i := Recovering(p.worker, p.worker)][i := Recovering(p.worker, id)]
        == l.sessions[i := Recovering(p.worker, id)];
    assert l.sessions[i := Recovering(p.worker, id)][i := Recovering(p.worker, p.worker)][i := p] == l.sessions;
  }
}

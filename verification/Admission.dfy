/** The session ceiling: internal/admission/admission.go. First the controller as
    one caller sees it, then every interleaving of many callers at the grain of
    a load, a compare-and-swap and a decrement. */
module Admission {

  datatype Config = Config(maxSessions: int, softSessions: int)

  const DEFAULT_CONFIG := Config(200, 150)

  /** The envelope New settles on. */
  function Settled(cfg: Config): (r: Config)
    ensures r.maxSessions > 0 && 0 <= r.softSessions <= r.maxSessions
    ensures cfg.maxSessions > 0 ==> r.maxSessions == cfg.maxSessions
    ensures cfg.maxSessions > 0 && 0 < cfg.softSessions <= cfg.maxSessions ==> r == cfg
  {
    var c := if cfg.maxSessions <= 0 then DEFAULT_CONFIG else cfg;
    if c.softSessions <= 0 || c.softSessions > c.maxSessions then c.(softSessions := c.maxSessions * 3 / 4) else c
  }

  class Controller {
    const cfg: Config
    var admitted: int
    var highWater: int

    constructor (cfg: Config)
      ensures this.cfg == Settled(cfg) && admitted == 0 && highWater == 0
    {
      this.cfg, admitted, highWater := Settled(cfg), 0, 0;
    }

    /** One caller's Admit, undisturbed. */
    method Admit() returns (refused: bool)
      modifies this
      ensures refused == (old(admitted) >= cfg.maxSessions)
      ensures admitted == old(admitted) + if refused then 0 else 1
      ensures highWater == if refused || admitted < old(highWater) then old(highWater) else admitted
    {
      var cur := admitted;
      if cur >= cfg.maxSessions {
        return true;
      }
      admitted := cur + 1;
      if cur + 1 > highWater {
        highWater := cur + 1;
      }
      refused := false;
    }

    method Release()
      modifies this`admitted
      ensures admitted == if old(admitted) > 0 then old(admitted) - 1 else 0
    {
      admitted := admitted - 1;
      if admitted < 0 {
        admitted := 0;
      }
    }

    predicate Degraded()
      reads this
    {
      admitted > cfg.softSessions
    }

    /** Widening chunks comes before refusing anyone exactly when the soft threshold
        is below the ceiling; set equal to it, chunks are never widened. */
    lemma DegradesFirst()
      requires cfg == Settled(cfg) && admitted <= cfg.maxSessions
      ensures admitted >= cfg.maxSessions ==> (Degraded() <==> cfg.softSessions < cfg.maxSessions)
      ensures cfg.softSessions == cfg.maxSessions ==> !Degraded()
    {
    }
  }

  // ---- any number of callers ----

  /** Where one session's thread is: about to load the counter, holding the value
      it loaded, admitted but with the high-water mark still to note, admitted, or
      past its decrement with the result in hand. */
  datatype Phase = Outside | Loading | Loaded(cur: int) | Noting(n: int) | Holding | Released(left: int)

  /** The counter and the high-water mark are shared. */
  datatype Machine = Machine(counter: int, highWater: int, threads: seq<Phase>)

  predicate Holds(p: Phase) { p.Noting? || p.Holding? }

  /** Sessions that have a slot. */
  function Holders(ps: seq<Phase>): nat {
    if ps == [] then 0 else Holders(ps[..|ps|-1]) + if Holds(ps[|ps|-1]) then 1 else 0
  }

  function Larger(a: int, b: int): int { if a > b then a else b }

  /** What thread t's next instruction does. */
  function Next(max: int, m: Machine, t: nat): Machine
    requires t < |m.threads|
  {
    match m.threads[t]
    case Outside => m.(threads := m.threads[t := Loading])
    case Loading => m.(threads := m.threads[t := if m.counter >= max then Outside else Loaded(m.counter)])
    case Loaded(cur) =>
      if m.counter == cur then m.(counter := cur + 1, threads := m.threads[t := Noting(cur + 1)])
      else m.(threads := m.threads[t := Loading])
    case Noting(n) => m.(highWater := Larger(m.highWater, n), threads := m.threads[t := Holding])
    case Holding => m.(counter := m.counter - 1, threads := m.threads[t := Released(m.counter - 1)])
    case Released(left) => m.(counter := if left < 0 then 0 else m.counter, threads := m.threads[t := Outside])
  }

  ghost predicate Steps(max: int, m: Machine, m': Machine) {
    exists t: nat :: t < |m.threads| && m' == Next(max, m, t)
  }

  /** A run: any number of threads, one instruction of one of them at a time. */
  ghost predicate Run(max: int, run: seq<Machine>) {
    && run != []
    && (if |run| == 1 then
          && run[0].counter == 0 && run[0].highWater == 0
          && forall t | 0 <= t < |run[0].threads| :: run[0].threads[t] == Outside
        else Run(max, run[..|run|-1]) && Steps(max, run[|run|-2], run[|run|-1]))
  }

  /** The largest the counter ever was. */
  function Peak(run: seq<Machine>): int {
    if run == [] then 0 else Larger(Peak(run[..|run|-1]), run[|run|-1].counter)
  }

  ghost predicate Safe(max: int, m: Machine) {
    && m.counter == Holders(m.threads) <= max
    && forall t | 0 <= t < |m.threads| ::
         (m.threads[t].Released? ==> m.threads[t].left >= 0) && (m.threads[t].Loaded? ==> m.threads[t].cur < max)
  }

  /** The mark has the peak, or a thread is about to note it. */
  ghost predicate Marked(m: Machine, peak: int) {
    && m.counter <= peak && m.highWater <= peak
    && (forall t | 0 <= t < |m.threads| && m.threads[t].Noting? :: m.threads[t].n <= peak)
    && (m.highWater == peak || exists t :: 0 <= t < |m.threads| && m.threads[t] == Noting(peak))
  }

  lemma {:induction false} HoldersUpdate(ps: seq<Phase>, t: nat, p: Phase)
    requires t < |ps|
    ensures Holders(ps[t := p]) == Holders(ps) - (if Holds(ps[t]) then 1 else 0) + (if Holds(p) then 1 else 0)
  {
    var init := ps[..|ps|-1];
    if t < |ps| - 1 {
      HoldersUpdate(init, t, p);
      assert ps[t := p][..|ps|-1] == init[t := p];
    } else {
      assert ps[t := p][..|ps|-1] == init;
    }
  }

  lemma {:induction false} HoldersNone(ps: seq<Phase>)
    ensures (forall t | 0 <= t < |ps| :: !Holds(ps[t])) <==> Holders(ps) == 0
  {
    if ps != [] {
      HoldersNone(ps[..|ps|-1]);
    }
  }

  lemma StepSafe(max: int, m: Machine, t: nat)
    requires Safe(max, m) && t < |m.threads|
    ensures Safe(max, Next(max, m, t))
  {
    HoldersUpdate(m.threads, t, Next(max, m, t).threads[t]);
  }

  lemma StepMarked(max: int, m: Machine, t: nat, peak: int)
    requires Marked(m, peak) && Safe(max, m) && t < |m.threads|
    ensures Marked(Next(max, m, t), Larger(peak, Next(max, m, t).counter))
  {
    var m' := Next(max, m, t);
    var peak' := Larger(peak, m'.counter);
    if m'.highWater != peak' {
      if peak' > peak {
        assert m'.threads[t] == Noting(peak');
      } else {
        var u :| 0 <= u < |m.threads| && m.threads[u] == Noting(peak);
        assert u != t && m'.threads[u] == Noting(peak);
      }
    }
  }

  /** However the callers interleave, the counter is the number of sessions with a
      slot and never passes the ceiling, and once every admission has been noted
      the mark is the most there ever were. */
  lemma {:induction false} CeilingHolds(max: int, run: seq<Machine>)
    requires max > 0 && Run(max, run)
    ensures var m := run[|run|-1];
            && Safe(max, m) && Marked(m, Peak(run))
            && ((forall t | 0 <= t < |m.threads| :: !m.threads[t].Noting?) ==> m.highWater == Peak(run))
            && ((forall t | 0 <= t < |m.threads| :: !Holds(m.threads[t])) ==> m.counter == 0)
  {
    var last := run[|run|-1];
    HoldersNone(last.threads);
    if |run| > 1 {
      var m := run[|run|-2];
      CeilingHolds(max, run[..|run|-1]);
      var t: nat :| t < |m.threads| && last == Next(max, m, t);
      StepSafe(max, m, t);
      StepMarked(max, m, t, Peak(run[..|run|-1]));
    } else {
      assert Peak(run[..0]) == 0;
    }
  }

  /** A caller is refused only while every slot is taken, and no decrement ever
      finds the counter below zero. */
  lemma RefusedWhenFull(max: int, run: seq<Machine>, t: nat)
    requires max > 0 && Run(max, run) && t < |run[|run|-1].threads|
    ensures var m := run[|run|-1];
            && (m.threads[t].Loading? ==> (Next(max, m, t).threads[t] == Outside <==> Holders(m.threads) == max))
            && (m.threads[t].Released? ==> Next(max, m, t).counter == m.counter)
  {
    CeilingHolds(max, run);
  }

  /** The controller's Admit and Release are the thread's instructions run without
      a break. */
  lemma Alone(max: int, m: Machine, t: nat)
    requires Safe(max, m) && t < |m.threads| && m.threads[t] == Outside
    ensures var m1 := Next(max, m, t);
            if m.counter >= max then Next(max, m1, t) == m
            else
              var m4 := Next(max, Next(max, Next(max, m1, t), t), t);
              && m4 == m.(counter := m.counter + 1, highWater := Larger(m.highWater, m.counter + 1),
                          threads := m.threads[t := Holding])
              && Next(max, Next(max, m4, t), t) == m4.(counter := m.counter, threads := m.threads)
  {
    assert m.threads[t := Loading][t := Outside] == m.threads;
    if m.counter < max {
      var c := m.counter;
      assert m.threads[t := Loading][t := Loaded(c)] == m.threads[t := Loaded(c)];
      assert m.threads[t := Loaded(c)][t := Noting(c + 1)] == m.threads[t := Noting(c + 1)];
      assert m.threads[t := Noting(c + 1)][t := Holding] == m.threads[t := Holding];
      assert m.threads[t := Holding][t := Released(c)][t := Outside] == m.threads;
      StepSafe(max, m, t);
    }
  }
}

/** Resuming from a checkpoint under the gated pipeline (RecoverSameModel in
    internal/coord/failover.go, Recut in internal/audio/vad.go): the tail is
    replayed by an idle machine. */
module Resume {
  import opened Wrappers
  import opened Audio
  import opened Checkpoint
  import opened Journal
  import opened Vad
  import opened Replay
  import Versions

  // ---- the replayed machine is idle, or the live one but for its chunk ----

  /** It has not started. */
  ghost predicate IdleNow(c: Config, rs: seq<Record>) {
    !Run(c, Fresh, rs).active && Run(c, Fresh, rs).held == NoPending && Vad.Recut(c, rs) == []
  }

  ghost predicate IdleOrTwin(c: Config, rs: seq<Record>, n: nat)
    requires n <= |Unclosed(c, rs)|
  {
    var short := Suffix(Unclosed(c, rs), n);
    if Live(c, rs).active then IdleNow(c, short) || Twin(Live(c, rs), Run(c, Fresh, short)) else IdleOver(c, short)
  }

  lemma IdleOverNow(c: Config, rs: seq<Record>)
    requires IdleOver(c, rs)
    ensures IdleNow(c, rs)
  {
  }

  lemma IdleSteps(c: Config, rs: seq<Record>, n: nat, r: Record)
    requires ValidConfig(c) && n <= |Unclosed(c, rs)| && IdleNow(c, Suffix(Unclosed(c, rs), n))
    requires !Ends(c, Live(c, rs), r) && (Live(c, rs).active || Onset(c, Live(c, rs), r))
    ensures var short := Suffix(Unclosed(c, rs), n) + [r];
            IdleNow(c, short) || Twin(Live(c, rs + [r]), Run(c, Fresh, short))
  {
    hide Live, Unclosed, Suffix, Keep, CutState, CutOut, Trim, KeptAll;
    LiveSnoc(c, rs, r);
    ShapeAlways(c, rs);
    RunSnoc(c, Fresh, Suffix(Unclosed(c, rs), n), r);
  }

  lemma TwinOn(c: Config, rs: seq<Record>, n: nat, r: Record)
    requires n <= |Unclosed(c, rs)| && Live(c, rs).active && !Ends(c, Live(c, rs), r)
    requires Twin(Live(c, rs), Run(c, Fresh, Suffix(Unclosed(c, rs), n)))
    ensures Twin(Live(c, rs + [r]), Run(c, Fresh, Suffix(Unclosed(c, rs), n) + [r]))
  {
    hide Live, Unclosed, Suffix, Twin, Step;
    LiveSnoc(c, rs, r);
    RunSnoc(c, Fresh, Suffix(Unclosed(c, rs), n), r);
    TwinStep(c, Live(c, rs), Run(c, Fresh, Suffix(Unclosed(c, rs), n)), r);
  }

  lemma IdleOrTwinNone(c: Config, rs: seq<Record>)
    ensures IdleOrTwin(c, rs, 0)
  {
    hide Live, Unclosed;
    assert Suffix(Unclosed(c, rs), 0) == [];
    IdleOverNone(c);
    IdleOverNow(c, []);
  }

  lemma IdleOrTwinClose(c: Config, rs: seq<Record>, e: Record, n: nat)
    requires ValidConfig(c) && Ends(c, Live(c, rs), e) && n <= |Unclosed(c, rs + [e])|
    ensures IdleOrTwin(c, rs + [e], n)
  {
    hide Live, Unclosed, Suffix, IdleOver, Needed, Ends;
    ShortClose(c, rs, e, n);
    LiveSnoc(c, rs, e);
    EndsIdle(c, Live(c, rs), e);
  }

  lemma {:induction false} IdleOrTwinAlways(c: Config, rs: seq<Record>, n: nat)
    requires ValidConfig(c) && Increasing(rs, 0) && n <= |Unclosed(c, rs)|
    ensures IdleOrTwin(c, rs, n)
  {
    if rs == [] || n == 0 {
      IdleOrTwinNone(c, rs);
    } else {
      hide Live, Unclosed, Ends, IdleOrTwin;
      var init, r := rs[..|rs|-1], rs[|rs|-1];
      assert rs == init + [r];
      UnclosedSnoc(c, init, r);
      if Ends(c, Live(c, init), r) {
        IdleOrTwinClose(c, init, r, n);
      } else {
        IdleOrTwinAlways(c, init, n - 1);
        IdleOrTwinNext(c, init, r, n - 1);
      }
    }
  }

  lemma EndsIdle(c: Config, m: Machine, r: Record)
    requires Ends(c, m, r)
    ensures !Onto(c, m, r).active
  {
    hide Keep;
  }

  lemma IdleOrTwinNext(c: Config, rs: seq<Record>, r: Record, n: nat)
    requires ValidConfig(c) && Increasing(rs + [r], 0) && n <= |Unclosed(c, rs)| && IdleOrTwin(c, rs, n)
    requires !Ends(c, Live(c, rs), r) && n + 1 <= |Unclosed(c, rs + [r])|
    ensures IdleOrTwin(c, rs + [r], n + 1)
  {
    hide Live, PauseOf, Unclosed, Suffix, IdleNow, IdleOver, Twin, Keep, Needed;
    var u := Unclosed(c, rs);
    assert (rs + [r])[..|rs|] == rs;
    UnclosedSnoc(c, rs, r);
    SuffixSnoc(u, n, r);
    LiveSnoc(c, rs, r);
    if Live(c, rs).active {
      if IdleNow(c, Suffix(u, n)) {
        IdleSteps(c, rs, n, r);
      } else {
        TwinOn(c, rs, n, r);
      }
    } else {
      if Onset(c, Live(c, rs), r) {
        IdleOverNow(c, Suffix(u, n));
        IdleSteps(c, rs, n, r);
      } else {
        ShortIdle(c, rs, n, r);
      }
    }
  }

  // ---- what the tail is ----

  lemma {:induction false} AfterMonotone(rs: seq<Record>, p: nat, q: nat)
    requires p <= q
    ensures |After(rs, q)| <= |After(rs, p)|
  {
    if rs != [] {
      AfterMonotone(rs[..|rs|-1], p, q);
    }
  }

  /** What a full replay should read is what came after the last utterance's end. */
  lemma {:induction false} UnclosedAfter(c: Config, rs: seq<Record>)
    requires ValidConfig(c) && Increasing(rs, 0)
    ensures Unclosed(c, rs) == After(rs, Versions.Top(c, rs)) && Versions.Top(c, rs) <= LastSeq(rs, 0)
  {
    if rs != [] {
      hide Live, Unclosed, Ends;
      var init, r := rs[..|rs|-1], rs[|rs|-1];
      assert rs == init + [r];
      UnclosedSnoc(c, init, r);
      VoicedEndBy(init);
      if Ends(c, Live(c, init), r) {
        SilenceAfter(init);
        AfterSnoc(init, r, VoicedEnd(init));
      } else {
        UnclosedAfter(c, init);
        AfterSnoc(init, r, Versions.Top(c, init));
      }
    }
  }

  /** Past any point after that, the tail is the end of it. */
  lemma TailIsSuffix(c: Config, rs: seq<Record>, q: nat)
    requires ValidConfig(c) && Increasing(rs, 0) && Versions.Top(c, rs) <= q
    ensures |After(rs, q)| <= |Unclosed(c, rs)| && After(rs, q) == Suffix(Unclosed(c, rs), |After(rs, q)|)
  {
    hide Unclosed, Versions.Top, After, Increasing;
    UnclosedAfter(c, rs);
    AfterMonotone(rs, Versions.Top(c, rs), q);
    var xs, ys := AfterSplits(rs, 0, q);
    var us, vs := AfterSplits(rs, 0, Versions.Top(c, rs));
    assert ys == rs[|rs| - |ys|..] && vs == rs[|rs| - |vs|..];
    assert rs[|rs| - |vs|..][|vs| - |ys|..] == rs[|rs| - |ys|..];
  }

  lemma {:induction false} ClimbsBound(ps: seq<Piece>, floor: nat, i: nat)
    requires Versions.Climbs(ps, floor) && i < |ps|
    ensures floor < ps[i].seqEnd <= LastEnd(ps, floor)
  {
    if i < |ps| - 1 {
      ClimbsBound(ps[..|ps|-1], floor, i);
    }
  }

  /** The chunks cut so far end after the last utterance and by the last frame. */
  lemma ChunkEnds(c: Config, rs: seq<Record>, i: nat)
    requires ValidConfig(c) && Increasing(rs, 0) && i < |Since(c, rs)|
    ensures Versions.Top(c, rs) < Since(c, rs)[i].seqEnd <= LastSeq(rs, 0)
  {
    hide Live, Since;
    Versions.RisingAlways(c, rs);
    ClimbsBound(Since(c, rs), Versions.Top(c, rs), i);
  }

  // ---- chunks in progress that will come to the same ----

  predicate SameChunk(p: Pending, q: Pending) {
    match p
    case NoPending => q == NoPending
    case Pending(start, _, bytes, samples) =>
      q.Pending? && q.start == start && q.bytes == bytes && q.samples == samples
  }

  lemma {:induction false} SameCut(limit: nat, p: Pending, q: Pending, rs: seq<Record>)
    requires SameChunk(p, q)
    ensures SameChunk(CutState(limit, p, rs), CutState(limit, q, rs)) && CutOut(limit, p, rs) == CutOut(limit, q, rs)
  {
    if rs != [] {
      SameCut(limit, p, q, rs[..|rs|-1]);
    }
  }

  ghost predicate WirePending(p: Pending) {
    p.Pending? ==> |p.bytes| == 2 * p.samples
  }

  lemma {:induction false} WireCut(limit: nat, p: Pending, rs: seq<Record>)
    requires WirePending(p) && Wire(rs)
    ensures WirePending(CutState(limit, p, rs))
  {
    if rs != [] {
      WireCut(limit, p, rs[..|rs|-1]);
    }
  }

  ghost predicate WireMachine(m: Machine) {
    Wire(m.preRoll) && WirePending(m.held)
  }

  lemma WireStep(c: Config, m: Machine, r: Record)
    requires WireMachine(m) && |r.payload| == 2 * r.samples
    ensures WireMachine(Step(c, m, r))
  {
    hide Trim;
    KeepWire(c, m.preRoll, r);
    KeepWire(c, Keep(c, m.preRoll, r), r);
    WireCut(c.chunkSamples, m.held, Keep(c, m.preRoll, r));
  }

  lemma KeepWire(c: Config, pre: seq<Record>, r: Record)
    requires Wire(pre) && |r.payload| == 2 * r.samples
    ensures Wire(Keep(c, pre, r))
  {
    hide Trim;
    var limit, all := PreRollLimit(c), pre + [Kept(r)];
    forall i | 0 <= i < |Trim(limit, all)| ensures |Trim(limit, all)[i].payload| == 2 * Trim(limit, all)[i].samples {
      TrimMembers(limit, all, i);
    }
  }

  lemma {:induction false} WireRun(c: Config, rs: seq<Record>)
    requires Wire(rs)
    ensures WireMachine(Run(c, Fresh, rs))
  {
    if rs != [] {
      hide Step;
      WireRun(c, rs[..|rs|-1]);
      WireStep(c, Run(c, Fresh, rs[..|rs|-1]), rs[|rs|-1]);
    }
  }

  lemma {:induction false} WireLive(c: Config, rs: seq<Record>)
    requires Wire(rs)
    ensures WireMachine(Live(c, rs))
  {
    if rs != [] {
      hide Step, Ends;
      WireLive(c, rs[..|rs|-1]);
      WireStep(c, Live(c, rs[..|rs|-1]), rs[|rs|-1]);
    }
  }

  // ---- exactly when a restored checkpoint resumes the utterance ----

  /** What a recovery leaves behind the handle when tail has followed: the first k chunks,
      which the checkpoint stands for, and a replay of the journal past them; or a replay
      of everything uncommitted. */
  function Rebuilt(c: Config, rs: seq<Record>, tail: seq<Record>, k: nat, restored: bool): seq<Piece>
    requires 0 < k <= |Since(c, rs)|
  {
    if restored then Since(c, rs)[..k] + Vad.Recut(c, After(rs + tail, Since(c, rs)[k-1].seqEnd))
    else Vad.Recut(c, Unclosed(c, rs + tail))
  }

  /** The tail heard so far has already raised an onset of its own that fed what the live
      machine fed. */
  ghost predicate CaughtUp(c: Config, rs: seq<Record>, k: nat)
    requires 0 < k <= |Since(c, rs)|
  {
    var tail := After(rs, Since(c, rs)[k-1].seqEnd);
    && Run(c, Fresh, tail).active && Vad.Recut(c, tail) == Since(c, rs)[k..]
    && SameChunk(Run(c, Fresh, tail).held, Live(c, rs).held)
  }

  ghost predicate Goes(c: Config, rs: seq<Record>, tail: seq<Record>) {
    Increasing(tail, LastSeq(rs, 0)) && Wire(tail) && Within(c, rs, tail)
  }

  /** Nothing about the tail changes when more follows. */
  lemma TailGoesOn(c: Config, rs: seq<Record>, tail: seq<Record>, k: nat)
    requires ValidConfig(c) && Increasing(rs, 0) && Increasing(tail, LastSeq(rs, 0)) && 0 < k <= |Since(c, rs)|
    ensures var q := Since(c, rs)[k-1].seqEnd;
            After(rs + tail, q) == After(rs, q) + tail
  {
    hide Live, Since;
    var q := Since(c, rs)[k-1].seqEnd;
    ChunkEnds(c, rs, k - 1);
    AfterConcat(rs, tail, q);
    AfterAbove(tail, LastSeq(rs, 0), q);
  }

  lemma {:induction false} AfterAbove(tail: seq<Record>, floor: nat, q: nat)
    requires Increasing(tail, floor) && q <= floor
    ensures After(tail, q) == tail
  {
    if tail != [] {
      AfterAbove(tail[..|tail|-1], floor, q);
      IncreasingPairs(tail, floor, |tail| - 1, |tail| - 1);
    }
  }

  lemma ResumesOn(c: Config, rs: seq<Record>, tail: seq<Record>, k: nat)
    requires ValidConfig(c) && Increasing(rs, 0) && Live(c, rs).active && 0 < k <= |Since(c, rs)|
    requires CaughtUp(c, rs, k) && Goes(c, rs, tail)
    ensures Rebuilt(c, rs, tail, k, true) == Since(c, rs + tail)
  {
    hide Live, Since, Run, RunOut, Twin, Unclosed, Wire, SameChunk, Increasing;
    var q := Since(c, rs)[k-1].seqEnd;
    var a := After(rs, q);
    ChunkEnds(c, rs, k - 1);
    TailGoesOn(c, rs, tail, k);
    TailIsSuffix(c, rs, q);
    IdleOrTwinAlways(c, rs, |a|);
    RunConcat(c, Fresh, a, tail);
    FollowsWithin(c, rs, Run(c, Fresh, a), tail);
    SinceWithin(c, rs, tail);
    SameCut(c.chunkSamples, Run(c, Fresh, a).held, Live(c, rs).held, tail);
    assert Since(c, rs)[..k] + Since(c, rs)[k..] == Since(c, rs);
    Associate(Since(c, rs)[..k], Since(c, rs)[k..], CutOut(c.chunkSamples, Live(c, rs).held, tail));
  }

  // ---- a tail that shows it has not caught up ----

  /** A voiced frame longer than pre-roll, and long enough to raise an onset. */
  function LongFrame(c: Config, seqNo: nat): Record {
    FrameOf(seqNo, PreRollLimit(c) + c.startSpeechMs * SAMPLES_PER_MS, true)
  }

  /** A machine that has not started makes nothing of it, and one chunk of what follows. */
  lemma IdleCuts(c: Config, a: seq<Record>, q: nat)
    requires ValidConfig(c) && IdleNow(c, a)
    ensures var w, v := LongFrame(c, q + 1), FrameOf(q + 2, c.chunkSamples, true);
            Vad.Recut(c, a + [w, v]) == [Piece(q + 2, q + 2, v.payload)]
  {
    hide Run, RunOut, Trim;
    var w, v := LongFrame(c, q + 1), FrameOf(q + 2, c.chunkSamples, true);
    assert a + [w, v] == (a + [w]) + [v];
    assert WholeMs(w) >= c.startSpeechMs;
    TooLong(PreRollLimit(c), Run(c, Fresh, a).preRoll, Kept(w));
    RunSnoc(c, Fresh, a, w);
    RunSnoc(c, Fresh, a + [w], v);
  }

  /** The live machine's next chunk is another. */
  lemma LiveCuts(c: Config, held: Pending, q: nat)
    requires ValidConfig(c)
    ensures var w, v := LongFrame(c, q + 1), FrameOf(q + 2, c.chunkSamples, true);
            var out := CutOut(c.chunkSamples, held, [w, v]);
            out != [] && out[0] != Piece(q + 2, q + 2, v.payload)
  {
    var w, v := LongFrame(c, q + 1), FrameOf(q + 2, c.chunkSamples, true);
    assert [w] + [v] == [w, v] && [] + [w] == [w];
    CutSnoc(c.chunkSamples, held, [], w);
    CutSnoc(c.chunkSamples, held, [w], v);
    assert |w.payload| > 0;
  }

  lemma GoesTwo(c: Config, rs: seq<Record>, w: Record, v: Record)
    requires LastSeq(rs, 0) < w.seqNo < v.seqNo && w.voiced && v.voiced && Wire([w, v])
    ensures Goes(c, rs, [w, v])
  {
    hide Live;
    assert [w, v][..1] == [w] && [w][..0] == [] && rs + [] == rs;
    assert Increasing([w], LastSeq(rs, 0));
    assert Within(c, rs, []);
    assert Within(c, rs, [w]);
  }

  lemma GoesOne(c: Config, rs: seq<Record>, v: Record)
    requires LastSeq(rs, 0) < v.seqNo && v.voiced && Wire([v])
    ensures Goes(c, rs, [v])
  {
    hide Live;
    assert [v][..0] == [] && rs + [] == rs;
    assert Increasing([v], LastSeq(rs, 0));
    assert Within(c, rs, []);
    assert Within(c, rs, [v]);
  }

  lemma GoesNone(c: Config, rs: seq<Record>)
    ensures Goes(c, rs, [])
  {
  }

  lemma IdleDiverges(c: Config, rs: seq<Record>, k: nat) returns (tail: seq<Record>)
    requires ValidConfig(c) && Increasing(rs, 0) && Live(c, rs).active && 0 < k <= |Since(c, rs)|
    requires IdleNow(c, After(rs, Since(c, rs)[k-1].seqEnd))
    ensures Goes(c, rs, tail) && Rebuilt(c, rs, tail, k, true) != Since(c, rs + tail)
  {
    hide Live, Since, Run, RunOut, Wire, Increasing, CutOut, After, FeedOut, IdleNow, Within;
    var q := LastSeq(rs, 0);
    var w, v := LongFrame(c, q + 1), FrameOf(q + 2, c.chunkSamples, true);
    tail := [w, v];
    assert Wire([w, v]) by { WireTwo(w, v); }
    GoesTwo(c, rs, w, v);
    IdleCuts(c, After(rs, Since(c, rs)[k-1].seqEnd), q);
    TailGoesOn(c, rs, tail, k);
    SinceWithin(c, rs, tail);
    LiveCuts(c, Live(c, rs).held, q);
    var out, last := CutOut(c.chunkSamples, Live(c, rs).held, tail), Piece(q + 2, q + 2, v.payload);
    assert Rebuilt(c, rs, tail, k, true)[k] == last;
    if k < |Since(c, rs)| {
      ChunkEnds(c, rs, k);
      assert (Since(c, rs) + out)[k] == Since(c, rs)[k];
    } else {
      assert (Since(c, rs) + out)[k] == out[0];
    }
  }

  lemma WireTwo(w: Record, v: Record)
    requires |w.payload| == 2 * w.samples && |v.payload| == 2 * v.samples
    ensures Wire([w, v])
  {
  }

  /** One full chunk later, what was in progress is told apart by where it started and
      what it holds. */
  lemma NextChunkTells(limit: nat, p: Pending, q: Pending, v: Record)
    requires WirePending(p) && WirePending(q) && v.voiced && v.samples >= limit
    requires (p.Pending? ==> p.start < v.seqNo) && (q.Pending? ==> q.start < v.seqNo)
    requires FeedOut(limit, p, v) == FeedOut(limit, q, v)
    ensures SameChunk(p, q)
  {
    assert FeedOut(limit, p, v) == [PieceOf(Extend(p, v))];
    assert FeedOut(limit, q, v) == [PieceOf(Extend(q, v))];
    assert PieceOf(Extend(p, v)) == PieceOf(Extend(q, v));
    if p.Pending? && q.Pending? {
      assert p.bytes + v.payload == q.bytes + v.payload;
      assert |p.bytes| == |q.bytes|;
      assert (p.bytes + v.payload)[..|p.bytes|] == p.bytes && (q.bytes + v.payload)[..|q.bytes|] == q.bytes;
    }
  }

  lemma TwinDiverges(c: Config, rs: seq<Record>, k: nat) returns (tail: seq<Record>)
    requires ValidConfig(c) && Increasing(rs, 0) && Wire(rs) && Live(c, rs).active && 0 < k <= |Since(c, rs)|
    requires Twin(Live(c, rs), Run(c, Fresh, After(rs, Since(c, rs)[k-1].seqEnd))) && !CaughtUp(c, rs, k)
    ensures Goes(c, rs, tail) && Rebuilt(c, rs, tail, k, true) != Since(c, rs + tail)
  {
    hide Live, Since, Run, RunOut, Wire, Increasing, CutOut, CutState, After, FeedOut, FeedState, Within, SameChunk,
         WirePending;
    var a := After(rs, Since(c, rs)[k-1].seqEnd);
    var m, p := Run(c, Fresh, a), Live(c, rs).held;
    if Vad.Recut(c, a) != Since(c, rs)[k..] {
      tail := [];
      GoesNone(c, rs);
      assert rs + [] == rs;
      CutApart(Since(c, rs), k, Vad.Recut(c, a));
    } else {
      var z := LastSeq(rs, 0) + (if m.held.Pending? then m.held.start else 0) + if p.Pending? then p.start else 0;
      var v := FrameOf(z + 1, c.chunkSamples, true);
      tail := [v];
      assert Wire([v]) by { WireOne(v); }
      GoesOne(c, rs, v);
      TailGoesOn(c, rs, tail, k);
      SinceWithin(c, rs, tail);
      OneCut(c.chunkSamples, p, v);
      RunSnoc(c, Fresh, a, v);
      TwinStep(c, Live(c, rs), m, v);
      WireAfter(rs, Since(c, rs)[k-1].seqEnd);
      WireRun(c, a);
      WireLive(c, rs);
      if Rebuilt(c, rs, tail, k, true) == Since(c, rs + tail) {
        assert Since(c, rs)[..k] + Since(c, rs)[k..] == Since(c, rs);
        Associate(Since(c, rs)[..k], Since(c, rs)[k..], FeedOut(c.chunkSamples, m.held, v));
        SameEnds(Since(c, rs), FeedOut(c.chunkSamples, m.held, v), FeedOut(c.chunkSamples, p, v));
        NextChunkTells(c.chunkSamples, m.held, p, v);
      }
    }
  }

  lemma WireOne(v: Record)
    requires |v.payload| == 2 * v.samples
    ensures Wire([v])
  {
  }

  lemma OneCut(limit: nat, p: Pending, v: Record)
    ensures CutOut(limit, p, [v]) == FeedOut(limit, p, v)
  {
    assert [] + [v] == [v];
    CutSnoc(limit, p, [], v);
  }

  lemma {:induction false} WireAfter(rs: seq<Record>, q: nat)
    requires Wire(rs)
    ensures Wire(After(rs, q))
  {
    if rs != [] {
      WireAfter(rs[..|rs|-1], q);
    }
  }

  lemma CutApart(ps: seq<Piece>, k: nat, more: seq<Piece>)
    requires k <= |ps| && more != ps[k..]
    ensures ps[..k] + more != ps
  {
    assert (ps[..k] + more)[k..] == more;
  }

  lemma SameEnds(ps: seq<Piece>, xs: seq<Piece>, ys: seq<Piece>)
    requires ps + xs == ps + ys
    ensures xs == ys
  {
    assert (ps + xs)[|ps|..] == xs && (ps + ys)[|ps|..] == ys;
  }

  /** While an utterance is open, a recovery whose latest checkpoint stands for its first
      k chunks rebuilds what the live machine cut, however the utterance goes on, exactly
      when it does not restore that checkpoint or its tail has already caught up. */
  lemma RestoreIff(c: Config, rs: seq<Record>, k: nat, restored: bool)
    requires ValidConfig(c) && Increasing(rs, 0) && Wire(rs) && Clean(c, rs) && Live(c, rs).active
    requires 0 < k <= |Since(c, rs)|
    ensures (forall tail | Goes(c, rs, tail) :: Rebuilt(c, rs, tail, k, restored) == Since(c, rs + tail))
       <==> !restored || CaughtUp(c, rs, k)
  {
    hide Live, Since, Rebuilt, Goes, CaughtUp, Clean, Wire, Increasing, IdleNow, Twin, Unclosed;
    if !restored {
      forall tail | Goes(c, rs, tail) ensures Rebuilt(c, rs, tail, k, false) == Since(c, rs + tail) {
        ReplayedOn(c, rs, tail, k);
      }
    } else if CaughtUp(c, rs, k) {
      forall tail | Goes(c, rs, tail) ensures Rebuilt(c, rs, tail, k, true) == Since(c, rs + tail) {
        ResumesOn(c, rs, tail, k);
      }
    } else {
      var q := Since(c, rs)[k-1].seqEnd;
      ChunkEnds(c, rs, k - 1);
      TailIsSuffix(c, rs, q);
      IdleOrTwinAlways(c, rs, |After(rs, q)|);
      var tail;
      if IdleNow(c, After(rs, q)) {
        tail := IdleDiverges(c, rs, k);
      } else {
        tail := TwinDiverges(c, rs, k);
      }
    }
  }

  lemma ReplayedOn(c: Config, rs: seq<Record>, tail: seq<Record>, k: nat)
    requires ValidConfig(c) && Increasing(rs, 0) && Clean(c, rs) && Live(c, rs).active && 0 < k <= |Since(c, rs)|
    requires Goes(c, rs, tail)
    ensures Rebuilt(c, rs, tail, k, false) == Since(c, rs + tail)
  {
    hide Live, Since, Clean, Run, RunOut, Unclosed, Increasing;
    SinceWithin(c, rs, tail);
    IncreasingJoin(rs, tail);
    ReplayIsLive(c, rs + tail);
  }

  /** What a recovery looks at before it starts decides it: whatever becomes of the
      restore call, and however the utterance goes on, the chunks come out as the live
      machine cut them exactly when no checkpoint on file may be restored on the target,
      or the tail has caught up. */
  lemma GuardIff(c: Config, rs: seq<Record>, k: nat, sum: Bytes -> string, cp: Option<CacheCheckpoint>, key: string)
    requires ValidConfig(c) && Increasing(rs, 0) && Wire(rs) && Clean(c, rs) && Live(c, rs).active
    requires 0 < k <= |Since(c, rs)|
    ensures (forall restored, tail | (restored ==> MayRestore(sum, cp, key)) && Goes(c, rs, tail) ::
               Rebuilt(c, rs, tail, k, restored) == Since(c, rs + tail))
       <==> !MayRestore(sum, cp, key) || CaughtUp(c, rs, k)
  {
    hide Live, Since, Clean, Increasing, Wire, Rebuilt, Goes, CaughtUp;
    RestoreIff(c, rs, k, true);
    RestoreIff(c, rs, k, false);
    if MayRestore(sum, cp, key) && !CaughtUp(c, rs, k) {
      var tail :| Goes(c, rs, tail) && Rebuilt(c, rs, tail, k, true) != Since(c, rs + tail);
    }
  }

  /** A checkpoint of the newest chunk, just taken, has no tail to catch up with. */
  lemma JustTaken(c: Config, rs: seq<Record>, k: nat)
    requires 0 < k <= |Since(c, rs)| && After(rs, Since(c, rs)[k-1].seqEnd) == []
    ensures !CaughtUp(c, rs, k)
  {
    hide Live, Since;
  }
}

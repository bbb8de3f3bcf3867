/** Small sessions that reach what the general results are conditions on, so that
    none of them is about nothing. Every frame lasts 20 ms, and so does the voice or
    the silence it takes to open or close an utterance. */
module Instances {
  import opened Wrappers
  import opened Audio
  import opened Adapters
  import opened Backend
  import opened Finals
  import opened Vad
  import Replay
  import Resume

  const V1 := FrameOf(1, 320, true)
  const E2 := FrameOf(2, 320, false)
  const V3 := FrameOf(3, 320, true)
  const V4 := FrameOf(4, 320, true)
  const U1 := FrameOf(1, 320, false)
  const V2 := FrameOf(2, 320, true)

  function Cfg(preRollMs: nat, chunkSamples: nat): Config { Config(20, 20, preRollMs, chunkSamples) }

  lemma InOrder()
    ensures Increasing([V1, E2, V3, V4], 0) && Increasing([V1, E2, V3], 0) && Increasing([V1, E2], 0)
    ensures Increasing([V1], 0) && Wire([V1, E2, V3, V4]) && Wire([V1, E2, V3])
  {
    assert [V1, E2, V3, V4][..3] == [V1, E2, V3] && [V1, E2, V3][..2] == [V1, E2] && [V1, E2][..1] == [V1];
    assert [V1][..0] == [];
    assert Increasing([V1], 0);
    assert Increasing([V1, E2], 0);
    assert Increasing([V1, E2, V3], 0);
  }

  lemma CutOne(limit: nat, r: Record)
    ensures CutOut(limit, NoPending, [r]) == FeedOut(limit, NoPending, r)
    ensures CutState(limit, NoPending, [r]) == FeedState(limit, NoPending, r)
  {
    assert [] + [r] == [r];
    CutSnoc(limit, NoPending, [], r);
    assert [] + FeedOut(limit, NoPending, r) == FeedOut(limit, NoPending, r);
  }

  /** One voiced frame opens an utterance. */
  lemma Opens(c: Config, r: Record)
    requires c == Cfg(c.preRollMs, c.chunkSamples) && c.preRollMs >= 20 && r.voiced && r.samples == 320
    ensures Onset(c, Fresh, r)
    ensures Replay.Live(c, [r]) == Machine(true, 0, 0, [], FeedState(c.chunkSamples, NoPending, r))
    ensures Replay.Since(c, [r]) == FeedOut(c.chunkSamples, NoPending, r)
    ensures Step(c, Fresh, r) == Replay.Live(c, [r]) && StepOut(c, Fresh, r) == Replay.Since(c, [r])
    ensures Run(c, Fresh, [r]) == Replay.Live(c, [r]) && Vad.Recut(c, [r]) == Replay.Since(c, [r])
  {
    hide Trim;
    assert [] + [r] == [r] && [] + [Kept(r)] == [r];
    TotalOne(r);
    Replay.TrimFits(PreRollLimit(c), [r]);
    CutOne(c.chunkSamples, r);
    Replay.LiveFresh(c);
    Replay.LiveSnoc(c, [], r);
    RunSnoc(c, Fresh, [], r);
    assert [] + FeedOut(c.chunkSamples, NoPending, r) == FeedOut(c.chunkSamples, NoPending, r);
  }

  /** The second closes it, and is kept twice. */
  lemma Closes(c: Config)
    requires c == Cfg(c.preRollMs, c.chunkSamples) && c.preRollMs >= 20
    ensures Ends(c, Replay.Live(c, [V1]), E2)
    ensures Replay.Live(c, [V1, E2]) == Machine(false, 0, 0, Trim(PreRollLimit(c), [Kept(E2), Kept(E2)]), NoPending)
    ensures Replay.Since(c, [V1, E2]) == [] && Replay.PauseOf(c, [V1, E2]) == Replay.Pause([], E2, [])
    ensures Replay.Unclosed(c, [V1, E2]) == [E2]
  {
    hide Trim;
    Opens(c, V1);
    assert [V1] + [E2] == [V1, E2] && [V1, E2][..1] == [V1];
    assert [] + [Kept(E2)] == [Kept(E2)] && [Kept(E2)] + [Kept(E2)] == [Kept(E2), Kept(E2)];
    TrimSnoc(PreRollLimit(c), [Kept(E2)], Kept(E2));
    TotalOne(Kept(E2));
    Replay.TrimFits(PreRollLimit(c), [Kept(E2)]);
    Replay.LiveSnoc(c, [V1], E2);
  }

  // ---- a flushed chunk no replay has ----

  /** One voiced frame shorter than a chunk is all tail: nothing is cut before the flush,
      and no replay of it comes to a chunk, through either pipeline. If pushing the tail
      fails over, the final is that of a model that has heard nothing. */
  lemma AllTail<S>(a: Adapter<S>, chunkSamples: nat)
    requires chunkSamples > 320
    ensures var c, tail := Cfg(160, chunkSamples), [Piece(1, 1, V1.payload)];
            && Replay.Live(c, [V1]).active && Replay.Since(c, [V1]) == [] && Vad.Recut(c, [V1]) == []
            && ForceCut(Replay.Live(c, [V1]).held) == tail
            && Audio.Recut(chunkSamples, [V1]) == [] && ForceCut(Held(chunkSamples, [V1])) == tail
            && TextOf(a, tail) == a.finalize(a.infer(a.initial, V1.payload))
            && TextOf(a, Vad.Recut(c, [V1])) == a.finalize(a.initial)
  {
    var c, tail := Cfg(160, chunkSamples), [Piece(1, 1, V1.payload)];
    Opens(c, V1);
    CutOne(chunkSamples, V1);
    assert [] + tail == tail;
    PushSnoc(a, FreshRec(a), [], tail[0]);
  }

  // ---- an onset that is not clean ----

  /** A frame after the endpoint opens the next utterance while both copies of the
      endpoint frame are in pre-roll, so a full replay dispatches other chunks. */
  lemma UncleanReached()
    ensures var c, rs := Cfg(160, 320), [V1, E2];
            && ValidConfig(c) && Increasing(rs + [V3], 0) && Wire(rs + [V3]) && Onset(c, Replay.Live(c, rs), V3)
            && Replay.PauseOf(c, rs) == Replay.Pause([], E2, []) && !Replay.CleanOnset(c, Replay.PauseOf(c, rs), V3)
            && Replay.Redone(c, Replay.Unclosed(c, rs + [V3])) != Replay.Dispatched(c, rs + [V3])
  {
    hide Replay.Live, Replay.Unclosed, Replay.Redone, Replay.Dispatched, Trim;
    var c, rs := Cfg(160, 320), [V1, E2];
    InOrder();
    Closes(c);
    assert rs + [V3] == [V1, E2, V3] && [] + [V3] == [V3] && rs + [V3] + [] == rs + [V3];
    TotalOne(V3);
    Replay.RepeatsIff(c, rs, V3, []);
  }

  // ---- a checkpoint inside an utterance ----

  /** With chunks of one frame, the first frame of an utterance ends one; restored from
      there, some way of going on is cut differently. */
  lemma BoundaryReached() returns (tail: seq<Record>)
    ensures var c := Cfg(160, 320);
            && ValidConfig(c) && Increasing([V1], 0) && Wire([V1]) && Replay.Clean(c, [V1])
            && Replay.Live(c, [V1]).active && Replay.Since(c, [V1]) == [Piece(1, 1, V1.payload)]
            && Resume.Goes(c, [V1], tail)
            && Resume.Rebuilt(c, [V1], tail, 1, true) != Replay.Since(c, [V1] + tail)
  {
    hide Resume.Rebuilt, Resume.Goes;
    var c := Cfg(160, 320);
    InOrder();
    Opens(c, V1);
    assert [V1][..0] == [] && After([V1], 1) == [];
    Resume.JustTaken(c, [V1], 1);
    Resume.RestoreIff(c, [V1], 1, true);
    tail :| Resume.Goes(c, [V1], tail) && Resume.Rebuilt(c, [V1], tail, 1, true) != Replay.Since(c, [V1] + tail);
  }

  /** An onset that cuts a chunk from what pre-roll kept and one from its own frame. */
  lemma TwoChunks(c: Config)
    requires c == Cfg(160, 320)
    ensures Onset(c, Replay.Live(c, [U1]), V2) && Replay.PauseOf(c, [U1]) == Replay.Never
    ensures Replay.Live(c, [U1, V2]) == Machine(true, 0, 0, [], NoPending)
    ensures Replay.Since(c, [U1, V2]) == [Piece(1, 1, U1.payload), Piece(2, 2, V2.payload)]
  {
    hide Trim, Replay.Live, Replay.Since;
    var fed := [Vad.Kept(U1), Vad.Kept(V2)];
    assert [] + [U1] == [U1] && [U1] + [V2] == [U1, V2] && [] + [Vad.Kept(U1)] == [Vad.Kept(U1)];
    assert [Vad.Kept(U1)] + [Vad.Kept(V2)] == fed && [U1][..0] == [];
    TotalOne(Vad.Kept(U1));
    TotalSnoc([Vad.Kept(U1)], Vad.Kept(V2));
    Replay.TrimFits(PreRollLimit(c), [Vad.Kept(U1)]);
    Replay.TrimFits(PreRollLimit(c), fed);
    Replay.LiveFresh(c);
    Replay.LiveSnoc(c, [], U1);
    Replay.OnsetCut(c, [U1], V2);
    CutOne(320, Vad.Kept(U1));
    CutSnoc(320, NoPending, [Vad.Kept(U1)], Vad.Kept(V2));
  }

  /** A checkpoint of the first of two chunks cut at one onset has caught up by the time
      the second is pushed. */
  lemma CaughtUpReached()
    ensures var c, rs := Cfg(160, 320), [U1, V2];
            && ValidConfig(c) && Increasing(rs, 0) && Wire(rs) && Replay.Clean(c, rs) && Replay.Live(c, rs).active
            && |Replay.Since(c, rs)| == 2 && Resume.CaughtUp(c, rs, 1)
  {
    hide Trim, Replay.Live, Replay.Since, Run, RunOut, After, Replay.PauseOf;
    var c, rs := Cfg(160, 320), [U1, V2];
    TwoChunks(c);
    Opens(c, V2);
    TailOnly();
    assert [U1] + [V2] == rs;
    Replay.CleanSnoc(c, [U1], V2);
    assert Replay.Since(c, rs)[1..] == [Piece(2, 2, V2.payload)];
  }

  lemma TailOnly()
    ensures Increasing([U1, V2], 0) && After([U1, V2], 1) == [V2]
  {
    assert [U1, V2][..1] == [U1] && [U1][..0] == [] && [U1] + [V2] == [U1, V2] && [] + [U1] == [U1];
    assert Increasing([U1], 0);
    AfterSnoc([], U1, 1);
    AfterSnoc([U1], V2, 1);
  }

  // ---- the utterance after a lost tail ----

  /** With room for one frame, pre-roll keeps the newest only. */
  lemma KeepsOne(r: Record, o: Record)
    requires r.samples == 320 && o.samples == 320
    ensures Trim(320, [r, o]) == [o]
  {
    assert [r, o] == [r] + [o] && [r, o][1..] == [o];
    TotalOne(r);
    TotalOne(o);
    TotalSnoc([r], o);
    Replay.TrimFits(320, [o]);
  }

  /** What the live machine does ... */
  lemma CutsLive(c: Config)
    requires c == Cfg(20, 640)
    ensures Replay.Live(c, [V1, E2, V3]).active && Onset(c, Replay.Live(c, [V1, E2]), V3)
    ensures Replay.Since(c, [V1, E2, V3, V4]) == [Piece(3, 4, V3.payload + V4.payload)]
  {
    hide Trim, Replay.Live, Replay.Since, Replay.PauseOf, Replay.Unclosed;
    Closes(c);
    KeepsOne(Kept(E2), Kept(E2));
    KeepsOne(Kept(E2), Kept(V3));
    CutOne(640, Kept(V3));
    assert [Kept(E2)] + [Kept(V3)] == [Kept(E2), Kept(V3)];
    assert [V1, E2] + [V3] == [V1, E2, V3] && [V1, E2, V3] + [V4] == [V1, E2, V3, V4];
    Replay.OnsetCut(c, [V1, E2], V3);
    Replay.LiveSnoc(c, [V1, E2, V3], V4);
  }

  /** ... and what a replay from the start does. */
  lemma CutsAgain(c: Config)
    requires c == Cfg(20, 640)
    ensures Vad.Recut(c, [V1, E2, V3, V4]) == [Piece(1, 3, V1.payload + V3.payload)]
  {
    assert RunOut(c, Fresh, []) == [];
    hide Trim, Run, RunOut, Replay.Live, Replay.Since;
    Opens(c, V1);
    KeepsOne(Kept(E2), Kept(E2));
    KeepsOne(Kept(E2), Kept(V3));
    TotalOne(Kept(E2));
    Replay.TrimFits(320, [Kept(E2)]);
    assert [] + [Kept(E2)] == [Kept(E2)] && [Kept(E2)] + [Kept(E2)] == [Kept(E2), Kept(E2)];
    assert [Kept(E2)] + [Kept(V3)] == [Kept(E2), Kept(V3)];
    assert [] + [V1] == [V1] && [V1] + [E2] == [V1, E2] && [V1, E2] + [V3] == [V1, E2, V3];
    assert [V1, E2, V3] + [V4] == [V1, E2, V3, V4] && [] + [V3] == [V3];
    RunNone(c);
    RunSnoc(c, Fresh, [], V1);
    RunSnoc(c, Fresh, [V1], E2);
    RunSnoc(c, Fresh, [V1, E2], V3);
    var held := Run(c, Fresh, [V1, E2]).held;
    assert held == Pending(1, 1, V1.payload, 320);
    CutSnoc(640, held, [], Kept(V3));
    assert [] + [Kept(V3)] == [Kept(V3)];
    assert CutOut(640, held, [Kept(V3)]) == [Piece(1, 3, V1.payload + V3.payload)];
    assert RunOut(c, Fresh, [V1, E2]) == [];
    assert RunOut(c, Fresh, [V1, E2, V3]) == [Piece(1, 3, V1.payload + V3.payload)];
    RunSnoc(c, Fresh, [V1, E2, V3], V4);
  }

  /** The first utterance is all tail. If pushing that failed over nothing was applied,
      the floor stays at 0, and the next utterance's replay cuts the lost frame again,
      into its own first chunk. */
  lemma LostTailAgain()
    ensures var c, log := Cfg(20, 640), [V1, E2, V3, V4];
            && ValidConfig(c) && Increasing(log, 0) && Wire(log) && Replay.Clean(c, log)
            && Ends(c, Replay.Live(c, [V1]), E2)
            && Replay.TrimFloor(0, RetentionStart(Replay.Live(c, [V1, E2]))) == Some(0)
            && Replay.Since(c, log) == [Piece(3, 4, V3.payload + V4.payload)]
            && Vad.Recut(c, After(log, 0)) == [Piece(1, 3, V1.payload + V3.payload)]
  {
    hide Replay.Live, Replay.Since, Vad.Recut, Trim, Replay.PauseOf, Replay.Unclosed;
    var c, log := Cfg(20, 640), [V1, E2, V3, V4];
    InOrder();
    AfterFloor(log, 0);
    Closes(c);
    CutsLive(c);
    CutsAgain(c);
    assert [V1] + [E2] == [V1, E2] && [V1, E2] + [V3] == [V1, E2, V3] && [V1, E2, V3] + [V4] == log;
    Replay.FloorIff(c, [V1], E2, 0);
    TotalOne(V3);
    assert [] + [V3] == [V3];
    Replay.CleanSnoc(c, [V1, E2], V3);
    Replay.CleanSnoc(c, [V1, E2, V3], V4);
  }
}

/** Replaying a whole session of the voice-activity pipeline: what the journal
    hands a recovery after any number of utterances, against what the live
    machine did (internal/audio/vad.go, finalizeEndpoint in cmd/gateway/conn.go). */
module Replay {
  import opened Wrappers
  import opened Audio
  import opened Vad

  // ---- a session, endpoint after endpoint ----

  /** One frame of a session: an endpoint also flushes the chunk in progress. */
  function Onto(c: Config, m: Machine, r: Record): Machine {
    if Ends(c, m, r) then Flushed(Step(c, m, r)) else Step(c, m, r)
  }

  function Live(c: Config, rs: seq<Record>): Machine {
    if rs == [] then Fresh else Onto(c, Live(c, rs[..|rs|-1]), rs[|rs|-1])
  }

  /** The chunks cut since the last endpoint. */
  function Since(c: Config, rs: seq<Record>): seq<Piece> {
    if rs == [] then []
    else
      var init, r := rs[..|rs|-1], rs[|rs|-1];
      if Ends(c, Live(c, init), r) then [] else Since(c, init) + StepOut(c, Live(c, init), r)
  }

  /** What an utterance was cut into: its threshold chunks, and the forced one. */
  datatype Utterance = Utterance(chunks: seq<Piece>, tail: seq<Piece>)

  /** The utterances an endpoint has ended. */
  function Uttered(c: Config, rs: seq<Record>): seq<Utterance> {
    if rs == [] then []
    else
      var init, r := rs[..|rs|-1], rs[|rs|-1];
      var m := Live(c, init);
      Uttered(c, init)
      + if Ends(c, m, r) then [Utterance(Since(c, init) + StepOut(c, m, r), ForceCut(Step(c, m, r).held))] else []
  }

  /** The unvoiced frames at the end. */
  function Silence(rs: seq<Record>): seq<Record> {
    if rs == [] || rs[|rs|-1].voiced then [] else Silence(rs[..|rs|-1]) + [rs[|rs|-1]]
  }

  /** The silence the last endpoint closed, its frame, and what has come since. */
  datatype Pause = Never | Pause(before: seq<Record>, endpoint: Record, since: seq<Record>)

  function PauseOf(c: Config, rs: seq<Record>): Pause {
    if rs == [] then Never
    else
      var init, r := rs[..|rs|-1], rs[|rs|-1];
      if Ends(c, Live(c, init), r) then Pause(Silence(init), r, [])
      else
        match PauseOf(c, init)
        case Never => Never
        case Pause(zs, e, ys) => Pause(zs, e, ys + [r])
  }

  /** What comes after the last voiced frame before the last endpoint: all a full
      replay should read. */
  function Unclosed(c: Config, rs: seq<Record>): seq<Record> {
    match PauseOf(c, rs)
    case Never => rs
    case Pause(zs, e, ys) => zs + [e] + ys
  }

  /** The closing silence is never longer than what is uncommitted. */
  lemma {:induction false} SilenceShort(c: Config, rs: seq<Record>)
    ensures |Silence(rs)| <= |Unclosed(c, rs)|
  {
    if rs != [] {
      hide Live;
      SilenceShort(c, rs[..|rs|-1]);
    }
  }

  lemma LiveSnoc(c: Config, rs: seq<Record>, r: Record)
    ensures Live(c, rs + [r]) == Onto(c, Live(c, rs), r)
    ensures Since(c, rs + [r]) == if Ends(c, Live(c, rs), r) then [] else Since(c, rs) + StepOut(c, Live(c, rs), r)
    ensures Silence(rs + [r]) == if r.voiced then [] else Silence(rs) + [r]
  {
    assert (rs + [r])[..|rs|] == rs;
  }

  lemma UnclosedSnoc(c: Config, rs: seq<Record>, r: Record)
    ensures Unclosed(c, rs + [r]) == if Ends(c, Live(c, rs), r) then Silence(rs) + [r] else Unclosed(c, rs) + [r]
  {
    assert (rs + [r])[..|rs|] == rs;
  }

  /** Endpoints apart, flushing changes nothing the hysteresis looks at. */
  lemma {:induction false} LiveIsRun(c: Config, rs: seq<Record>)
    ensures Live(c, rs).(held := NoPending) == Run(c, Fresh, rs).(held := NoPending)
  {
    if rs != [] {
      hide Keep;
      LiveIsRun(c, rs[..|rs|-1]);
    }
  }

  /** At every moment of a session, pre-roll is the longest suffix of what was kept
      that fits in PreRollMs. */
  lemma PreRollOfSession(c: Config, rs: seq<Record>)
    ensures LongestSuffix(PreRollLimit(c), KeptSince(c, rs), Live(c, rs).preRoll)
  {
    hide Run, Live;
    LiveIsRun(c, rs);
    PreRollIsLongestSuffix(c, rs);
  }

  /** At every onset of a session the whole triggering voiced run is fed exactly when
      it fits in the pre-roll; whole-millisecond frames and room for StartSpeechMs
      plus one frame make sure it does. */
  lemma OnsetOfSession(c: Config, rs: seq<Record>, o: Record, maxFrame: nat)
    requires ValidConfig(c) && Onset(c, Live(c, rs), o)
    ensures EndsWith(Keep(c, Live(c, rs).preRoll, o), KeptAll(VoicedRun(rs + [o])))
       <==> Total(VoicedRun(rs + [o])) <= PreRollLimit(c)
    ensures c.startSpeechMs * SAMPLES_PER_MS + maxFrame <= PreRollLimit(c) && WholeFrames(VoicedRun(rs + [o]), maxFrame)
            ==> EndsWith(Keep(c, Live(c, rs).preRoll, o), KeptAll(VoicedRun(rs + [o])))
  {
    hide Run, Live, Keep, EndsWith, WholeFrames, Total;
    LiveIsRun(c, rs);
    OnsetFeedsRun(c, rs, o);
    if c.startSpeechMs * SAMPLES_PER_MS + maxFrame <= PreRollLimit(c) && WholeFrames(VoicedRun(rs + [o]), maxFrame) {
      OnsetNeverClipped(c, rs, o, maxFrame);
    }
  }

  // ---- the live machine, in closed form ----

  /** All that was kept since the last endpoint, its frame twice. */
  function KeptIdle(c: Config, rs: seq<Record>): seq<Record> {
    match PauseOf(c, rs)
    case Never => KeptAll(rs)
    case Pause(zs, e, ys) => KeptAll(zs) + [Kept(e)] + [Kept(e)] + KeptAll(ys)
  }

  ghost predicate Shape(c: Config, rs: seq<Record>) {
    var m := Live(c, rs);
    && m.preRoll == Trim(PreRollLimit(c), if m.active then KeptAll(Silence(rs)) else KeptIdle(c, rs))
    && (m.active ==> m.voiceMs == 0)
    && (!m.active ==> m.silenceMs == 0 && m.held == NoPending)
  }

  lemma KeptIdleSnoc(c: Config, rs: seq<Record>, r: Record)
    ensures KeptIdle(c, rs + [r]) == if Ends(c, Live(c, rs), r) then KeptAll(Silence(rs)) + [Kept(r)] + [Kept(r)]
                                     else KeptIdle(c, rs) + [Kept(r)]
  {
    hide KeptAll;
    assert (rs + [r])[..|rs|] == rs;
    if Ends(c, Live(c, rs), r) {
      KeptNone();
      assert KeptAll(Silence(rs)) + [Kept(r)] + [Kept(r)] + [] == KeptAll(Silence(rs)) + [Kept(r)] + [Kept(r)];
    } else {
      match PauseOf(c, rs)
      case Never => KeptAllSnoc(rs, r);
      case Pause(zs, e, ys) =>
        KeptAllSnoc(ys, r);
        Associate(KeptAll(zs) + [Kept(e)] + [Kept(e)], KeptAll(ys), [Kept(r)]);
    }
  }

  lemma KeptNone()
    ensures KeptAll([]) == []
  {
  }

  lemma ShapeStep(c: Config, rs: seq<Record>, r: Record)
    requires ValidConfig(c) && Shape(c, rs)
    ensures Shape(c, rs + [r])
  {
    hide Trim, KeptAll, KeptIdle;
    var limit, m := PreRollLimit(c), Live(c, rs);
    LiveSnoc(c, rs, r);
    KeptIdleSnoc(c, rs, r);
    KeptAllSnoc(Silence(rs), r);
    KeptNone();
    TrimEmpty(limit);
    TrimSnoc(limit, KeptAll(Silence(rs)), Kept(r));
    TrimSnoc(limit, KeptAll(Silence(rs)) + [Kept(r)], Kept(r));
    TrimSnoc(limit, KeptIdle(c, rs), Kept(r));
  }

  lemma {:induction false} ShapeAlways(c: Config, rs: seq<Record>)
    requires ValidConfig(c)
    ensures Shape(c, rs)
  {
    hide Shape;
    if rs != [] {
      ShapeAlways(c, rs[..|rs|-1]);
      assert rs == rs[..|rs|-1] + [rs[|rs|-1]];
      ShapeStep(c, rs[..|rs|-1], rs[|rs|-1]);
    } else {
      ShapeFresh(c);
    }
  }

  lemma ShapeFresh(c: Config)
    ensures Shape(c, [])
  {
    TrimEmpty(PreRollLimit(c));
  }

  // ---- a machine replayed from the last commit ----

  lemma {:induction false} SilenceUnvoiced(rs: seq<Record>, i: nat)
    requires i < |Silence(rs)|
    ensures !Silence(rs)[i].voiced
  {
    if i < |Silence(rs)| - 1 {
      SilenceUnvoiced(rs[..|rs|-1], i);
    }
  }

  /** Over silence a fresh machine only keeps. */
  lemma {:induction false} FreshOverSilence(c: Config, zs: seq<Record>)
    requires ValidConfig(c)
    requires forall i | 0 <= i < |zs| :: !zs[i].voiced
    ensures Run(c, Fresh, zs) == Machine(false, 0, 0, Trim(PreRollLimit(c), KeptAll(zs)), NoPending)
    ensures Vad.Recut(c, zs) == []
  {
    if zs == [] {
      TrimEmpty(PreRollLimit(c));
    } else {
      hide Trim, KeptAll;
      var init, r := zs[..|zs|-1], zs[|zs|-1];
      assert zs == init + [r];
      FreshOverSilence(c, init);
      TrimSnoc(PreRollLimit(c), KeptAll(init), Kept(r));
      KeptAllSnoc(init, r);
    }
  }

  /** At an onset after an endpoint the endpoint's second copy makes no difference,
      told from durations alone: the frame has left pre-roll, or its second copy
      has and the frame before it has too. */
  predicate CleanOnset(c: Config, p: Pause, o: Record) {
    match p
    case Never => true
    case Pause(zs, e, ys) => CopyGone(c, zs, e, ys + [o])
  }

  /** The onset that opened the utterance was clean, and its frame no longer than the
      pre-roll; between utterances there is nothing to ask. */
  predicate Clean(c: Config, rs: seq<Record>) {
    rs == [] ||
    var init, r := rs[..|rs|-1], rs[|rs|-1];
    if Live(c, init).active then Ends(c, Live(c, init), r) || Clean(c, init)
    else Onset(c, Live(c, init), r) ==> r.samples <= PreRollLimit(c) && CleanOnset(c, PauseOf(c, init), r)
  }

  lemma CleanSnoc(c: Config, rs: seq<Record>, r: Record)
    ensures Clean(c, rs + [r])
       <==> if Live(c, rs).active then Ends(c, Live(c, rs), r) || Clean(c, rs)
            else Onset(c, Live(c, rs), r) ==> r.samples <= PreRollLimit(c) && CleanOnset(c, PauseOf(c, rs), r)
  {
    assert (rs + [r])[..|rs|] == rs;
  }

  lemma IdleClean(c: Config, rs: seq<Record>)
    requires !Live(c, rs).active
    ensures Clean(c, rs)
  {
    hide Keep;
  }

  lemma {:induction false} PauseOrdered(c: Config, rs: seq<Record>)
    requires Increasing(rs, 0) && PauseOf(c, rs).Pause?
    ensures var p := PauseOf(c, rs); p.before != [] ==> p.before[|p.before|-1].seqNo < p.endpoint.seqNo
  {
    var init, r := rs[..|rs|-1], rs[|rs|-1];
    if Ends(c, Live(c, init), r) {
      SilenceEnds(init);
    } else {
      PauseOrdered(c, init);
    }
  }

  lemma SilenceEnds(rs: seq<Record>)
    ensures Silence(rs) != [] ==> rs != [] && Silence(rs)[|Silence(rs)|-1] == rs[|rs|-1]
  {
  }

  /** What a machine replayed over Unclosed would feed at an onset. */
  function ReplayKept(c: Config, rs: seq<Record>): seq<Record> {
    Trim(PreRollLimit(c), KeptAll(Unclosed(c, rs)))
  }

  /** At an onset the live machine feeds what the replayed one feeds exactly when
      the onset is clean. */
  lemma FedIff(c: Config, rs: seq<Record>, o: Record)
    requires ValidConfig(c) && Increasing(rs, 0) && !Live(c, rs).active
    ensures Keep(c, Live(c, rs).preRoll, o) == Keep(c, ReplayKept(c, rs), o) <==> CleanOnset(c, PauseOf(c, rs), o)
  {
    hide Trim, KeptAll, Live, Total;
    var limit := PreRollLimit(c);
    ShapeAlways(c, rs);
    match PauseOf(c, rs)
    case Never =>
    case Pause(zs, e, ys) =>
      PauseOrdered(c, rs);
      KeptEnd(zs, e);
      TrimSnoc(limit, KeptIdle(c, rs), Kept(o));
      TrimSnoc(limit, KeptAll(zs + [e] + ys), Kept(o));
      KeptAllSnoc(ys, o);
      KeptAllSnoc(zs, e);
      KeptAllConcat(zs + [e], ys);
      KeptAllTotal(ys + [o]);
      Regroup(KeptAll(zs), Kept(e), KeptAll(ys), Kept(o));
      DoubledTrim(limit, KeptAll(zs), Kept(e), KeptAll(ys + [o]));
  }

  lemma KeptEnd(zs: seq<Record>, e: Record)
    requires zs != [] ==> zs[|zs|-1].seqNo < e.seqNo
    ensures zs != [] ==> KeptAll(zs)[|zs|-1] != Kept(e) && KeptAll(zs)[|zs|-1].samples == zs[|zs|-1].samples
    ensures |KeptAll(zs)| == |zs|
  {
  }

  lemma Regroup<T>(a: seq<T>, x: T, y: seq<T>, o: T)
    ensures a + [x] + [x] + y + [o] == a + [x] + ([x] + (y + [o]))
    ensures a + [x] + y + [o] == a + [x] + (y + [o])
  {
  }

  /** The replayed machine is in step with the live one: the same when an utterance
      is open, otherwise the same but for what it keeps. */
  ghost predicate InStep(c: Config, rs: seq<Record>) {
    var m, u := Live(c, rs), Unclosed(c, rs);
    && Run(c, Fresh, u) == (if m.active then m else m.(preRoll := Trim(PreRollLimit(c), KeptAll(u))))
    && Vad.Recut(c, u) == Since(c, rs)
  }

  lemma InStepClose(c: Config, rs: seq<Record>, e: Record)
    requires ValidConfig(c) && Ends(c, Live(c, rs), e)
    ensures InStep(c, rs + [e])
  {
    hide Trim, KeptAll, Live;
    LiveSnoc(c, rs, e);
    UnclosedSnoc(c, rs, e);
    ShapeAlways(c, rs);
    forall i | 0 <= i < |Silence(rs) + [e]| ensures !(Silence(rs) + [e])[i].voiced {
      if i < |Silence(rs)| {
        SilenceUnvoiced(rs, i);
      }
    }
    FreshOverSilence(c, Silence(rs) + [e]);
  }

  lemma InStepOn(c: Config, rs: seq<Record>, r: Record)
    requires ValidConfig(c) && Increasing(rs, 0) && InStep(c, rs) && !Ends(c, Live(c, rs), r)
    requires Onset(c, Live(c, rs), r) ==> CleanOnset(c, PauseOf(c, rs), r)
    ensures InStep(c, rs + [r])
  {
    hide Trim, KeptAll, Live, Run, RunOut, Unclosed, Since, CleanOnset, CutState, CutOut;
    var m, u := Live(c, rs), Unclosed(c, rs);
    LiveSnoc(c, rs, r);
    UnclosedSnoc(c, rs, r);
    RunSnoc(c, Fresh, u, r);
    ShapeAlways(c, rs);
    if !m.active {
      FedIff(c, rs, r);
      TrimSnoc(PreRollLimit(c), KeptAll(u), Kept(r));
      KeptAllSnoc(u, r);
    }
  }

  lemma CleanBefore(c: Config, rs: seq<Record>, r: Record)
    requires Clean(c, rs + [r]) && !Ends(c, Live(c, rs), r)
    ensures Clean(c, rs) && (Onset(c, Live(c, rs), r) ==> CleanOnset(c, PauseOf(c, rs), r))
  {
    hide Live, PauseOf, CleanOnset;
    CleanSnoc(c, rs, r);
    if !Live(c, rs).active {
      IdleClean(c, rs);
    }
  }

  /** Commit-boundary replay, at any moment of any session, whatever earlier utterances
      were like: read everything after the last voiced frame before the last endpoint,
      and a machine started idle reaches the live machine's state and cuts the chunks it
      has cut since. */
  lemma {:induction false} ReplayIsLive(c: Config, rs: seq<Record>)
    requires ValidConfig(c) && Increasing(rs, 0) && Clean(c, rs)
    ensures InStep(c, rs)
  {
    if rs == [] {
      TrimEmpty(PreRollLimit(c));
    } else {
      hide InStep, Onset, Ends, CleanOnset, Live, PauseOf;
      var init, r := rs[..|rs|-1], rs[|rs|-1];
      assert rs == init + [r];
      if Ends(c, Live(c, init), r) {
        InStepClose(c, init, r);
      } else {
        CleanBefore(c, init, r);
        ReplayIsLive(c, init);
        InStepOn(c, init, r);
      }
    }
  }

  // ---- a journal that has forgotten the beginning ----

  /** How many of the newest records a full replay needs: from an onset on, as far back
      as what it fed and the voiced run that raised it; between utterances, none. */
  function Needed(c: Config, rs: seq<Record>): nat {
    if rs == [] then 0
    else
      var init, r := rs[..|rs|-1], rs[|rs|-1];
      if Onset(c, Live(c, init), r) then OnsetNeeds(c, init, r)
      else if Live(c, init).active && !Ends(c, Live(c, init), r) then Needed(c, init) + 1
      else 0
  }

  function OnsetNeeds(c: Config, rs: seq<Record>, o: Record): nat {
    var run, fed := |VoicedRun(Unclosed(c, rs) + [o])|, |Keep(c, ReplayKept(c, rs), o)|;
    if run > fed then run else fed
  }

  lemma NeededSnoc(c: Config, rs: seq<Record>, r: Record)
    ensures Needed(c, rs + [r]) == if Onset(c, Live(c, rs), r) then OnsetNeeds(c, rs, r)
                                   else if Live(c, rs).active && !Ends(c, Live(c, rs), r) then Needed(c, rs) + 1
                                   else 0
  {
    assert (rs + [r])[..|rs|] == rs;
  }

  lemma {:induction false} VoicedShort(u: seq<Record>, n: nat)
    requires n <= |u|
    ensures MsOf(VoicedRun(Suffix(u, n))) <= MsOf(VoicedRun(u))
    ensures |VoicedRun(u)| <= n ==> VoicedRun(Suffix(u, n)) == VoicedRun(u)
  {
    if n > 0 {
      var init, r := u[..|u|-1], u[|u|-1];
      assert u == init + [r];
      VoicedShort(init, n - 1);
      SuffixSnoc(init, n - 1, r);
      assert (Suffix(init, n - 1) + [r])[..n-1] == Suffix(init, n - 1);
      if r.voiced {
        MsSnoc(VoicedRun(Suffix(init, n - 1)), r);
        MsSnoc(VoicedRun(init), r);
      }
    } else {
      assert Suffix(u, 0) == [];
    }
  }

  lemma {:induction false} KeptAllShort(u: seq<Record>, n: nat)
    requires n <= |u|
    ensures KeptAll(Suffix(u, n)) == Suffix(KeptAll(u), n)
  {
    if n > 0 {
      var init, r := u[..|u|-1], u[|u|-1];
      assert u == init + [r];
      KeptAllShort(init, n - 1);
      SuffixSnoc(init, n - 1, r);
      KeptAllSnoc(Suffix(init, n - 1), r);
      KeptAllSnoc(init, r);
      SuffixSnoc(KeptAll(init), n - 1, Kept(r));
    } else {
      assert Suffix(u, 0) == [] && Suffix(KeptAll(u), 0) == [];
    }
  }

  /** Trimming needs no more than what it leaves. */
  lemma TrimShort(limit: nat, all: seq<Record>, n: nat)
    requires |Trim(limit, all)| <= n <= |all|
    ensures Trim(limit, Suffix(all, n)) == Trim(limit, all)
  {
    hide Trim, Total, Suffix;
    var t := |Trim(limit, all)|;
    TrimIsLongest(limit, all);
    TrimIsLongest(limit, Suffix(all, n));
    SuffixOfSuffix(all, n, t);
    if t < n {
      SuffixOfSuffix(all, n, t + 1);
    }
    assert Longest(limit, Suffix(all, n), t);
    LongestUnique(limit, Suffix(all, n), t, |Trim(limit, Suffix(all, n))|);
  }

  /** A machine replayed over only the newest n of what it should read: idle while the
      live one is, and in step with it if n is enough. */
  ghost predicate ShortStep(c: Config, rs: seq<Record>, n: nat)
    requires n <= |Unclosed(c, rs)|
  {
    var m, short := Live(c, rs), Suffix(Unclosed(c, rs), n);
    if m.active then n >= Needed(c, rs) ==> Run(c, Fresh, short) == m && Vad.Recut(c, short) == Since(c, rs)
    else IdleOver(c, short)
  }

  ghost predicate IdleOver(c: Config, rs: seq<Record>) {
    && Run(c, Fresh, rs) == Machine(false, MsOf(VoicedRun(rs)), 0, Trim(PreRollLimit(c), KeptAll(rs)), NoPending)
    && Vad.Recut(c, rs) == []
  }

  lemma IdleOverNone(c: Config)
    ensures IdleOver(c, [])
  {
    TrimEmpty(PreRollLimit(c));
  }

  lemma IdleOverSilence(c: Config, zs: seq<Record>)
    requires ValidConfig(c) && forall i | 0 <= i < |zs| :: !zs[i].voiced
    ensures IdleOver(c, zs)
  {
    FreshOverSilence(c, zs);
  }

  lemma IdleOverSnoc(c: Config, rs: seq<Record>, r: Record)
    requires ValidConfig(c) && IdleOver(c, rs) && MsOf(VoicedRun(rs + [r])) < c.startSpeechMs
    ensures IdleOver(c, rs + [r])
  {
    hide Trim, KeptAll, MsOf;
    RunSnoc(c, Fresh, rs, r);
    VoicedSnoc(rs, r);
    TrimSnoc(PreRollLimit(c), KeptAll(rs), Kept(r));
    KeptAllSnoc(rs, r);
  }

  lemma VoicedSnoc(rs: seq<Record>, r: Record)
    ensures VoicedRun(rs + [r]) == if r.voiced then VoicedRun(rs) + [r] else []
    ensures MsOf(VoicedRun(rs + [r])) == if r.voiced then MsOf(VoicedRun(rs)) + WholeMs(r) else 0
  {
    assert (rs + [r])[..|rs|] == rs;
    if r.voiced {
      MsSnoc(VoicedRun(rs), r);
    }
  }

  /** While idle, the live machine's voice count is that of all a replay should read. */
  lemma LiveVoice(c: Config, rs: seq<Record>)
    requires ValidConfig(c) && Increasing(rs, 0) && !Live(c, rs).active
    ensures Live(c, rs).voiceMs == MsOf(VoicedRun(Unclosed(c, rs)))
  {
    hide Live, Unclosed, Run, Clean;
    IdleClean(c, rs);
    ReplayIsLive(c, rs);
    IdleAlways(c, Unclosed(c, rs));
  }

  lemma ShortIdle(c: Config, rs: seq<Record>, n: nat, r: Record)
    requires ValidConfig(c) && Increasing(rs, 0) && n <= |Unclosed(c, rs)| && ShortStep(c, rs, n)
    requires !Live(c, rs).active && !Onset(c, Live(c, rs), r)
    ensures IdleOver(c, Suffix(Unclosed(c, rs), n) + [r])
  {
    hide Live, Unclosed, Suffix, MsOf, VoicedRun, IdleOver;
    var u := Unclosed(c, rs);
    LiveVoice(c, rs);
    VoicedShort(u, n);
    VoicedSnoc(Suffix(u, n), r);
    VoicedSnoc(u, r);
    IdleOverSnoc(c, Suffix(u, n), r);
  }

  lemma ShortOnset(c: Config, rs: seq<Record>, n: nat, o: Record)
    requires ValidConfig(c) && Increasing(rs + [o], 0) && n <= |Unclosed(c, rs)| && ShortStep(c, rs, n)
    requires Onset(c, Live(c, rs), o) && CleanOnset(c, PauseOf(c, rs), o) && n + 1 >= OnsetNeeds(c, rs, o)
    ensures Run(c, Fresh, Suffix(Unclosed(c, rs), n) + [o]) == Live(c, rs + [o])
    ensures Vad.Recut(c, Suffix(Unclosed(c, rs), n) + [o]) == Since(c, rs + [o])
  {
    hide Live, Unclosed, Suffix, MsOf, VoicedRun, Trim, KeptAll, CutOut, CutState, CleanOnset, PauseOf, Since;
    var limit, u := PreRollLimit(c), Unclosed(c, rs);
    var short := Suffix(u, n);
    assert (rs + [o])[..|rs|] == rs;
    LiveVoice(c, rs);
    SuffixSnoc(u, n, o);
    VoicedShort(u + [o], n + 1);
    VoicedSnoc(short, o);
    VoicedSnoc(u, o);
    KeptAllShort(u + [o], n + 1);
    KeptAllSnoc(short, o);
    KeptAllSnoc(u, o);
    TrimSnoc(limit, KeptAll(u), Kept(o));
    TrimSnoc(limit, KeptAll(short), Kept(o));
    TrimShort(limit, KeptAll(u + [o]), n + 1);
    FedIff(c, rs, o);
    OnsetCut(c, rs, o);
    RunSnoc(c, Fresh, short, o);
    NoneFirst(CutOut(c.chunkSamples, NoPending, Keep(c, ReplayKept(c, rs), o)));
  }

  lemma ShortClose(c: Config, rs: seq<Record>, e: Record, n: nat)
    requires ValidConfig(c) && Ends(c, Live(c, rs), e) && n <= |Unclosed(c, rs + [e])|
    ensures ShortStep(c, rs + [e], n)
  {
    hide Live, IdleOver, Needed;
    LiveSnoc(c, rs, e);
    UnclosedSnoc(c, rs, e);
    var u := Silence(rs) + [e];
    forall i | 0 <= i < n ensures !Suffix(u, n)[i].voiced {
      if |u| - n + i < |Silence(rs)| {
        SilenceUnvoiced(rs, |u| - n + i);
      }
    }
    IdleOverSilence(c, Suffix(u, n));
  }

  lemma ShortOn(c: Config, rs: seq<Record>, r: Record, n: nat)
    requires ValidConfig(c) && Increasing(rs + [r], 0) && n <= |Unclosed(c, rs)| && ShortStep(c, rs, n)
    requires !Ends(c, Live(c, rs), r) && Clean(c, rs + [r]) && n + 1 <= |Unclosed(c, rs + [r])|
    ensures ShortStep(c, rs + [r], n + 1)
  {
    hide Live, Unclosed, Suffix, Needed, OnsetNeeds, CleanOnset, PauseOf, Since, IdleOver, Clean;
    var u := Unclosed(c, rs);
    assert (rs + [r])[..|rs|] == rs;
    CleanBefore(c, rs, r);
    LiveSnoc(c, rs, r);
    UnclosedSnoc(c, rs, r);
    SuffixSnoc(u, n, r);
    NeededSnoc(c, rs, r);
    if Onset(c, Live(c, rs), r) {
      if n + 1 >= OnsetNeeds(c, rs, r) {
        ShortOnset(c, rs, n, r);
      }
    } else if Live(c, rs).active {
      RunSnoc(c, Fresh, Suffix(u, n), r);
    } else {
      ShortIdle(c, rs, n, r);
    }
  }

  lemma ShortNone(c: Config, rs: seq<Record>)
    requires ValidConfig(c)
    ensures ShortStep(c, rs, 0)
  {
    hide Live, Unclosed, IdleOver;
    assert Suffix(Unclosed(c, rs), 0) == [];
    IdleOverNone(c);
    if Live(c, rs).active {
      SomeNeeded(c, rs);
    }
  }

  lemma {:induction false} SomeNeeded(c: Config, rs: seq<Record>)
    requires ValidConfig(c) && Live(c, rs).active
    ensures Needed(c, rs) > 0
  {
    hide Keep, Unclosed;
    var init, r := rs[..|rs|-1], rs[|rs|-1];
    if Onset(c, Live(c, init), r) {
      VoicedSnoc(Unclosed(c, init), r);
    }
  }

  /** A journal that has kept as much as an open utterance needs replays it in full,
      however much earlier silence it has overwritten. */
  lemma {:induction false} ShortReplay(c: Config, rs: seq<Record>, n: nat)
    requires ValidConfig(c) && Increasing(rs, 0) && Clean(c, rs) && n <= |Unclosed(c, rs)|
    ensures ShortStep(c, rs, n)
  {
    if rs == [] || n == 0 {
      ShortNone(c, rs);
    } else {
      hide ShortStep, Onset, Ends, CleanOnset, Live, PauseOf, Unclosed, Clean;
      var init, r := rs[..|rs|-1], rs[|rs|-1];
      assert rs == init + [r];
      if Ends(c, Live(c, init), r) {
        ShortClose(c, init, r, n);
      } else {
        CleanBefore(c, init, r);
        UnclosedSnoc(c, init, r);
        ShortReplay(c, init, n - 1);
        ShortOn(c, init, r, n - 1);
      }
    }
  }

  lemma NeededBefore(c: Config, rs: seq<Record>, r: Record)
    requires !Ends(c, Live(c, rs), r)
    ensures Needed(c, rs) <= Needed(c, rs + [r])
  {
    hide Live, Keep, Unclosed;
    NeededSnoc(c, rs, r);
    if !Live(c, rs).active {
      IdleNeeds(c, rs);
    }
  }

  lemma IdleNeeds(c: Config, rs: seq<Record>)
    requires !Live(c, rs).active
    ensures Needed(c, rs) == 0
  {
    hide Keep, Unclosed;
  }

  lemma {:induction false} NeededFits(c: Config, rs: seq<Record>)
    requires ValidConfig(c)
    ensures Needed(c, rs) <= |Unclosed(c, rs)|
  {
    if rs != [] {
      hide Live, Unclosed, Keep;
      var init, r := rs[..|rs|-1], rs[|rs|-1];
      assert rs == init + [r];
      NeededFits(c, init);
      UnclosedSnoc(c, init, r);
      VoicedFits(Unclosed(c, init) + [r]);
      KeepFits(c, Unclosed(c, init), r);
    }
  }

  lemma {:induction false} VoicedFits(rs: seq<Record>)
    ensures |VoicedRun(rs)| <= |rs|
  {
    if rs != [] {
      VoicedFits(rs[..|rs|-1]);
    }
  }

  lemma KeepFits(c: Config, u: seq<Record>, r: Record)
    ensures |Keep(c, Trim(PreRollLimit(c), KeptAll(u)), r)| <= |u| + 1
  {
    hide Trim;
    TrimIsLongest(PreRollLimit(c), KeptAll(u));
    TrimIsLongest(PreRollLimit(c), Trim(PreRollLimit(c), KeptAll(u)) + [Kept(r)]);
  }

  /** One frame past that moment, before an endpoint has been committed. */
  lemma ShortNext(c: Config, rs: seq<Record>, r: Record, n: nat)
    requires ValidConfig(c) && Increasing(rs + [r], 0) && n <= |Unclosed(c, rs)|
    requires if Ends(c, Live(c, rs), r) then Clean(c, rs) && n >= Needed(c, rs)
             else Clean(c, rs + [r]) && n + 1 >= Needed(c, rs + [r])
    ensures Vad.Recut(c, Suffix(Unclosed(c, rs), n) + [r]) == Since(c, rs) + StepOut(c, Live(c, rs), r)
  {
    hide Live, Unclosed, Since, StepOut, Clean, Suffix, Needed;
    var u := Unclosed(c, rs);
    assert (rs + [r])[..|rs|] == rs;
    LiveSnoc(c, rs, r);
    UnclosedSnoc(c, rs, r);
    SuffixSnoc(u, n, r);
    if Ends(c, Live(c, rs), r) {
      ShortReplay(c, rs, n);
      RunSnoc(c, Fresh, Suffix(u, n), r);
    } else {
      ShortReplay(c, rs + [r], n + 1);
      if !Live(c, rs + [r]).active {
        SinceIdle(c, rs + [r]);
      }
    }
  }

  // ---- an onset that is not clean ----

  lemma {:induction false} WireBytes(rs: seq<Record>)
    requires Wire(rs)
    ensures |Payload(rs)| == 2 * Total(rs)
  {
    if rs != [] {
      WireBytes(rs[..|rs|-1]);
    }
  }

  /** Strictly increasing up to, and below, x. */
  ghost predicate Rising(a: seq<Record>, x: Record) {
    (forall i | 0 <= i < |a| :: a[i].seqNo < x.seqNo) && forall i, j | 0 <= i < j < |a| :: a[i].seqNo < a[j].seqNo
  }

  /** Feeds that differ because of the second copy differ in length or in where they
      start. */
  lemma UncleanFeeds(limit: nat, a: seq<Record>, x: Record, y: seq<Record>)
    requires Rising(a, x) && x.samples > 0
    requires Trim(limit, a + [x] + ([x] + y)) != Trim(limit, a + [x] + y)
    ensures var f, g := Trim(limit, a + [x] + ([x] + y)), Trim(limit, a + [x] + y);
            f != [] && g != [] && (Total(f) != Total(g) || f[0].seqNo != g[0].seqNo)
  {
    hide Trim, Total, Suffix, Rising;
    var f, g := Trim(limit, a + [x] + ([x] + y)), Trim(limit, a + [x] + y);
    LastRising(a, x);
    DoubledTrim(limit, a, x, y);
    TrimIsLongest(limit, a + [x] + ([x] + y));
    TrimIsLongest(limit, a + [x] + y);
    TrimTail(limit, a, x, y);
    Associate(a + [x], [x], y);
    TrimTail(limit, a + [x], x, y);
    var t := |g| - |y| - 1;
    TailOfFeed(a, x, y, t);
    if |f| == |y| + 1 {
      OneCopyLeft(a, x, y, f, g, t);
    } else {
      TailOfFeed(a, x, y, |f| - |y| - 2);
      TwoCopiesLeft(a, x, y, f, g, |f| - |y| - 2, t);
    }
  }

  lemma LastRising(a: seq<Record>, x: Record)
    requires Rising(a, x)
    ensures a != [] ==> a[|a|-1] != x
  {
  }

  lemma SuffixAcross(a: seq<Record>, b: seq<Record>, t: nat)
    requires t <= |a|
    ensures Suffix(a + b, t + |b|) == Suffix(a, t) + b
  {
  }

  /** The last t records of a, one or two copies of x, and y. */
  lemma TailOfFeed(a: seq<Record>, x: Record, y: seq<Record>, t: nat)
    requires t <= |a|
    ensures Suffix(a + [x] + y, t + 1 + |y|) == Suffix(a, t) + ([x] + y)
    ensures Suffix(a + [x] + ([x] + y), t + 2 + |y|) == Suffix(a, t) + ([x] + ([x] + y))
    ensures Suffix(a + [x] + ([x] + y), 1 + |y|) == [x] + y
  {
    Associate(a, [x], y);
    Associate(a, [x], [x] + y);
    SuffixAcross(a, [x] + y, t);
    SuffixAcross(a, [x] + ([x] + y), t);
    SuffixAppend(a + [x], [x] + y);
  }

  lemma FeedTotals(s: seq<Record>, x: Record, y: seq<Record>)
    ensures Total(s + ([x] + y)) == Total(s) + x.samples + Total(y)
    ensures Total(s + ([x] + ([x] + y))) == Total(s) + 2 * x.samples + Total(y)
  {
    hide Total;
    TotalConcat(s, [x] + y);
    TotalConcat(s, [x] + ([x] + y));
    TotalConcat([x], [x] + y);
    TotalConcat([x], y);
    TotalOne(x);
  }

  lemma OneCopyLeft(a: seq<Record>, x: Record, y: seq<Record>, f: seq<Record>, g: seq<Record>, t: nat)
    requires Rising(a, x) && f != g && t <= |a|
    requires f == [x] + y && g == Suffix(a, t) + ([x] + y)
    ensures f[0].seqNo != g[0].seqNo
  {
    if t > 0 {
      assert g[0] == a[|a| - t];
    }
  }

  lemma TwoCopiesLeft(a: seq<Record>, x: Record, y: seq<Record>, f: seq<Record>, g: seq<Record>, t': nat, t: nat)
    requires Rising(a, x) && x.samples > 0 && t <= |a| && t' <= |a|
    requires f == Suffix(a, t') + ([x] + ([x] + y)) && g == Suffix(a, t) + ([x] + y)
    ensures Total(f) != Total(g) || f[0].seqNo != g[0].seqNo
  {
    hide Total;
    FeedTotals(Suffix(a, t), x, y);
    FeedTotals(Suffix(a, t'), x, y);
    if t' >= t {
      SuffixGrows(a, t, t');
    } else {
      assert g[0] == a[|a| - t];
      assert f[0] == if t' > 0 then a[|a| - t'] else x;
    }
  }

  // ---- where a commit lands ----

  /** The last voiced frame. */
  function VoicedEnd(rs: seq<Record>): nat {
    if rs == [] then 0 else if rs[|rs|-1].voiced then rs[|rs|-1].seqNo else VoicedEnd(rs[..|rs|-1])
  }

  ghost predicate EndBy(ps: seq<Piece>, b: nat) {
    forall i | 0 <= i < |ps| :: ps[i].seqEnd <= b
  }

  /** No record of the pre-roll is from after b. */
  ghost predicate KeptBy(pre: seq<Record>, b: nat) {
    forall i | 0 <= i < |pre| :: pre[i].seqNo <= b
  }

  lemma KeepBy(c: Config, pre: seq<Record>, r: Record, b: nat)
    requires KeptBy(pre, b) && r.seqNo <= b
    ensures KeptBy(Keep(c, pre, r), b)
  {
    hide Trim;
    forall i | 0 <= i < |Keep(c, pre, r)| ensures Keep(c, pre, r)[i].seqNo <= b {
      TrimMembers(PreRollLimit(c), pre + [Kept(r)], i);
    }
  }

  lemma {:induction false} PreRollBy(c: Config, rs: seq<Record>)
    requires Increasing(rs, 0)
    ensures KeptBy(Live(c, rs).preRoll, LastSeq(rs, 0))
  {
    if rs != [] {
      hide Keep;
      var init, r := rs[..|rs|-1], rs[|rs|-1];
      PreRollBy(c, init);
      KeepBy(c, Live(c, init).preRoll, r, r.seqNo);
      KeepBy(c, Keep(c, Live(c, init).preRoll, r), r, r.seqNo);
    }
  }

  lemma {:induction false} CutEndBy(limit: nat, p: Pending, rs: seq<Record>, b: nat)
    requires KeptBy(rs, b) && (p.Pending? ==> p.end <= b)
    ensures EndBy(CutOut(limit, p, rs), b) && EndBy(ForceCut(CutState(limit, p, rs)), b)
  {
    if rs != [] {
      CutEndBy(limit, p, rs[..|rs|-1], b);
    }
  }

  lemma CutEnds(limit: nat, p: Pending, rs: seq<Record>, r: Record)
    requires r.voiced
    ensures LastEnd(CutOut(limit, p, rs + [r]) + ForceCut(CutState(limit, p, rs + [r])), 0) == r.seqNo
  {
    CutSnoc(limit, p, rs, r);
  }

  lemma KeepEnds(c: Config, pre: seq<Record>, r: Record)
    requires r.samples <= PreRollLimit(c)
    ensures Keep(c, pre, r) != [] && Keep(c, pre, r)[|Keep(c, pre, r)|-1] == Kept(r)
  {
    hide Trim;
    var limit, all := PreRollLimit(c), pre + [Kept(r)];
    TrimIsLongest(limit, all);
    TotalOne(Kept(r));
    assert Suffix(all, 1) == [Kept(r)];
    TrimMembers(limit, all, |Trim(limit, all)| - 1);
  }

  /** All chunks of the utterance, were it flushed now. */
  function Dispatched(c: Config, rs: seq<Record>): seq<Piece> {
    Since(c, rs) + ForceCut(Live(c, rs).held)
  }

  /** While an utterance is open its audio ends with the last voiced frame. */
  ghost predicate EndsVoiced(c: Config, rs: seq<Record>) {
    LastEnd(Dispatched(c, rs), 0) == VoicedEnd(rs) && EndBy(Dispatched(c, rs), VoicedEnd(rs))
  }

  /** An open utterance has a voiced frame. */
  lemma {:induction false} VoicedSince(c: Config, rs: seq<Record>)
    requires ValidConfig(c) && Increasing(rs, 0) && Live(c, rs).active
    ensures VoicedEnd(rs) > 0
  {
    hide Keep;
    var init := rs[..|rs|-1];
    if !rs[|rs|-1].voiced {
      VoicedSince(c, init);
    } else {
      IncreasingPairs(rs, 0, |rs| - 1, |rs| - 1);
    }
  }

  lemma {:induction false} SinceIdle(c: Config, rs: seq<Record>)
    requires ValidConfig(c) && !Live(c, rs).active
    ensures Since(c, rs) == []
  {
    if rs != [] {
      hide Keep;
      var init := rs[..|rs|-1];
      if !Live(c, init).active {
        SinceIdle(c, init);
      }
    }
  }

  /** At an onset the chunks of the utterance are cut from what pre-roll feeds. */
  lemma OnsetCut(c: Config, rs: seq<Record>, r: Record)
    requires ValidConfig(c) && Onset(c, Live(c, rs), r)
    ensures var fed := Keep(c, Live(c, rs).preRoll, r);
            && Since(c, rs + [r]) == CutOut(c.chunkSamples, NoPending, fed)
            && Live(c, rs + [r]) == Machine(true, 0, 0, [], CutState(c.chunkSamples, NoPending, fed))
  {
    hide Keep, Live, CutOut, CutState, Since;
    LiveSnoc(c, rs, r);
    ShapeAlways(c, rs);
    SinceIdle(c, rs);
    assert [] + CutOut(c.chunkSamples, NoPending, Keep(c, Live(c, rs).preRoll, r))
        == CutOut(c.chunkSamples, NoPending, Keep(c, Live(c, rs).preRoll, r));
  }

  lemma OnsetEnds(c: Config, rs: seq<Record>, r: Record)
    requires ValidConfig(c) && Increasing(rs + [r], 0) && r.samples <= PreRollLimit(c)
    requires Onset(c, Live(c, rs), r)
    ensures EndsVoiced(c, rs + [r])
  {
    hide Keep, Live, CutOut, CutState, Since, ForceCut;
    var m := Live(c, rs);
    var fed := Keep(c, m.preRoll, r);
    OnsetCut(c, rs, r);
    assert (rs + [r])[..|rs|] == rs;
    PreRollBy(c, rs);
    KeepBy(c, m.preRoll, r, r.seqNo);
    KeepEnds(c, m.preRoll, r);
    assert fed == fed[..|fed|-1] + [Kept(r)];
    CutEnds(c.chunkSamples, NoPending, fed[..|fed|-1], Kept(r));
    CutEndBy(c.chunkSamples, NoPending, fed, r.seqNo);
  }

  lemma VoicedEnds(c: Config, rs: seq<Record>, r: Record)
    requires Increasing(rs + [r], 0) && Live(c, rs).active && r.voiced
    requires EndBy(Dispatched(c, rs), VoicedEnd(rs)) && VoicedEnd(rs) <= LastSeq(rs, 0)
    ensures EndsVoiced(c, rs + [r])
  {
    hide Keep, Live, Since;
    LiveSnoc(c, rs, r);
    assert (rs + [r])[..|rs|] == rs;
    var out := FeedOut(c.chunkSamples, Live(c, rs).held, r);
    forall i | 0 <= i < |Dispatched(c, rs + [r])| ensures Dispatched(c, rs + [r])[i].seqEnd <= r.seqNo {
      if i < |Since(c, rs)| {
        assert Dispatched(c, rs + [r])[i] == Dispatched(c, rs)[i];
      }
    }
  }

  lemma {:induction false} VoicedEndBy(rs: seq<Record>)
    requires Increasing(rs, 0)
    ensures VoicedEnd(rs) <= LastSeq(rs, 0)
  {
    if rs != [] {
      VoicedEndBy(rs[..|rs|-1]);
    }
  }

  lemma {:induction false} OpenEnds(c: Config, rs: seq<Record>)
    requires ValidConfig(c) && Increasing(rs, 0) && Clean(c, rs) && Live(c, rs).active
    ensures EndsVoiced(c, rs)
  {
    hide Keep, Live, Dispatched, EndsVoiced, CleanOnset, PauseOf;
    LiveFresh(c);
    var init, r := rs[..|rs|-1], rs[|rs|-1];
    assert rs == init + [r];
    LiveSnoc(c, init, r);
    if !Live(c, init).active {
      OnsetEnds(c, init, r);
    } else {
      OpenEnds(c, init);
      VoicedEndBy(init);
      assert EndBy(Dispatched(c, init), VoicedEnd(init)) by {
        EndsBoth(c, init);
      }
      if r.voiced {
        VoicedEnds(c, init, r);
      } else {
        QuietEnds(c, init, r);
      }
    }
  }

  lemma LiveFresh(c: Config)
    ensures Live(c, []) == Fresh && Since(c, []) == []
  {
  }

  lemma EndsBoth(c: Config, rs: seq<Record>)
    requires EndsVoiced(c, rs)
    ensures EndBy(Dispatched(c, rs), VoicedEnd(rs))
  {
  }

  lemma QuietEnds(c: Config, rs: seq<Record>, r: Record)
    requires Live(c, rs).active && !r.voiced && !Ends(c, Live(c, rs), r) && EndsVoiced(c, rs)
    ensures EndsVoiced(c, rs + [r])
  {
    hide Keep, Live, Since;
    LiveSnoc(c, rs, r);
    assert (rs + [r])[..|rs|] == rs;
    assert Since(c, rs) + [] == Since(c, rs);
  }

  /** The committed floor finalizeEndpoint hands to the journal, if any. */
  function TrimFloor(applied: nat, retention: Option<nat>): Option<nat> {
    match retention
    case None => Some(applied)
    case Some(start) => if start == 0 then None else if start - 1 < applied then Some(start - 1) else Some(applied)
  }

  lemma {:induction false} SilenceAfter(rs: seq<Record>)
    requires Increasing(rs, 0)
    ensures After(rs, VoicedEnd(rs)) == Silence(rs)
    ensures forall i | 0 <= i < |Silence(rs)| :: Silence(rs)[i].seqNo > VoicedEnd(rs)
  {
    if rs != [] {
      var init, r := rs[..|rs|-1], rs[|rs|-1];
      SilenceAfter(init);
      VoicedEndBy(init);
      if r.voiced {
        AfterAll(rs, 0, r.seqNo);
      }
    }
  }

  /** Everything the machine may still need lies above the floor. */
  ghost predicate AboveFloor(m: Machine, floor: nat) {
    && (forall i | 0 <= i < |m.preRoll| :: m.preRoll[i].seqNo > floor)
    && (m.held.Pending? ==> m.held.start > floor)
  }

  lemma ClosedAbove(c: Config, rs: seq<Record>, e: Record)
    requires ValidConfig(c) && Increasing(rs + [e], 0) && Ends(c, Live(c, rs), e)
    ensures AboveFloor(Live(c, rs + [e]), VoicedEnd(rs))
  {
    hide Live, Trim, KeptAll;
    assert (rs + [e])[..|rs|] == rs;
    SilenceAfter(rs);
    VoicedEndBy(rs);
    ShapeAlways(c, rs + [e]);
    LiveSnoc(c, rs, e);
    KeptIdleSnoc(c, rs, e);
    var q, zs, kept := VoicedEnd(rs), Silence(rs), KeptIdle(c, rs + [e]);
    forall i | 0 <= i < |kept| ensures kept[i].seqNo > q {
      if i < |zs| {
        KeptAllAt(zs, i);
      }
    }
    forall i | 0 <= i < |Live(c, rs + [e]).preRoll| ensures Live(c, rs + [e]).preRoll[i].seqNo > q {
      TrimMembers(PreRollLimit(c), kept, i);
    }
  }

  /** A commit that applied no further than the last voiced frame puts the floor where
      it applied to, and the journal then hands a full replay what it should read
      exactly when that was the last voiced frame. */
  lemma FloorIff(c: Config, rs: seq<Record>, e: Record, applied: nat)
    requires ValidConfig(c) && Increasing(rs + [e], 0) && Ends(c, Live(c, rs), e) && applied <= VoicedEnd(rs)
    ensures VoicedEnd(rs) < e.seqNo
    ensures TrimFloor(applied, RetentionStart(Live(c, rs + [e]))) == Some(applied)
    ensures After(rs + [e], applied) == Unclosed(c, rs + [e]) <==> applied == VoicedEnd(rs)
  {
    hide Live, Unclosed;
    assert (rs + [e])[..|rs|] == rs;
    ClosedAbove(c, rs, e);
    SilenceAfter(rs);
    VoicedEndBy(rs);
    AfterSnoc(rs, e, applied);
    UnclosedSnoc(c, rs, e);
    if applied < VoicedEnd(rs) {
      VoicedKept(rs, applied);
    }
  }

  /** Below the last voiced frame a full replay reads more than the silence after it. */
  lemma {:induction false} VoicedKept(rs: seq<Record>, q: nat)
    requires Increasing(rs, 0) && q < VoicedEnd(rs)
    ensures |After(rs, q)| > |Silence(rs)|
  {
    var init, r := rs[..|rs|-1], rs[|rs|-1];
    assert rs == init + [r];
    AfterSnoc(init, r, q);
    if !r.voiced {
      VoicedKept(init, q);
      VoicedEndBy(init);
    }
  }

  /** When every chunk of the utterance was applied, that is where the commit is. */
  lemma CommitFloor(c: Config, rs: seq<Record>, e: Record)
    requires ValidConfig(c) && Increasing(rs + [e], 0) && Clean(c, rs) && Ends(c, Live(c, rs), e)
    ensures EndsVoiced(c, rs)
    ensures TrimFloor(VoicedEnd(rs), RetentionStart(Live(c, rs + [e]))) == Some(VoicedEnd(rs))
    ensures After(rs + [e], VoicedEnd(rs)) == Unclosed(c, rs + [e])
  {
    hide Live, Unclosed, EndsVoiced;
    assert (rs + [e])[..|rs|] == rs;
    OpenEnds(c, rs);
    FloorIff(c, rs, e, VoicedEnd(rs));
  }

  // ---- nothing live is trimmed away ----

  ghost predicate InOrder(pre: seq<Record>) {
    forall i, j | 0 <= i <= j < |pre| :: pre[i].seqNo <= pre[j].seqNo
  }

  lemma KeepInOrder(c: Config, pre: seq<Record>, r: Record)
    requires InOrder(pre) && KeptBy(pre, r.seqNo)
    ensures InOrder(Keep(c, pre, r)) && KeptBy(Keep(c, pre, r), r.seqNo)
  {
    hide Trim;
    var all, kept := pre + [Kept(r)], Keep(c, pre, r);
    KeepBy(c, pre, r, r.seqNo);
    forall i, j | 0 <= i <= j < |kept| ensures kept[i].seqNo <= kept[j].seqNo {
      TrimMembers(PreRollLimit(c), all, i);
      TrimMembers(PreRollLimit(c), all, j);
    }
  }

  lemma {:induction false} PreRollInOrder(c: Config, rs: seq<Record>)
    requires Increasing(rs, 0)
    ensures InOrder(Live(c, rs).preRoll)
  {
    if rs != [] {
      hide Keep;
      var init, r := rs[..|rs|-1], rs[|rs|-1];
      PreRollInOrder(c, init);
      PreRollBy(c, init);
      KeepInOrder(c, Live(c, init).preRoll, r);
      KeepInOrder(c, Keep(c, Live(c, init).preRoll, r), r);
    }
  }

  lemma KeepAbove(c: Config, pre: seq<Record>, r: Record, floor: nat)
    requires forall i | 0 <= i < |pre| :: pre[i].seqNo > floor
    requires r.seqNo > floor
    ensures forall i | 0 <= i < |Keep(c, pre, r)| :: Keep(c, pre, r)[i].seqNo > floor
  {
    hide Trim;
    forall i | 0 <= i < |Keep(c, pre, r)| ensures Keep(c, pre, r)[i].seqNo > floor {
      TrimMembers(PreRollLimit(c), pre + [Kept(r)], i);
    }
  }

  lemma {:induction false} CutAbove(limit: nat, p: Pending, rs: seq<Record>, floor: nat)
    requires p.Pending? ==> p.start > floor
    requires forall i | 0 <= i < |rs| :: rs[i].seqNo > floor
    ensures CutState(limit, p, rs).Pending? ==> CutState(limit, p, rs).start > floor
  {
    if rs != [] {
      CutAbove(limit, p, rs[..|rs|-1], floor);
    }
  }

  lemma AboveStep(c: Config, m: Machine, r: Record, floor: nat)
    requires AboveFloor(m, floor) && r.seqNo > floor
    ensures AboveFloor(Onto(c, m, r), floor)
  {
    hide Keep, CutState;
    var pre := Keep(c, m.preRoll, r);
    KeepAbove(c, m.preRoll, r, floor);
    KeepAbove(c, pre, r, floor);
    CutAbove(c.chunkSamples, m.held, pre, floor);
  }

  /** A commit, whatever was applied by then, keeps clear of the pre-roll. */
  lemma AboveCommit(c: Config, rs: seq<Record>, e: Record, applied: nat)
    requires ValidConfig(c) && Increasing(rs + [e], 0) && Ends(c, Live(c, rs), e)
    ensures var f := TrimFloor(applied, RetentionStart(Live(c, rs + [e])));
            && f.Some? && AboveFloor(Live(c, rs + [e]), f.value) && f.value <= applied
            && (e.samples <= PreRollLimit(c) ==> f.value < e.seqNo)
  {
    hide Live, Keep;
    LiveSnoc(c, rs, e);
    assert (rs + [e])[..|rs|] == rs;
    PreRollInOrder(c, rs + [e]);
    PreRollAboveZero(c, rs + [e]);
    var m := Live(c, rs + [e]);
    PreRollBy(c, rs + [e]);
    if e.samples <= PreRollLimit(c) {
      KeepEnds(c, Keep(c, Live(c, rs).preRoll, e), e);
    }
  }

  lemma {:induction false} PreRollAboveZero(c: Config, rs: seq<Record>)
    requires Increasing(rs, 0)
    ensures AboveFloor(Live(c, rs), 0)
  {
    if rs != [] {
      hide Onto, AboveFloor;
      PreRollAboveZero(c, rs[..|rs|-1]);
      AboveStep(c, Live(c, rs[..|rs|-1]), rs[|rs|-1], 0);
    } else {
      AboveFresh(0);
    }
  }

  lemma AboveFresh(floor: nat)
    ensures AboveFloor(Fresh, floor)
  {
  }

  /** The committed floor after a session in which the k-th frame, if an endpoint,
      commits what applied(k) says was applied by then. */
  function FloorAfter(c: Config, rs: seq<Record>, applied: nat -> nat): Option<nat> {
    if rs == [] then None
    else
      var init, r := rs[..|rs|-1], rs[|rs|-1];
      if Ends(c, Live(c, init), r) then
        match TrimFloor(applied(|rs|), RetentionStart(Live(c, rs)))
        case Some(f) => Some(f)
        case None => FloorAfter(c, init, applied)
      else FloorAfter(c, init, applied)
  }

  /** No frame ends an utterance and is too long for the pre-roll at once. */
  predicate EndpointsFit(c: Config, rs: seq<Record>) {
    rs == [] ||
    var init, r := rs[..|rs|-1], rs[|rs|-1];
    EndpointsFit(c, init) && (Ends(c, Live(c, init), r) ==> r.samples <= PreRollLimit(c))
  }

  /** Whatever recoveries did to the applied counter, every record in live pre-roll
      and in the chunk in progress stays above the committed floor. */
  lemma {:induction false} FloorStaysBelow(c: Config, rs: seq<Record>, applied: nat -> nat)
    requires ValidConfig(c) && Increasing(rs, 0) && EndpointsFit(c, rs)
    ensures var f := FloorAfter(c, rs, applied);
            f.Some? ==> AboveFloor(Live(c, rs), f.value) && f.value < LastSeq(rs, 0)
  {
    if rs != [] {
      hide AboveFloor, Onto;
      var init, r := rs[..|rs|-1], rs[|rs|-1];
      assert rs == init + [r];
      FloorStaysBelow(c, init, applied);
      if Ends(c, Live(c, init), r) {
        AboveCommit(c, init, r, applied(|rs|));
      } else if FloorAfter(c, init, applied).Some? {
        AboveStep(c, Live(c, init), r, FloorAfter(c, init, applied).value);
      }
    }
  }

  // ---- replay from a checkpoint ----

  /** The utterance does not end. */
  ghost predicate Within(c: Config, rs: seq<Record>, tail: seq<Record>) {
    tail == [] ||
    (Within(c, rs, tail[..|tail|-1]) && !Ends(c, Live(c, rs + tail[..|tail|-1]), tail[|tail|-1]))
  }

  lemma WithinStep(c: Config, rs: seq<Record>, r: Record)
    requires Live(c, rs).active && !Ends(c, Live(c, rs), r)
    ensures Live(c, rs + [r]).active
    ensures Live(c, rs + [r]).held == FeedState(c.chunkSamples, Live(c, rs).held, r)
    ensures Since(c, rs + [r]) == Since(c, rs) + FeedOut(c.chunkSamples, Live(c, rs).held, r)
    ensures Clean(c, rs) ==> Clean(c, rs + [r])
  {
    hide Keep, Live, Since, CleanOnset, PauseOf;
    LiveSnoc(c, rs, r);
    CleanSnoc(c, rs, r);
  }

  /** The chunk in progress and the chunks, tail on. */
  ghost predicate Continued(c: Config, rs: seq<Record>, tail: seq<Record>) {
    && Live(c, rs + tail).active
    && Live(c, rs + tail).held == CutState(c.chunkSamples, Live(c, rs).held, tail)
    && Since(c, rs + tail) == Since(c, rs) + CutOut(c.chunkSamples, Live(c, rs).held, tail)
    && (Clean(c, rs) ==> Clean(c, rs + tail))
  }

  lemma ContinuedSnoc(c: Config, rs: seq<Record>, tail: seq<Record>, r: Record)
    requires Continued(c, rs, tail) && !Ends(c, Live(c, rs + tail), r)
    ensures Continued(c, rs, tail + [r])
  {
    hide Live, Since, Clean, CutState, CutOut, FeedState, FeedOut, Ends;
    var p := Live(c, rs).held;
    Associate(rs, tail, [r]);
    WithinStep(c, rs + tail, r);
    CutSnoc(c.chunkSamples, p, tail, r);
    Associate(Since(c, rs), CutOut(c.chunkSamples, p, tail),
              FeedOut(c.chunkSamples, CutState(c.chunkSamples, p, tail), r));
  }

  lemma {:induction false} SinceWithin(c: Config, rs: seq<Record>, tail: seq<Record>)
    requires Live(c, rs).active && Within(c, rs, tail)
    ensures Continued(c, rs, tail)
  {
    hide Live, Ends;
    if tail == [] {
      assert rs + tail == rs && Since(c, rs) + [] == Since(c, rs);
    } else {
      hide Continued;
      SinceWithin(c, rs, tail[..|tail|-1]);
      assert tail == tail[..|tail|-1] + [tail[|tail|-1]];
      ContinuedSnoc(c, rs, tail[..|tail|-1], tail[|tail|-1]);
    }
  }

  ghost predicate AllVoiced(rs: seq<Record>) {
    forall i | 0 <= i < |rs| :: rs[i].voiced
  }

  // ---- exactly when a commit-boundary replay repeats the utterance ----

  /** All chunks cut from a list of records, the forced one included. */
  function Whole(limit: nat, fs: seq<Record>): seq<Piece> {
    CutOut(limit, NoPending, fs) + ForceCut(CutState(limit, NoPending, fs))
  }

  /** A machine like the live one but for the chunk in progress. */
  ghost predicate Twin(m: Machine, m': Machine) {
    m'.(held := m.held) == m
  }

  lemma TwinStep(c: Config, m: Machine, m': Machine, r: Record)
    requires Twin(m, m') && m.active && !Ends(c, m, r)
    ensures Twin(Step(c, m, r), Step(c, m', r)) && Step(c, m, r).active
    ensures Step(c, m', r).held == FeedState(c.chunkSamples, m'.held, r)
    ensures StepOut(c, m', r) == FeedOut(c.chunkSamples, m'.held, r)
  {
    hide Keep;
  }

  ghost predicate Follows(c: Config, rs: seq<Record>, m: Machine, tail: seq<Record>) {
    && Live(c, rs + tail).active && Twin(Live(c, rs + tail), Run(c, m, tail))
    && Run(c, m, tail).held == CutState(c.chunkSamples, m.held, tail)
    && RunOut(c, m, tail) == CutOut(c.chunkSamples, m.held, tail)
  }

  lemma FollowsSnoc(c: Config, rs: seq<Record>, m: Machine, tail: seq<Record>, r: Record)
    requires Follows(c, rs, m, tail) && !Ends(c, Live(c, rs + tail), r)
    ensures Follows(c, rs, m, tail + [r])
  {
    hide Live, Run, RunOut, Step, StepOut, CutState, CutOut, FeedState, FeedOut, Ends, Twin;
    Associate(rs, tail, [r]);
    LiveSnoc(c, rs + tail, r);
    RunSnoc(c, m, tail, r);
    CutSnoc(c.chunkSamples, m.held, tail, r);
    TwinStep(c, Live(c, rs + tail), Run(c, m, tail), r);
  }

  lemma {:induction false} FollowsWithin(c: Config, rs: seq<Record>, m: Machine, tail: seq<Record>)
    requires Live(c, rs).active && Twin(Live(c, rs), m) && Within(c, rs, tail)
    ensures Follows(c, rs, m, tail)
  {
    hide Live, Ends;
    if tail == [] {
      assert rs + tail == rs;
    } else {
      hide Follows, Twin;
      FollowsWithin(c, rs, m, tail[..|tail|-1]);
      assert tail == tail[..|tail|-1] + [tail[|tail|-1]];
      FollowsSnoc(c, rs, m, tail[..|tail|-1], tail[|tail|-1]);
    }
  }

  lemma {:induction false} UnclosedWithin(c: Config, rs: seq<Record>, tail: seq<Record>)
    requires Within(c, rs, tail)
    ensures Unclosed(c, rs + tail) == Unclosed(c, rs) + tail
  {
    hide Live, Unclosed, Ends;
    if tail == [] {
      assert rs + tail == rs && Unclosed(c, rs) + [] == Unclosed(c, rs);
    } else {
      var init, r := tail[..|tail|-1], tail[|tail|-1];
      UnclosedWithin(c, rs, init);
      assert rs + tail == (rs + init) + [r] && tail == init + [r];
      UnclosedSnoc(c, rs + init, r);
      Associate(Unclosed(c, rs), init, [r]);
    }
  }

  /** The utterance an onset opens, live: cut from what was fed and what followed. */
  lemma LiveWhole(c: Config, rs: seq<Record>, o: Record, tail: seq<Record>)
    requires ValidConfig(c) && Onset(c, Live(c, rs), o) && Within(c, rs + [o], tail)
    ensures Dispatched(c, rs + [o] + tail) == Whole(c.chunkSamples, Keep(c, Live(c, rs).preRoll, o) + tail)
  {
    hide Live, Keep, Since, CutOut, CutState, ForceCut;
    OnsetCut(c, rs, o);
    SinceWithin(c, rs + [o], tail);
    CutConcat(c.chunkSamples, NoPending, Keep(c, Live(c, rs).preRoll, o), tail);
  }

  /** What a full replay would have dispatched. */
  function Redone(c: Config, u: seq<Record>): seq<Piece> {
    Vad.Recut(c, u) + ForceCut(Run(c, Fresh, u).held)
  }

  /** A replay reaches the onset with what it kept. */
  lemma ReplayOnset(c: Config, rs: seq<Record>, o: Record)
    requires ValidConfig(c) && InStep(c, rs) && Onset(c, Live(c, rs), o)
    ensures var u, fed := Unclosed(c, rs), Keep(c, ReplayKept(c, rs), o);
            && Run(c, Fresh, u + [o]) == Machine(true, 0, 0, [], CutState(c.chunkSamples, NoPending, fed))
            && Vad.Recut(c, u + [o]) == CutOut(c.chunkSamples, NoPending, fed)
            && Unclosed(c, rs + [o]) == u + [o]
  {
    hide Live, Keep, Since, CutOut, CutState, Run, RunOut, Unclosed, Trim, KeptAll;
    ShapeAlways(c, rs);
    SinceIdle(c, rs);
    UnclosedSnoc(c, rs, o);
    RunSnoc(c, Fresh, Unclosed(c, rs), o);
    NoneFirst(CutOut(c.chunkSamples, NoPending, Keep(c, ReplayKept(c, rs), o)));
  }

  lemma NoneFirst(ps: seq<Piece>)
    ensures [] + ps == ps
  {
  }

  /** ... and replayed. */
  lemma ReplayWhole(c: Config, rs: seq<Record>, o: Record, tail: seq<Record>)
    requires ValidConfig(c) && InStep(c, rs) && Onset(c, Live(c, rs), o) && Within(c, rs + [o], tail)
    ensures Redone(c, Unclosed(c, rs + [o] + tail)) == Whole(c.chunkSamples, Keep(c, ReplayKept(c, rs), o) + tail)
  {
    hide Live, Keep, Since, CutOut, CutState, ForceCut, Run, RunOut, Unclosed, Trim, KeptAll, InStep, ReplayKept;
    var u, fed := Unclosed(c, rs), Keep(c, ReplayKept(c, rs), o);
    OnsetCut(c, rs, o);
    ReplayOnset(c, rs, o);
    UnclosedWithin(c, rs + [o], tail);
    RunConcat(c, Fresh, u + [o], tail);
    FollowsWithin(c, rs + [o], Run(c, Fresh, u + [o]), tail);
    CutConcat(c.chunkSamples, NoPending, fed, tail);
  }

  lemma {:induction false} OutStarts(limit: nat, fs: seq<Record>)
    requires limit > 0 && fs != [] && fs[0].voiced
    ensures var out, p := CutOut(limit, NoPending, fs), CutState(limit, NoPending, fs);
            if out == [] then p.Pending? && p.start == fs[0].seqNo else out[0].seqStart == fs[0].seqNo
  {
    if |fs| > 1 {
      OutStarts(limit, fs[..|fs|-1]);
    }
  }

  lemma WholeStarts(limit: nat, fs: seq<Record>)
    requires limit > 0 && fs != [] && fs[0].voiced
    ensures Whole(limit, fs) != [] && Whole(limit, fs)[0].seqStart == fs[0].seqNo
  {
    OutStarts(limit, fs);
  }

  lemma {:induction false} SpokenConcat(xs: seq<Record>, ys: seq<Record>)
    ensures Audio.Spoken(xs + ys) == Audio.Spoken(xs) + Audio.Spoken(ys)
  {
    if ys == [] {
      assert xs + ys == xs;
    } else {
      SpokenConcat(xs, ys[..|ys|-1]);
      assert (xs + ys)[..|xs + ys|-1] == xs + ys[..|ys|-1];
    }
  }

  lemma {:induction false} SpokenAll(fs: seq<Record>)
    requires AllVoiced(fs)
    ensures Audio.Spoken(fs) == fs
  {
    if fs != [] {
      SpokenAll(fs[..|fs|-1]);
    }
  }

  lemma {:induction false} SpokenWire(rs: seq<Record>)
    requires Wire(rs)
    ensures Wire(Audio.Spoken(rs))
  {
    if rs != [] {
      SpokenWire(rs[..|rs|-1]);
    }
  }

  /** The bytes of all chunks, counted from durations. */
  lemma WholeBytes(limit: nat, fs: seq<Record>, tail: seq<Record>)
    requires AllVoiced(fs) && Wire(fs) && Wire(tail)
    ensures |Audible(Whole(limit, fs + tail))| == 2 * Total(fs) + 2 * Total(Audio.Spoken(tail))
  {
    hide CutOut, CutState, ForceCut, Audible, Audio.Spoken, Total;
    CutConservesAudio(limit, fs + tail);
    AudibleConcat(CutOut(limit, NoPending, fs + tail), ForceCut(CutState(limit, NoPending, fs + tail)));
    SpokenConcat(fs, tail);
    SpokenAll(fs);
    SpokenWire(tail);
    WireBytes(fs + Audio.Spoken(tail));
    TotalConcat(fs, Audio.Spoken(tail));
  }

  lemma WholesDiffer(limit: nat, f: seq<Record>, g: seq<Record>, tail: seq<Record>)
    requires limit > 0 && f != [] && g != [] && AllVoiced(f) && AllVoiced(g) && Wire(f) && Wire(g) && Wire(tail)
    requires Total(f) != Total(g) || f[0].seqNo != g[0].seqNo
    ensures Whole(limit, f + tail) != Whole(limit, g + tail)
  {
    hide Whole, Total, Wire;
    WholeBytes(limit, f, tail);
    WholeBytes(limit, g, tail);
    WholeStarts(limit, f + tail);
    WholeStarts(limit, g + tail);
  }

  predicate SuffixOf(u: seq<Record>, rs: seq<Record>) {
    |u| <= |rs| && rs[|rs| - |u|..] == u
  }

  lemma SuffixOfSnoc(u: seq<Record>, rs: seq<Record>, r: Record)
    requires SuffixOf(u, rs)
    ensures SuffixOf(u + [r], rs + [r])
  {
  }

  lemma {:induction false} SilenceSuffix(rs: seq<Record>)
    ensures SuffixOf(Silence(rs), rs)
  {
    if rs != [] && !rs[|rs|-1].voiced {
      hide SuffixOf;
      var init, r := rs[..|rs|-1], rs[|rs|-1];
      assert rs == init + [r];
      SilenceSuffix(init);
      SuffixOfSnoc(Silence(init), init, r);
    }
  }

  lemma {:induction false} UnclosedSuffix(c: Config, rs: seq<Record>)
    ensures SuffixOf(Unclosed(c, rs), rs)
  {
    if rs != [] {
      hide Live, Unclosed, SuffixOf, Silence, Ends;
      var init, r := rs[..|rs|-1], rs[|rs|-1];
      assert rs == init + [r];
      UnclosedSnoc(c, init, r);
      UnclosedSuffix(c, init);
      SilenceSuffix(init);
      SuffixOfSnoc(Unclosed(c, init), init, r);
      SuffixOfSnoc(Silence(init), init, r);
    } else {
      assert Unclosed(c, rs) == rs;
    }
  }

  lemma {:induction false} KeptWire(rs: seq<Record>)
    requires Wire(rs)
    ensures Wire(KeptAll(rs)) && AllVoiced(KeptAll(rs))
  {
    if rs != [] {
      KeptWire(rs[..|rs|-1]);
    }
  }

  lemma TrimWire(limit: nat, rs: seq<Record>)
    requires Wire(rs) && AllVoiced(rs)
    ensures Wire(Trim(limit, rs)) && AllVoiced(Trim(limit, rs))
  {
    forall i | 0 <= i < |Trim(limit, rs)| ensures Trim(limit, rs)[i] in rs {
      TrimMembers(limit, rs, i);
    }
  }

  ghost predicate Ascending(u: seq<Record>) {
    forall i, j | 0 <= i < j < |u| :: u[i].seqNo < u[j].seqNo
  }

  lemma SuffixAscending(rs: seq<Record>, u: seq<Record>)
    requires Increasing(rs, 0) && SuffixOf(u, rs)
    ensures Ascending(u)
  {
    var k := |rs| - |u|;
    forall i, j | 0 <= i < j < |u| ensures u[i].seqNo < u[j].seqNo {
      IncreasingPairs(rs, 0, k + i, k + j);
      assert u[i] == rs[k + i] && u[j] == rs[k + j];
    }
  }

  lemma RisingKept(zs: seq<Record>, e: Record, ys: seq<Record>)
    requires Ascending(zs + [e] + ys)
    ensures Rising(KeptAll(zs), Kept(e))
  {
    hide KeptAll;
    var u := zs + [e] + ys;
    assert u[|zs|] == e;
    forall i | 0 <= i < |zs| ensures KeptAll(zs)[i].seqNo == u[i].seqNo < e.seqNo {
      KeptAllAt(zs, i);
      assert u[i] == zs[i];
    }
  }

  lemma PauseRising(c: Config, rs: seq<Record>)
    requires Increasing(rs, 0) && PauseOf(c, rs).Pause?
    ensures var p := PauseOf(c, rs); Rising(KeptAll(p.before), Kept(p.endpoint))
  {
    hide Live, Ascending, Rising, KeptAll;
    UnclosedSuffix(c, rs);
    SuffixAscending(rs, Unclosed(c, rs));
    RisingKept(PauseOf(c, rs).before, PauseOf(c, rs).endpoint, PauseOf(c, rs).since);
  }

  lemma UncleanOnset(c: Config, rs: seq<Record>, o: Record)
    requires ValidConfig(c) && Increasing(rs, 0) && Wire(rs + [o]) && !Live(c, rs).active
    requires PauseOf(c, rs).Pause? && PauseOf(c, rs).endpoint.samples > 0 && !CleanOnset(c, PauseOf(c, rs), o)
    ensures var f, g := Keep(c, Live(c, rs).preRoll, o), Keep(c, ReplayKept(c, rs), o);
            && f != [] && g != [] && AllVoiced(f) && AllVoiced(g) && Wire(f) && Wire(g)
            && (Total(f) != Total(g) || f[0].seqNo != g[0].seqNo)
  {
    hide Live, Trim, KeptAll, Total, Wire, AllVoiced, Rising, Unclosed;
    var limit := PreRollLimit(c);
    FedIff(c, rs, o);
    FedForms(c, rs, o);
    PauseRising(c, rs);
    var p := PauseOf(c, rs);
    UncleanFeeds(limit, KeptAll(p.before), Kept(p.endpoint), KeptAll(p.since + [o]));
    PauseWire(c, rs, o);
    TrimWire(limit, KeptAll(p.before) + [Kept(p.endpoint)] + ([Kept(p.endpoint)] + KeptAll(p.since + [o])));
    TrimWire(limit, KeptAll(p.before) + [Kept(p.endpoint)] + KeptAll(p.since + [o]));
  }

  lemma SuffixWire(rs: seq<Record>, u: seq<Record>)
    requires Wire(rs) && SuffixOf(u, rs)
    ensures Wire(u)
  {
  }

  lemma WireParts(zs: seq<Record>, e: Record, ys: seq<Record>, o: Record)
    requires Wire(zs + [e] + ys) && |o.payload| == 2 * o.samples
    ensures Wire(zs) && |e.payload| == 2 * e.samples && Wire(ys + [o])
  {
    var u := zs + [e] + ys;
    forall i | 0 <= i < |zs| ensures |zs[i].payload| == 2 * zs[i].samples {
      assert zs[i] == u[i];
    }
    assert e == u[|zs|];
    forall i | 0 <= i < |ys + [o]| ensures |(ys + [o])[i].payload| == 2 * (ys + [o])[i].samples {
      if i < |ys| {
        assert ys[i] == u[|zs| + 1 + i];
      }
    }
  }

  lemma WireJoin(a: seq<Record>, b: seq<Record>)
    requires Wire(a) && Wire(b) && AllVoiced(a) && AllVoiced(b)
    ensures Wire(a + b) && AllVoiced(a + b)
  {
  }

  lemma PauseWire(c: Config, rs: seq<Record>, o: Record)
    requires Wire(rs + [o]) && PauseOf(c, rs).Pause?
    ensures var p := PauseOf(c, rs);
            var d, s := KeptAll(p.before) + [Kept(p.endpoint)] + ([Kept(p.endpoint)] + KeptAll(p.since + [o])),
                        KeptAll(p.before) + [Kept(p.endpoint)] + KeptAll(p.since + [o]);
            Wire(d) && AllVoiced(d) && Wire(s) && AllVoiced(s)
  {
    hide Live, KeptAll;
    var p := PauseOf(c, rs);
    UnclosedSuffix(c, rs);
    assert (rs + [o])[..|rs|] == rs && (rs + [o])[|rs|] == o;
    SuffixWire(rs, Unclosed(c, rs));
    WireParts(p.before, p.endpoint, p.since, o);
    KeptWire(p.before);
    KeptWire(p.since + [o]);
    WireJoin(KeptAll(p.before) + [Kept(p.endpoint)], [Kept(p.endpoint)] + KeptAll(p.since + [o]));
    WireJoin(KeptAll(p.before) + [Kept(p.endpoint)], KeptAll(p.since + [o]));
  }

  /** The two feeds at an onset, written out. */
  lemma FedForms(c: Config, rs: seq<Record>, o: Record)
    requires ValidConfig(c) && !Live(c, rs).active && PauseOf(c, rs).Pause?
    ensures var limit, p := PreRollLimit(c), PauseOf(c, rs);
            && Keep(c, Live(c, rs).preRoll, o)
               == Trim(limit, KeptAll(p.before) + [Kept(p.endpoint)] + ([Kept(p.endpoint)] + KeptAll(p.since + [o])))
            && Keep(c, ReplayKept(c, rs), o)
               == Trim(limit, KeptAll(p.before) + [Kept(p.endpoint)] + KeptAll(p.since + [o]))
  {
    hide Live, Trim, KeptAll;
    var limit, p := PreRollLimit(c), PauseOf(c, rs);
    ShapeAlways(c, rs);
    TrimSnoc(limit, KeptIdle(c, rs), Kept(o));
    TrimSnoc(limit, KeptAll(Unclosed(c, rs)), Kept(o));
    KeptAllSnoc(p.since, o);
    KeptAllSnoc(p.before, p.endpoint);
    KeptAllConcat(p.before + [p.endpoint], p.since);
    Regroup(KeptAll(p.before), Kept(p.endpoint), KeptAll(p.since), Kept(o));
  }

  /** However an utterance goes on after its onset, a full replay dispatches the same
      chunks, tail included, exactly when the onset was clean: when the endpoint
      frame's second copy had stopped mattering. */
  lemma RepeatsIff(c: Config, rs: seq<Record>, o: Record, tail: seq<Record>)
    requires ValidConfig(c) && Increasing(rs, 0) && Wire(rs + [o]) && Wire(tail)
    requires Onset(c, Live(c, rs), o) && Within(c, rs + [o], tail)
    requires PauseOf(c, rs).Pause? ==> PauseOf(c, rs).endpoint.samples > 0
    ensures Redone(c, Unclosed(c, rs + [o] + tail)) == Dispatched(c, rs + [o] + tail)
            <==> CleanOnset(c, PauseOf(c, rs), o)
  {
    hide Live, Keep, Redone, Unclosed, Dispatched, Whole, Clean, Wire, Within, Total;
    IdleClean(c, rs);
    ReplayIsLive(c, rs);
    LiveWhole(c, rs, o, tail);
    ReplayWhole(c, rs, o, tail);
    FedIff(c, rs, o);
    if !CleanOnset(c, PauseOf(c, rs), o) {
      UncleanOnset(c, rs, o);
      WholesDiffer(c.chunkSamples, Keep(c, Live(c, rs).preRoll, o), Keep(c, ReplayKept(c, rs), o), tail);
    }
  }

  /** A frame too long for the pre-roll pushes everything out of it. */
  lemma TooLong(limit: nat, pre: seq<Record>, r: Record)
    requires r.samples > limit
    ensures Trim(limit, pre + [r]) == []
  {
    var all := pre + [r];
    TrimIsLongest(limit, all);
    if Trim(limit, all) != [] {
      assert Suffix(all, 1) == [r];
      TotalOne(r);
      SuffixGrows(all, 1, |Trim(limit, all)|);
    }
  }

  lemma TrimFits(limit: nat, rs: seq<Record>)
    requires Total(rs) <= limit
    ensures Trim(limit, rs) == rs
  {
  }

  lemma {:induction false} IncreasingJoin(xs: seq<Record>, ys: seq<Record>)
    requires Increasing(xs, 0) && Increasing(ys, LastSeq(xs, 0))
    ensures Increasing(xs + ys, 0)
  {
    if ys == [] {
      assert xs + ys == xs;
    } else {
      IncreasingJoin(xs, ys[..|ys|-1]);
      assert (xs + ys)[..|xs + ys|-1] == xs + ys[..|ys|-1];
    }
  }
}

/** The voice-activity state machine: internal/audio/vad.go.

    The detector's verdict on a frame is an input (Record.voiced). What is
    modelled is everything built on it: hysteresis, pre-roll, replay. */
module Vad {
  import opened Audio
  import opened Wrappers

  datatype Config = Config(startSpeechMs: nat, endSilenceMs: nat, preRollMs: nat, chunkSamples: nat)

  /** Less than validate() enforces, which asks for at least a detector window each,
      plus a positive chunk width. */
  ghost predicate ValidConfig(c: Config) {
    c.startSpeechMs > 0 && c.endSilenceMs > 0 && c.chunkSamples > 0
  }

  function PreRollLimit(c: Config): nat { c.preRollMs * SAMPLES_PER_MS }

  /** int(durationMs): whole milliseconds only. */
  function WholeMs(r: Record): nat { r.samples / SAMPLES_PER_MS }

  datatype Event = SpeechStart(seqNo: nat) | Endpoint(seqNo: nat)

  datatype Machine = Machine(active: bool, voiceMs: nat, silenceMs: nat, preRoll: seq<Record>, held: Pending)

  const Fresh := Machine(false, 0, 0, [], NoPending)

  // ---- pre-roll ----

  /** pendingRecord drops the voice decision; pre-roll is always fed as voiced. */
  function Kept(r: Record): Record { r.(voiced := true) }

  function KeptAll(rs: seq<Record>): (ks: seq<Record>)
    ensures |ks| == |rs|
  {
    if rs == [] then [] else KeptAll(rs[..|rs|-1]) + [Kept(rs[|rs|-1])]
  }

  /** Evict from the old end until the rest fits. */
  function Trim(limit: nat, rs: seq<Record>): seq<Record>
    decreases |rs|
  {
    if Total(rs) > limit && rs != [] then Trim(limit, rs[1..]) else rs
  }

  function Keep(c: Config, pre: seq<Record>, r: Record): seq<Record> {
    Trim(PreRollLimit(c), pre + [Kept(r)])
  }

  // ---- one record through the machine ----

  function VoiceAfter(m: Machine, r: Record): nat {
    if r.voiced then m.voiceMs + WholeMs(r) else 0
  }

  predicate Onset(c: Config, m: Machine, r: Record) {
    !m.active && VoiceAfter(m, r) >= c.startSpeechMs
  }

  predicate Ends(c: Config, m: Machine, r: Record) {
    m.active && !r.voiced && m.silenceMs + WholeMs(r) >= c.endSilenceMs
  }

  function Step(c: Config, m: Machine, r: Record): Machine {
    var pre := Keep(c, m.preRoll, r);
    if Onset(c, m, r) then
      Machine(true, 0, 0, [], CutState(c.chunkSamples, m.held, pre))
    else if !m.active then
      m.(preRoll := pre, voiceMs := VoiceAfter(m, r))
    else if r.voiced then
      m.(silenceMs := 0, preRoll := [], held := FeedState(c.chunkSamples, m.held, r))
    else if Ends(c, m, r) then
      m.(active := false, silenceMs := 0, preRoll := Keep(c, pre, r))
    else
      m.(silenceMs := m.silenceMs + WholeMs(r), preRoll := pre)
  }

  /** The chunks a record completes. */
  function StepOut(c: Config, m: Machine, r: Record): seq<Piece> {
    if Onset(c, m, r) then CutOut(c.chunkSamples, m.held, Keep(c, m.preRoll, r))
    else if m.active && r.voiced then FeedOut(c.chunkSamples, m.held, r)
    else []
  }

  function StepEvents(c: Config, m: Machine, r: Record): seq<Event> {
    if Onset(c, m, r) then [SpeechStart(r.seqNo)]
    else if Ends(c, m, r) then [Endpoint(r.seqNo)]
    else []
  }

  function Run(c: Config, m: Machine, rs: seq<Record>): Machine {
    if rs == [] then m else Step(c, Run(c, m, rs[..|rs|-1]), rs[|rs|-1])
  }

  function RunOut(c: Config, m: Machine, rs: seq<Record>): seq<Piece> {
    if rs == [] then []
    else RunOut(c, m, rs[..|rs|-1]) + StepOut(c, Run(c, m, rs[..|rs|-1]), rs[|rs|-1])
  }

  /** Replay from an idle machine, as Recut does. */
  function Recut(c: Config, rs: seq<Record>): seq<Piece> {
    RunOut(c, Fresh, rs)
  }

  function Flushed(m: Machine): Machine { m.(held := NoPending) }

  lemma RunSnoc(c: Config, m: Machine, rs: seq<Record>, r: Record)
    ensures Run(c, m, rs + [r]) == Step(c, Run(c, m, rs), r)
    ensures RunOut(c, m, rs + [r]) == RunOut(c, m, rs) + StepOut(c, Run(c, m, rs), r)
  {
    hide Step, StepOut;
    assert (rs + [r])[..|rs + [r]|-1] == rs;
  }

  lemma {:induction false} RunConcat(c: Config, m: Machine, xs: seq<Record>, ys: seq<Record>)
    ensures Run(c, m, xs + ys) == Run(c, Run(c, m, xs), ys)
    ensures RunOut(c, m, xs + ys) == RunOut(c, m, xs) + RunOut(c, Run(c, m, xs), ys)
  {
    hide Step, StepOut;
    if ys == [] {
      assert xs + ys == xs;
    } else {
      var init, y := ys[..|ys|-1], ys[|ys|-1];
      RunConcat(c, m, xs, init);
      RunSnoc(c, m, xs + init, y);
      assert xs + ys == (xs + init) + [y];
      var q := Run(c, m, xs);
      Associate(RunOut(c, m, xs), RunOut(c, q, init), StepOut(c, Run(c, q, init), y));
    }
  }

  /** The oldest record the pre-roll still needs. */
  function RetentionStart(m: Machine): Option<nat> {
    if m.preRoll == [] then None else Some(m.preRoll[0].seqNo)
  }

  // ---- pre-roll is the longest suffix that fits ----

  function Suffix(rs: seq<Record>, n: nat): (s: seq<Record>)
    requires n <= |rs|
    ensures |s| == n
  {
    rs[|rs| - n..]
  }

  /** The last n records fit the limit, and no more of them would. */
  ghost predicate Longest(limit: nat, all: seq<Record>, n: nat) {
    && n <= |all|
    && Total(Suffix(all, n)) <= limit
    && (n < |all| ==> Total(Suffix(all, n + 1)) > limit)
  }

  ghost predicate LongestSuffix(limit: nat, all: seq<Record>, s: seq<Record>) {
    |s| <= |all| && s == Suffix(all, |s|) && Longest(limit, all, |s|)
  }

  lemma SuffixOfSuffix(all: seq<Record>, m: nat, n: nat)
    requires n <= m <= |all|
    ensures Suffix(Suffix(all, m), n) == Suffix(all, n)
  {
  }

  lemma SuffixSnoc(all: seq<Record>, n: nat, r: Record)
    requires n <= |all|
    ensures Suffix(all + [r], n + 1) == Suffix(all, n) + [r]
  {
  }

  lemma SuffixEnds(rs: seq<Record>)
    ensures Suffix(rs, |rs|) == rs
    ensures rs != [] ==> Suffix(rs, |rs| - 1) == rs[1..]
  {
  }

  lemma SuffixGrows(all: seq<Record>, n: nat, m: nat)
    requires n <= m <= |all|
    ensures Total(Suffix(all, n)) <= Total(Suffix(all, m))
  {
    assert Suffix(all, m) == all[|all| - m..|all| - n] + Suffix(all, n);
    TotalConcat(all[|all| - m..|all| - n], Suffix(all, n));
  }

  lemma LongestUnique(limit: nat, all: seq<Record>, n: nat, m: nat)
    requires Longest(limit, all, n) && Longest(limit, all, m)
    ensures n == m
  {
    hide Suffix, Total;
    if n < m {
      SuffixGrows(all, n + 1, m);
    } else if m < n {
      SuffixGrows(all, m + 1, n);
    }
  }

  lemma LongestSnoc(limit: nat, all: seq<Record>, n: nat, r: Record, k: nat)
    requires Longest(limit, all, n) && Longest(limit, Suffix(all, n) + [r], k)
    ensures Longest(limit, all + [r], k)
  {
    hide Suffix, Total;
    var big, small := all + [r], Suffix(all, n) + [r];
    SuffixSnoc(all, n, r);
    SuffixOfSuffix(big, n + 1, k);
    if k < n + 1 {
      SuffixOfSuffix(big, n + 1, k + 1);
    } else if k < |big| {
      SuffixSnoc(all, n + 1, r);
      TotalConcat(Suffix(all, n + 1), [r]);
    }
  }

  lemma {:induction false} TrimIsLongest(limit: nat, rs: seq<Record>)
    ensures LongestSuffix(limit, rs, Trim(limit, rs))
    decreases |rs|
  {
    if Total(rs) > limit && rs != [] {
      hide Total, Suffix;
      var tail := rs[1..];
      TrimIsLongest(limit, tail);
      var n := |Trim(limit, tail)|;
      SuffixEnds(rs);
      SuffixOfSuffix(rs, |rs| - 1, n);
      if n < |tail| {
        SuffixOfSuffix(rs, |rs| - 1, n + 1);
      }
    } else {
      SuffixEnds(rs);
    }
  }

  /** Trimming after every append is trimming once at the end. */
  lemma TrimSnoc(limit: nat, all: seq<Record>, r: Record)
    ensures Trim(limit, Trim(limit, all) + [r]) == Trim(limit, all + [r])
  {
    hide Trim, Suffix, Total, Longest;
    var s := Trim(limit, all);
    var t := Trim(limit, s + [r]);
    TrimIsLongest(limit, all);
    TrimIsLongest(limit, s + [r]);
    TrimIsLongest(limit, all + [r]);
    LongestSnoc(limit, all, |s|, r, |t|);
    LongestUnique(limit, all + [r], |t|, |Trim(limit, all + [r])|);
    SuffixSnoc(all, |s|, r);
    SuffixOfSuffix(all + [r], |s| + 1, |t|);
  }

  lemma KeptAllSnoc(rs: seq<Record>, r: Record)
    ensures KeptAll(rs + [r]) == KeptAll(rs) + [Kept(r)]
  {
    assert (rs + [r])[..|rs + [r]|-1] == rs;
  }

  lemma {:induction false} KeptAllConcat(xs: seq<Record>, ys: seq<Record>)
    ensures KeptAll(xs + ys) == KeptAll(xs) + KeptAll(ys)
  {
    if ys == [] {
      assert xs + ys == xs;
    } else {
      var init, y := ys[..|ys|-1], ys[|ys|-1];
      KeptAllConcat(xs, init);
      KeptAllSnoc(xs + init, y);
      assert xs + ys == (xs + init) + [y];
      Associate(KeptAll(xs), KeptAll(init), [Kept(y)]);
    }
  }

  lemma {:induction false} KeptAllAt(rs: seq<Record>, i: nat)
    requires i < |rs|
    ensures KeptAll(rs)[i] == Kept(rs[i])
  {
    if i < |rs| - 1 {
      KeptAllAt(rs[..|rs|-1], i);
    }
  }

  lemma {:induction false} KeptAllTotal(rs: seq<Record>)
    ensures Total(KeptAll(rs)) == Total(rs)
  {
    if rs != [] {
      var init, r := rs[..|rs|-1], rs[|rs|-1];
      KeptAllTotal(init);
      TotalSnoc(KeptAll(init), Kept(r));
    }
  }

  lemma TotalSnoc(rs: seq<Record>, r: Record)
    ensures Total(rs + [r]) == Total(rs) + r.samples
  {
    assert (rs + [r])[..|rs|] == rs;
  }

  function KeptNext(c: Config, m: Machine, kept: seq<Record>, r: Record): seq<Record> {
    if Onset(c, m, r) || (m.active && r.voiced) then []
    else if Ends(c, m, r) then kept + [Kept(r)] + [Kept(r)]
    else kept + [Kept(r)]
  }

  /** Everything kept since the pre-roll was last emptied, on a run from idle. */
  function KeptSince(c: Config, rs: seq<Record>): seq<Record> {
    if rs == [] then []
    else KeptNext(c, Run(c, Fresh, rs[..|rs|-1]), KeptSince(c, rs[..|rs|-1]), rs[|rs|-1])
  }

  lemma StepPreRoll(c: Config, m: Machine, kept: seq<Record>, r: Record)
    requires m.preRoll == Trim(PreRollLimit(c), kept)
    ensures Step(c, m, r).preRoll == Trim(PreRollLimit(c), KeptNext(c, m, kept, r))
  {
    hide Trim;
    var limit := PreRollLimit(c);
    TrimSnoc(limit, kept, Kept(r));
    TrimSnoc(limit, kept + [Kept(r)], Kept(r));
    TrimEmpty(limit);
  }

  lemma {:induction false} PreRollTrims(c: Config, rs: seq<Record>)
    ensures Run(c, Fresh, rs).preRoll == Trim(PreRollLimit(c), KeptSince(c, rs))
  {
    if rs == [] {
      TrimEmpty(PreRollLimit(c));
    } else {
      hide Trim, Step, KeptNext;
      PreRollTrims(c, rs[..|rs|-1]);
      StepPreRoll(c, Run(c, Fresh, rs[..|rs|-1]), KeptSince(c, rs[..|rs|-1]), rs[|rs|-1]);
    }
  }

  lemma TrimEmpty(limit: nat)
    ensures Trim(limit, []) == []
  {
  }

  /** At every moment of every run, pre-roll is the longest suffix of what was
      kept that fits in PreRollMs. */
  lemma PreRollIsLongestSuffix(c: Config, rs: seq<Record>)
    ensures LongestSuffix(PreRollLimit(c), KeptSince(c, rs), Run(c, Fresh, rs).preRoll)
  {
    PreRollTrims(c, rs);
    TrimIsLongest(PreRollLimit(c), KeptSince(c, rs));
  }

  // ---- speech onset is not clipped ----

  /** The voiced frames at the end of rs. */
  function VoicedRun(rs: seq<Record>): seq<Record> {
    if rs == [] || !rs[|rs|-1].voiced then [] else VoicedRun(rs[..|rs|-1]) + [rs[|rs|-1]]
  }

  function MsOf(rs: seq<Record>): nat {
    if rs == [] then 0 else MsOf(rs[..|rs|-1]) + WholeMs(rs[|rs|-1])
  }

  ghost predicate EndsWith(all: seq<Record>, tail: seq<Record>) {
    |tail| <= |all| && Suffix(all, |tail|) == tail
  }

  lemma EndsWithSnoc(all: seq<Record>, tail: seq<Record>, r: Record)
    requires EndsWith(all, tail)
    ensures EndsWith(all + [r], tail + [r])
  {
    SuffixSnoc(all, |tail|, r);
  }

  lemma MsSnoc(rs: seq<Record>, r: Record)
    ensures MsOf(rs + [r]) == MsOf(rs) + WholeMs(r)
  {
    assert (rs + [r])[..|rs|] == rs;
  }

  /** While idle, voiceMs measures the current voiced run, all of which was kept. */
  ghost predicate IdleInv(c: Config, m: Machine, kept: seq<Record>, run: seq<Record>) {
    && (m.active ==> m.voiceMs == 0)
    && (!m.active ==>
      && m.voiceMs == MsOf(run)
      && m.voiceMs < c.startSpeechMs
      && EndsWith(kept, KeptAll(run)))
  }

  lemma IdleStep(c: Config, m: Machine, kept: seq<Record>, run: seq<Record>, r: Record)
    requires ValidConfig(c) && IdleInv(c, m, kept, run)
    ensures IdleInv(c, Step(c, m, r), KeptNext(c, m, kept, r), if r.voiced then run + [r] else [])
  {
    hide Keep, KeptAll;
    MsSnoc(run, r);
    KeptAllSnoc(run, r);
    assert KeptAll([]) == [];
    if !m.active {
      EndsWithSnoc(kept, KeptAll(run), Kept(r));
    }
  }

  lemma {:induction false} IdleAlways(c: Config, rs: seq<Record>)
    requires ValidConfig(c)
    ensures IdleInv(c, Run(c, Fresh, rs), KeptSince(c, rs), VoicedRun(rs))
  {
    if rs != [] {
      hide IdleInv, Step, KeptNext;
      IdleAlways(c, rs[..|rs|-1]);
      IdleStep(c, Run(c, Fresh, rs[..|rs|-1]), KeptSince(c, rs[..|rs|-1]), VoicedRun(rs[..|rs|-1]), rs[|rs|-1]);
    }
  }

  /** When speech starts, the whole voiced run that triggered it is fed to the
      model exactly when that run fits in the pre-roll. */
  lemma OnsetFeedsRun(c: Config, init: seq<Record>, r: Record)
    requires ValidConfig(c) && Onset(c, Run(c, Fresh, init), r)
    ensures EndsWith(Keep(c, Run(c, Fresh, init).preRoll, r), KeptAll(VoicedRun(init + [r])))
       <==> Total(VoicedRun(init + [r])) <= PreRollLimit(c)
  {
    hide Run, KeptSince, KeptAll, Trim, Total, EndsWith;
    var limit, run := PreRollLimit(c), VoicedRun(init);
    var all := KeptSince(c, init) + [Kept(r)];
    var fed := Keep(c, Run(c, Fresh, init).preRoll, r);
    assert (init + [r])[..|init + [r]|-1] == init;
    IdleAlways(c, init);
    PreRollTrims(c, init);
    TrimSnoc(limit, KeptSince(c, init), Kept(r));
    TrimIsLongest(limit, all);
    EndsWithSnoc(KeptSince(c, init), KeptAll(run), Kept(r));
    KeptAllSnoc(run, r);
    SuffixWhenLongest(limit, all, fed, KeptAll(run + [r]));
    KeptAllTotal(run + [r]);
  }

  lemma SuffixWhenLongest(limit: nat, all: seq<Record>, fed: seq<Record>, tail: seq<Record>)
    requires LongestSuffix(limit, all, fed) && EndsWith(all, tail)
    ensures EndsWith(fed, tail) <==> Total(tail) <= limit
  {
    hide Suffix, Total;
    if Total(tail) <= limit {
      if |fed| < |tail| {
        SuffixGrows(all, |fed| + 1, |tail|);
      }
      SuffixOfSuffix(all, |fed|, |tail|);
    }
    if EndsWith(fed, tail) {
      SuffixGrows(fed, |tail|, |fed|);
      SuffixEnds(fed);
    }
  }

  ghost predicate WholeFrames(rs: seq<Record>, maxFrame: nat) {
    forall i | 0 <= i < |rs| :: rs[i].samples % SAMPLES_PER_MS == 0 && rs[i].samples <= maxFrame
  }

  lemma {:induction false} WholeTotal(rs: seq<Record>, maxFrame: nat)
    requires WholeFrames(rs, maxFrame)
    ensures Total(rs) == SAMPLES_PER_MS * MsOf(rs)
  {
    if rs != [] {
      WholeTotal(rs[..|rs|-1], maxFrame);
    }
  }

  /** With whole-millisecond frames and room for StartSpeechMs plus one frame,
      no onset is ever clipped. */
  lemma OnsetNeverClipped(c: Config, init: seq<Record>, r: Record, maxFrame: nat)
    requires ValidConfig(c) && Onset(c, Run(c, Fresh, init), r)
    requires c.startSpeechMs * SAMPLES_PER_MS + maxFrame <= PreRollLimit(c)
    requires WholeFrames(VoicedRun(init + [r]), maxFrame)
    ensures EndsWith(Keep(c, Run(c, Fresh, init).preRoll, r), KeptAll(VoicedRun(init + [r])))
  {
    OnsetFeedsRun(c, init, r);
    IdleAlways(c, init);
    var run := VoicedRun(init);
    assert (init + [r])[..|init + [r]|-1] == init;
    assert r.voiced && VoicedRun(init + [r]) == run + [r];
    assert (run + [r])[|run|] == r;
    forall i | 0 <= i < |run| ensures run[i].samples % SAMPLES_PER_MS == 0 && run[i].samples <= maxFrame {
      assert (run + [r])[i] == run[i];
    }
    WholeTotal(run, maxFrame);
    TotalSnoc(run, r);
  }

  function Zeros(n: nat): (b: Bytes)
    ensures |b| == n
  {
    seq(n, _ => 0)
  }

  /** A frame the wire check lets through: two bytes a sample. */
  function FrameOf(seqNo: nat, samples: nat, voiced: bool): (r: Record)
    ensures |r.payload| == 2 * r.samples
  {
    Record(seqNo, samples, voiced, Zeros(2 * samples))
  }

  /** The detector decides whole windows only, so a frame it calls voiced completes
      at least one; buffered is what earlier frames left over. */
  predicate Decidable(window: nat, buffered: nat, rs: seq<Record>)
    requires window > 0
    decreases |rs|
  {
    rs == [] ||
    ((rs[0].voiced ==> buffered + rs[0].samples >= window)
     && Decidable(window, (buffered + rs[0].samples) % window, rs[1..]))
  }

  /** A short unvoiced frame, then three voiced ones of 13 and 15/16 milliseconds. */
  const UNEVEN := [FrameOf(1, 319, false), FrameOf(2, 223, true), FrameOf(3, 223, true), FrameOf(4, 223, true)]

  lemma QuietSnoc(c: Config, rs: seq<Record>, r: Record)
    requires !Run(c, Fresh, rs).active && VoiceAfter(Run(c, Fresh, rs), r) < c.startSpeechMs
    ensures !Run(c, Fresh, rs + [r]).active && Run(c, Fresh, rs + [r]).voiceMs == VoiceAfter(Run(c, Fresh, rs), r)
    ensures VoicedRun(rs + [r]) == if r.voiced then VoicedRun(rs) + [r] else []
    ensures r.voiced ==> Total(VoicedRun(rs + [r])) == Total(VoicedRun(rs)) + r.samples
  {
    hide Keep;
    assert (rs + [r])[..|rs|] == rs;
    RunSnoc(c, Fresh, rs, r);
    TotalSnoc(VoicedRun(rs), r);
  }

  lemma UnevenRun(c: Config)
    requires c.startSpeechMs == 40
    ensures var m := Run(c, Fresh, UNEVEN); !m.active && m.voiceMs == 39
    ensures Total(VoicedRun(UNEVEN)) == 669
  {
    hide Run, VoicedRun, Total;
    RunNone(c);
    QuietSnoc(c, [], UNEVEN[0]);
    QuietSnoc(c, [] + [UNEVEN[0]], UNEVEN[1]);
    QuietSnoc(c, [] + [UNEVEN[0]] + [UNEVEN[1]], UNEVEN[2]);
    QuietSnoc(c, [] + [UNEVEN[0]] + [UNEVEN[1]] + [UNEVEN[2]], UNEVEN[3]);
    assert [] + [UNEVEN[0]] + [UNEVEN[1]] + [UNEVEN[2]] + [UNEVEN[3]] == UNEVEN;
  }

  lemma RunNone(c: Config)
    ensures Run(c, Fresh, []) == Fresh && VoicedRun([]) == [] && Total([]) == 0
  {
  }

  /** Room for StartSpeechMs plus a frame is not enough when frames are not whole
      milliseconds: each of these is counted short, and the default configuration
      clips the onset although the detector could have decided every frame. */
  lemma FractionalFramesClip()
    ensures var c, r := Config(40, 600, 160, 2560), FrameOf(5, 1920, true);
            && Decidable(320, 0, UNEVEN + [r])
            && c.startSpeechMs * SAMPLES_PER_MS + r.samples <= PreRollLimit(c)
            && Onset(c, Run(c, Fresh, UNEVEN), r)
            && !EndsWith(Keep(c, Run(c, Fresh, UNEVEN).preRoll, r), KeptAll(VoicedRun(UNEVEN + [r])))
  {
    var c, r := Config(40, 600, 160, 2560), FrameOf(5, 1920, true);
    UnevenRun(c);
    OnsetFeedsRun(c, UNEVEN, r);
    assert (UNEVEN + [r])[..4] == UNEVEN;
    TotalSnoc(VoicedRun(UNEVEN), r);
    UnevenDecidable(r);
  }

  lemma UnevenDecidable(r: Record)
    requires r.samples == 1920
    ensures Decidable(320, 0, UNEVEN + [r])
  {
    var all := UNEVEN + [r];
    assert all[1..][1..] == all[2..] && all[2..][1..] == all[3..] && all[3..][1..] == all[4..] && all[4..] == [r];
    assert Decidable(320, 28, [r]);
    assert Decidable(320, 125, all[3..]);
    assert Decidable(320, 222, all[2..]);
    assert Decidable(320, 319, all[1..]);
  }

  // ---- a doubly kept record ----

  /** The endpoint record enters pre-roll twice. This says, from durations
      alone, that the extra copy makes no difference once ys has followed it:
      either the record no longer fits at all, or its second copy does not and
      neither does the record before it. */
  predicate CopyGone(c: Config, zs: seq<Record>, e: Record, ys: seq<Record>) {
    var limit, d := PreRollLimit(c), Total(ys);
    || d + e.samples > limit
    || (d + 2 * e.samples > limit && (zs == [] || d + e.samples + zs[|zs|-1].samples > limit))
  }

  lemma SuffixTotals(a: seq<Record>, x: Record, y: seq<Record>)
    ensures Suffix(a + [x] + y, |y|) == y
    ensures Suffix(a + [x] + y, |y| + 1) == [x] + y
    ensures Total([x] + y) == x.samples + Total(y)
  {
    hide Total;
    TotalConcat([x], y);
    TotalOne(x);
    Associate(a, [x], y);
    SuffixAppend(a + [x], y);
    SuffixAppend(a, [x] + y);
  }

  lemma SuffixAppend(a: seq<Record>, b: seq<Record>)
    ensures Suffix(a + b, |b|) == b
  {
  }

  lemma TotalOne(x: Record)
    ensures Total([x]) == x.samples
  {
    TotalSnoc([], x);
    assert [] + [x] == [x];
  }

  /** What survives trimming of a list ending in x and then y. */
  lemma TrimTail(limit: nat, a: seq<Record>, x: Record, y: seq<Record>)
    requires Total(y) <= limit
    ensures x.samples + Total(y) > limit ==> Trim(limit, a + [x] + y) == y
    ensures x.samples + Total(y) <= limit ==> |Trim(limit, a + [x] + y)| > |y|
    ensures x.samples + Total(y) <= limit && a == [] ==> Trim(limit, a + [x] + y) == [x] + y
  {
    hide Total;
    var all := a + [x] + y;
    var s := Trim(limit, all);
    TrimIsLongest(limit, all);
    SuffixTotals(a, x, y);
    if x.samples + Total(y) > limit {
      assert Longest(limit, all, |y|);
      LongestUnique(limit, all, |s|, |y|);
    } else {
      if |s| <= |y| {
        SuffixGrows(all, |s| + 1, |y| + 1);
      }
      if a == [] {
        assert all == [x] + y;
        assert Suffix(all, |all|) == all;
        assert Longest(limit, all, |all|);
        LongestUnique(limit, all, |s|, |all|);
      }
    }
  }

  /** Trimming with a doubled record agrees with trimming without the double
      exactly when CopyGone says so. */
  lemma DoubledTrim(limit: nat, a: seq<Record>, x: Record, y: seq<Record>)
    requires a != [] ==> a[|a|-1] != x
    ensures Trim(limit, a + [x] + ([x] + y)) == Trim(limit, a + [x] + y)
       <==> (|| Total(y) + x.samples > limit
             || (Total(y) + 2 * x.samples > limit
                 && (a == [] || Total(y) + x.samples + a[|a|-1].samples > limit)))
  {
    hide Total, Trim;
    var doubled, single := a + [x] + ([x] + y), a + [x] + y;
    SuffixTotals(a, x, y);
    assert doubled == (a + [x]) + [x] + y;
    if Total(y) > limit {
      TrimWithin(limit, a + [x], y);
      TrimWithin(limit, (a + [x]) + [x], y);
    } else if x.samples + Total(y) > limit {
      TrimTail(limit, a, x, y);
      TrimTail(limit, a + [x], x, y);
    } else {
      TrimTail(limit, a, x, [x] + y);
      if a != [] {
        var a', z := a[..|a|-1], a[|a|-1];
        assert a == a' + [z];
        assert single == a' + [z] + ([x] + y);
        TrimTail(limit, a', z, [x] + y);
        if Total(y) + 2 * x.samples <= limit {
          ThirdFromEnd(limit, a, x, y);
        }
      } else {
        TrimTail(limit, a, x, y);
      }
    }
  }

  /** Once y alone overflows, what came before is irrelevant. */
  lemma TrimWithin(limit: nat, a: seq<Record>, y: seq<Record>)
    requires Total(y) > limit
    ensures Trim(limit, a + y) == Trim(limit, y)
  {
    hide Total;
    TrimIsLongest(limit, y);
    TrimIsLongest(limit, a + y);
    var n := |Trim(limit, y)|;
    assert Suffix(a + y, |y|) == y;
    SuffixEnds(y);
    assert n < |y|;
    SuffixOfSuffix(a + y, |y|, n);
    SuffixOfSuffix(a + y, |y|, n + 1);
    LongestUnique(limit, a + y, n, |Trim(limit, a + y)|);
  }

  lemma ThirdFromEnd(limit: nat, a: seq<Record>, x: Record, y: seq<Record>)
    requires a != [] && a[|a|-1] != x
    requires Total(y) + 2 * x.samples <= limit
    ensures Trim(limit, a + [x] + ([x] + y)) != Trim(limit, a + [x] + y)
  {
    SuffixTotals([], x, y);
    TrimTail(limit, a, x, [x] + y);
    var s, t := Trim(limit, a + [x] + ([x] + y)), Trim(limit, a + [x] + y);
    TrimIsLongest(limit, a + [x] + ([x] + y));
    TrimIsLongest(limit, a + [x] + y);
    var k := |s| - |y| - 2;
    assert s[k] == x;
    assert |t| == |s| ==> t[k] == a[|a|-1];
  }

  lemma {:induction false} TrimMembers(limit: nat, rs: seq<Record>, i: nat)
    requires i < |Trim(limit, rs)|
    ensures |Trim(limit, rs)| <= |rs|
    ensures Trim(limit, rs)[i] == rs[|rs| - |Trim(limit, rs)| + i]
    decreases |rs|
  {
    if Total(rs) > limit && rs != [] {
      TrimMembers(limit, rs[1..], i);
    }
  }
}

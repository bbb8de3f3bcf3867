/** A session's audio from its first frame on, through either pipeline: what has
    been cut since the last commit, what a full replay reads, and when the two
    agree. */
module History {
  import opened Wrappers
  import opened Audio
  import opened Backend
  import opened Journal
  import opened Pipelines
  import Replay
  import Vad

  type Utterance = Replay.Utterance

  /** The frame ends the utterance. */
  predicate Closes(c: Cutter, r: Record) {
    c.Hysteresis? && Vad.Ends(c.config, c.machine, r)
  }

  predicate HasEndpoint(events: seq<Vad.Event>) {
    exists i :: 0 <= i < |events| && events[i].Endpoint?
  }

  lemma ClosesSignals(c: Cutter, r: Record)
    ensures Closes(c, r) <==> HasEndpoint(Signals(c, r))
  {
    if Closes(c, r) {
      assert Signals(c, r)[0].Endpoint?;
    }
  }

  /** The live pipeline after the frames, each endpoint flushed. */
  function Lived(p: Pipeline, log: seq<Record>): Cutter {
    match p
    case Passthrough(plain) => Plain(plain.live.chunkSamples, Held(plain.live.chunkSamples, log))
    case Gated(vad) => Hysteresis(vad.config, Replay.Live(vad.config, log))
  }

  /** Chunks cut since the last endpoint. */
  function SinceOf(p: Pipeline, log: seq<Record>): seq<Piece> {
    match p
    case Passthrough(plain) => Audio.Recut(plain.live.chunkSamples, log)
    case Gated(vad) => Replay.Since(vad.config, log)
  }

  function UtteredOf(p: Pipeline, log: seq<Record>): seq<Utterance> {
    match p
    case Passthrough(_) => []
    case Gated(vad) => Replay.Uttered(vad.config, log)
  }

  /** The open utterance, were it flushed now, after the ended ones. */
  function AllUttered(p: Pipeline, log: seq<Record>): seq<Utterance> {
    UtteredOf(p, log) + [Replay.Utterance(SinceOf(p, log), Tail(Lived(p, log)))]
  }

  /** What a full replay should read. */
  function UnclosedOf(p: Pipeline, log: seq<Record>): seq<Record> {
    match p
    case Passthrough(_) => log
    case Gated(vad) => Replay.Unclosed(vad.config, log)
  }

  predicate CleanOf(p: Pipeline, log: seq<Record>) {
    match p
    case Passthrough(_) => true
    case Gated(vad) => Replay.Clean(vad.config, log)
  }

  ghost predicate Legal(p: Pipeline) {
    match p
    case Passthrough(plain) => true
    case Gated(vad) => Vad.ValidConfig(vad.config)
  }

  lemma LivedFresh(p: Pipeline)
    ensures Lived(p, []) == Fresh(p) && SinceOf(p, []) == [] && UtteredOf(p, []) == [] && UnclosedOf(p, []) == []
  {
  }

  lemma LivedSnoc(p: Pipeline, log: seq<Record>, r: Record)
    ensures var c := Lived(p, log);
            && Lived(p, log + [r]) == (if Closes(c, r) then Flushed(Next(c, r)) else Next(c, r))
            && SinceOf(p, log + [r]) == (if Closes(c, r) then [] else SinceOf(p, log) + Emits(c, r))
            && UtteredOf(p, log + [r]) == UtteredOf(p, log)
               + (if Closes(c, r) then [Replay.Utterance(SinceOf(p, log) + Emits(c, r), Tail(Next(c, r)))] else [])
  {
    hide Vad.Step, Vad.StepOut, FeedState, FeedOut;
    assert (log + [r])[..|log|] == log;
    match p
    case Passthrough(plain) => CutSnoc(plain.live.chunkSamples, NoPending, log, r);
    case Gated(vad) => Replay.LiveSnoc(vad.config, log, r);
  }

  lemma UnclosedSnocOf(p: Pipeline, log: seq<Record>, r: Record)
    ensures !Closes(Lived(p, log), r) ==> UnclosedOf(p, log + [r]) == UnclosedOf(p, log) + [r]
    ensures |UnclosedOf(p, log + [r])| <= |UnclosedOf(p, log)| + 1
  {
    match p
    case Passthrough(plain) =>
    case Gated(vad) =>
      Replay.UnclosedSnoc(vad.config, log, r);
      Replay.SilenceShort(vad.config, log);
  }

  /** The frames of the session up to the one that ended its i-th utterance, that one
      left out; all of them while it has not ended. */
  function Upto(p: Pipeline, log: seq<Record>, i: nat): (h: seq<Record>)
    ensures |h| <= |log|
  {
    if log == [] || |UtteredOf(p, log)| <= i then log else Upto(p, log[..|log|-1], i)
  }

  lemma UptoSnoc(p: Pipeline, log: seq<Record>, r: Record, i: nat)
    ensures i < |UtteredOf(p, log)| ==> Upto(p, log + [r], i) == Upto(p, log, i)
    ensures i >= |UtteredOf(p, log)| ==> Upto(p, log, i) == log
    ensures i >= |UtteredOf(p, log)| && Closes(Lived(p, log), r) && i == |UtteredOf(p, log)|
            ==> Upto(p, log + [r], i) == log
  {
    hide Lived, SinceOf, Closes;
    LivedSnoc(p, log, r);
    assert (log + [r])[..|log|] == log;
  }

  // ---- when a replay repeats the live cuts ----

  /** How many of the newest records a full replay needs. */
  function NeededOf(p: Pipeline, log: seq<Record>): nat {
    match p
    case Passthrough(_) => |log|
    case Gated(vad) => Replay.Needed(vad.config, log)
  }

  /** Frames in order, the open utterance's onset clean, and what replaying it needs,
      and extra records more, still in the ring. */
  ghost predicate Sane(p: Pipeline, log: seq<Record>, extra: nat, cap: nat) {
    Legal(p) && Increasing(log, 0) && CleanOf(p, log) && NeededOf(p, log) + extra <= cap
  }

  /** Once r has been heard, and not yet acted on. */
  ghost predicate SaneOn(p: Pipeline, log: seq<Record>, r: Record, cap: nat) {
    && Increasing(log + [r], 0)
    && if Closes(Lived(p, log), r) then Sane(p, log, 1, cap) else Sane(p, log + [r], 0, cap)
  }

  lemma SaneBefore(p: Pipeline, log: seq<Record>, r: Record, cap: nat)
    requires SaneOn(p, log, r, cap)
    ensures Sane(p, log, 0, cap) && LastSeq(log, 0) < r.seqNo
  {
    assert (log + [r])[..|log|] == log;
    match p
    case Passthrough(plain) =>
    case Gated(vad) =>
      hide Replay.Live, Replay.PauseOf, Replay.CleanOnset, Replay.Unclosed, Vad.Keep;
      if !Vad.Ends(vad.config, Replay.Live(vad.config, log), r) {
        Replay.CleanBefore(vad.config, log, r);
        Replay.NeededBefore(vad.config, log, r);
      }
  }

  /** Replay can resume after any of the chunks cut so far. */
  ghost predicate TailsResume(pipeline: Pipeline, retained: seq<Record>, cut: seq<Piece>) {
    forall n: nat | 0 < n <= |cut| :: Alike(cut[..n] + RecutOf(pipeline, After(retained, MaxEnd(cut[..n]))), cut)
  }

  /** Whatever a recovery reads now, replaying it comes to the chunks cut live. */
  ghost predicate Reproduces(pipeline: Pipeline, committed: seq<Record>, retained: seq<Record>, cut: seq<Piece>,
                             restored: bool)
  {
    Alike(RecutOf(pipeline, committed), cut) && (restored ==> TailsResume(pipeline, retained, cut))
  }

  lemma {:induction false} SpansMaxEnd(ps: seq<Piece>)
    requires SpansIncrease(ps, 0)
    ensures MaxEnd(ps) == LastEnd(ps, 0)
  {
    if ps != [] {
      SpansMaxEnd(ps[..|ps|-1]);
    }
  }

  lemma {:induction false} SpansPrefix(ps: seq<Piece>, n: nat)
    requires SpansIncrease(ps, 0) && n <= |ps|
    ensures SpansIncrease(ps[..n], 0)
  {
    if n < |ps| {
      SpansPrefix(ps[..|ps|-1], n);
      assert ps[..|ps|-1][..n] == ps[..n];
    } else {
      assert ps[..n] == ps;
    }
  }

  lemma AlikeSelf(ps: seq<Piece>)
    ensures Alike(ps, ps)
  {
  }

  /** The pass-through pipeline's chunks can be replayed from the start and from
      after any of them. */
  lemma PlainResumes(p: Pipeline, log: seq<Record>)
    requires p.Passthrough? && Increasing(log, 0)
    ensures TailsResume(p, log, RecutOf(p, log))
  {
    hide Alike, MaxEnd, LastEnd;
    var limit, cut := p.plain.live.chunkSamples, RecutOf(p, log);
    CutSpans(limit, log, 0);
    forall n: nat | 0 < n <= |cut| ensures Alike(cut[..n] + RecutOf(p, After(log, MaxEnd(cut[..n]))), cut) {
      SpansPrefix(cut, n);
      SpansMaxEnd(cut[..n]);
      TailRecut(limit, log, 0, n);
      assert cut[..n] + cut[n..] == cut;
      AlikeSelf(cut);
    }
  }

  /** What the journal hands a full replay is what a full replay should read. */
  ghost predicate Floored(p: Pipeline, log: seq<Record>, haveCommitted: bool, committedSeq: nat) {
    if haveCommitted then After(log, committedSeq) == UnclosedOf(p, log) && committedSeq <= LastSeq(log, 0)
    else UnclosedOf(p, log) == log
  }

  /** ... as far as it still has it. */
  lemma HandsOver(p: Pipeline, log: seq<Record>, cap: nat, haveCommitted: bool, committedSeq: nat)
    requires Increasing(log, 0) && Floored(p, log, haveCommitted, committedSeq)
    ensures (if haveCommitted then After(Newest(log, cap), committedSeq) else Newest(log, cap))
         == Newest(UnclosedOf(p, log), cap)
  {
    if haveCommitted {
      NewestAfter(log, cap, committedSeq);
    }
  }

  /** A frame on, before any commit. */
  lemma HandsOverNext(p: Pipeline, log: seq<Record>, r: Record, cap: nat, haveCommitted: bool, committedSeq: nat)
    requires Increasing(log + [r], 0) && Floored(p, log, haveCommitted, committedSeq)
    ensures (if haveCommitted then After(Newest(log + [r], cap), committedSeq) else Newest(log + [r], cap))
         == Newest(UnclosedOf(p, log) + [r], cap)
    ensures !Closes(Lived(p, log), r) ==> Floored(p, log + [r], haveCommitted, committedSeq)
  {
    assert (log + [r])[..|log|] == log;
    AfterSnoc(log, r, committedSeq);
    UnclosedSnocOf(p, log, r);
    if haveCommitted {
      NewestAfter(log + [r], cap, committedSeq);
    }
  }

  /** Replaying what the ring has of what was uncommitted before a frame, and the frame,
      cuts what the live pipeline has cut since; the pass-through pipeline can also
      resume anywhere. */
  lemma ReplaysNext(p: Pipeline, log: seq<Record>, r: Record, cap: nat, restored: bool)
    requires SaneOn(p, log, r, cap) && cap > 0 && (restored ==> p.Passthrough?)
    ensures Reproduces(p, Newest(UnclosedOf(p, log) + [r], cap), Newest(log + [r], cap),
                       SinceOf(p, log) + Emits(Lived(p, log), r), restored)
  {
    hide Alike, Vad.StepOut, Replay.Clean, Replay.Needed, MaxEnd, TailsResume;
    SaneBefore(p, log, r, cap);
    LivedSnoc(p, log, r);
    match p
    case Passthrough(plain) =>
      PlainResumes(p, log + [r]);
      AlikeSelf(RecutOf(p, log + [r]));
    case Gated(vad) =>
      var c, u := vad.config, Replay.Unclosed(vad.config, log);
      var n := if |u| < cap then |u| else cap - 1;
      NewestSnoc(u, r, cap);
      Replay.NeededFits(c, log);
      Replay.NeededFits(c, log + [r]);
      UnclosedSnocOf(p, log, r);
      Replay.ShortNext(c, log, r, n);
      AlikeSelf(RecutOf(p, Newest(u + [r], cap)));
  }

  lemma NewestSnoc(u: seq<Record>, r: Record, cap: nat)
    requires cap > 0
    ensures Newest(u + [r], cap) == Vad.Suffix(u, if |u| < cap then |u| else cap - 1) + [r]
  {
  }

  lemma ReplaysNow(p: Pipeline, log: seq<Record>, cap: nat, restored: bool)
    requires Sane(p, log, 0, cap) && (restored ==> p.Passthrough?)
    ensures Reproduces(p, Newest(UnclosedOf(p, log), cap), Newest(log, cap), SinceOf(p, log), restored)
  {
    hide Alike, Replay.Clean, Replay.Needed, MaxEnd, TailsResume;
    AlikeSelf(SinceOf(p, log));
    match p
    case Passthrough(plain) => PlainResumes(p, log);
    case Gated(vad) =>
      var c, u := vad.config, Replay.Unclosed(vad.config, log);
      var n := if |u| <= cap then |u| else cap;
      assert Newest(u, cap) == Vad.Suffix(u, n);
      Replay.NeededFits(c, log);
      Replay.ShortReplay(c, log, n);
      if !Replay.Live(c, log).active {
        Replay.SinceIdle(c, log);
      }
  }

  // ---- a commit ----

  lemma {:induction false} MaxEndAtMost(ps: seq<Piece>, b: nat)
    requires forall i | 0 <= i < |ps| :: ps[i].seqEnd <= b
    ensures MaxEnd(ps) <= b
  {
    if ps != [] {
      MaxEndAtMost(ps[..|ps|-1], b);
    }
  }

  lemma EndsAt(said: seq<Piece>, out: seq<Piece>, q: nat)
    requires Alike(said, out) && LastEnd(out, 0) == q > 0
    requires forall i | 0 <= i < |out| :: out[i].seqEnd <= q
    ensures MaxEnd(said) == q && said != []
  {
    hide Alike;
    AlikeEnd(said, out);
    MaxEndAtMost(out, q);
    MaxEndCovers(out, |out| - 1);
  }

  /** A frame that closes an utterance cuts nothing itself; if everything of the
      utterance was applied and its onset was clean, the last voiced frame was. */
  lemma AppliedAll(p: Pipeline, log: seq<Record>, r: Record, said: seq<Piece>)
    requires Legal(p) && Increasing(log + [r], 0) && CleanOf(p, log) && Closes(Lived(p, log), r)
    requires Alike(said, SinceOf(p, log) + Emits(Lived(p, log), r) + Tail(Next(Lived(p, log), r)))
    ensures said != [] && MaxEnd(said) == Replay.VoicedEnd(log)
  {
    hide Alike, Replay.Clean, MaxEnd, Replay.Live, Replay.Since, Replay.Unclosed;
    var c, q := p.vad.config, Replay.VoicedEnd(log);
    assert (log + [r])[..|log|] == log;
    Replay.CommitFloor(c, log, r);
    Replay.VoicedSince(c, log);
    ClosesQuiet(c, Replay.Live(c, log), r);
    var out := Replay.Dispatched(c, log);
    assert SinceOf(p, log) + Emits(Lived(p, log), r) + Tail(Next(Lived(p, log), r)) == out;
    EndsAt(said, out, q);
  }

  /** A commit that applied the last voiced frame leaves the journal handing over what
      it should. */
  lemma Commits(p: Pipeline, log: seq<Record>, r: Record, applied: nat)
    requires Legal(p) && Increasing(log + [r], 0) && Closes(Lived(p, log), r) && applied == Replay.VoicedEnd(log)
    ensures var floor := Replay.TrimFloor(applied, Retention(Lived(p, log + [r])));
            floor.Some? && Floored(p, log + [r], true, floor.value)
  {
    hide Replay.Live, Replay.Since, Replay.Unclosed;
    Replay.FloorIff(p.vad.config, log, r, applied);
    assert (log + [r])[..|log|] == log;
  }

  lemma ClosesQuiet(c: Vad.Config, m: Vad.Machine, r: Record)
    requires Vad.Ends(c, m, r)
    ensures Vad.StepOut(c, m, r) == [] && Vad.Step(c, m, r).held == m.held
  {
    hide Vad.Keep;
  }

  // ---- the floor stays below what is live ----

  predicate EndpointsFit(p: Pipeline, log: seq<Record>) {
    match p
    case Passthrough(_) => true
    case Gated(vad) => Replay.EndpointsFit(vad.config, log)
  }

  /** Everything in live pre-roll and in the chunk in progress is above the committed
      floor. */
  ghost predicate Clear(p: Pipeline, log: seq<Record>, haveCommitted: bool, committedSeq: nat) {
    p.Gated? && haveCommitted ==>
      Replay.AboveFloor(Replay.Live(p.vad.config, log), committedSeq) && committedSeq < LastSeq(log, 0)
  }

  lemma ClearNext(p: Pipeline, log: seq<Record>, r: Record, haveCommitted: bool, committedSeq: nat)
    requires Increasing(log + [r], 0) && Clear(p, log, haveCommitted, committedSeq)
    requires !Closes(Lived(p, log), r)
    ensures Clear(p, log + [r], haveCommitted, committedSeq)
  {
    hide Replay.Live, Replay.AboveFloor;
    assert (log + [r])[..|log|] == log;
    if p.Gated? && haveCommitted {
      Replay.LiveSnoc(p.vad.config, log, r);
      Replay.AboveStep(p.vad.config, Replay.Live(p.vad.config, log), r, committedSeq);
    }
  }

  /** Whatever was applied by the time of the commit. */
  lemma ClearCommit(p: Pipeline, log: seq<Record>, r: Record, applied: nat)
    requires Legal(p) && Increasing(log + [r], 0) && EndpointsFit(p, log + [r]) && Closes(Lived(p, log), r)
    ensures var floor := Replay.TrimFloor(applied, Retention(Lived(p, log + [r])));
            floor.Some? && Clear(p, log + [r], true, floor.value)
  {
    hide Replay.Live, Replay.AboveFloor;
    assert (log + [r])[..|log|] == log;
    Replay.AboveCommit(p.vad.config, log, r, applied);
  }
}

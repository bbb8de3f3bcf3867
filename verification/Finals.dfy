/** What the finals of a session say of the frames it heard (finalizeEndpoint and
    session.end in cmd/gateway/conn.go), as a record kept beside the session. */
module Finals {
  import opened Wrappers
  import opened Audio
  import opened Adapters
  import opened Backend
  import opened History
  import opened Journal
  import opened Pipelines
  import opened Session
  import opened Failover
  import Replay
  import Vad

  /** Failovers that worked and failovers that did not. */
  function Troubles(n: Counts): nat { n.failovers + n.exhausted }

  /** The counters a caller can watch only go up. */
  predicate Grown(n: Counts, n': Counts) {
    n.failovers <= n'.failovers && n.exhausted <= n'.exhausted && n.restores <= n'.restores
  }

  /** What flushing a record says: the text of everything pushed onto it. */
  function TextOf<S>(a: Adapter<S>, served: seq<Piece>): string {
    a.finalize(PushAll(a, FreshRec(a), served).state)
  }

  /** The last thing told is the final of the utterance that ended. */
  predicate Ended(log: seq<Event>, ended: State, text: string) {
    log != [] && log[|log|-1] == Final(ended.utterance, ended.utteranceStart, ended.lastApplied, text)
  }

  // ---- the record ----

  /** Where in the log a final is, the model it comes from, the chunks it speaks for, how
      far they had been applied, and the counters before the flush and at the final. */
  datatype Told = Told(at: nat, key: string, said: seq<Piece>, applied: nat, flushing: Counts, ended: Counts)

  /** The counters when the i-th utterance began. */
  function Opened(spoken: seq<Told>, i: nat, n0: Counts): Counts
    requires i <= |spoken|
  {
    if i == 0 then n0 else spoken[i-1].ended
  }

  /** Nothing failed over during the utterance. */
  predicate Calm(spoken: seq<Told>, i: nat, n0: Counts)
    requires i < |spoken|
  {
    Troubles(spoken[i].ended) == Troubles(Opened(spoken, i, n0))
  }

  /** Pushing the chunk Flush cut off failed over. */
  predicate Lost(t: Told) {
    Troubles(t.ended) > Troubles(t.flushing)
  }

  /** The i-th final told is the i-th utterance's, says how far it was applied, and is the
      text of its chunks. */
  ghost predicate Logged<S>(model: string -> Adapter<S>, log: seq<Event>, spoken: seq<Told>) {
    forall i | 0 <= i < |spoken| ::
      var t := spoken[i];
      && t.at < |log| && log[t.at].Final? && log[t.at].utterance == i + 1 && log[t.at].seqEnd == t.applied
      && log[t.at].text == TextOf(model(t.key), t.said)
  }

  lemma LoggedGrows<S>(model: string -> Adapter<S>, log: seq<Event>, log': seq<Event>, spoken: seq<Told>)
    requires Logged(model, log, spoken) && log <= log'
    ensures Logged(model, log', spoken)
  {
    hide TextOf;
  }

  lemma LoggedSnoc<S>(model: string -> Adapter<S>, log: seq<Event>, spoken: seq<Told>, t: Told, ended: State)
    requires Logged(model, log, spoken) && Ended(log, ended, TextOf(model(t.key), t.said))
    requires t.at == |log| - 1 && ended.utterance == |spoken| + 1 && t.applied == ended.lastApplied
    ensures Logged(model, log, spoken + [t])
  {
    hide TextOf;
    assert forall i | 0 <= i < |spoken| :: (spoken + [t])[i] == spoken[i];
  }

  ghost predicate Read(spoken: seq<Told>, i: nat, n0: Counts)
    requires i < |spoken|
  {
    Grown(Opened(spoken, i, n0), spoken[i].flushing) && Grown(spoken[i].flushing, spoken[i].ended)
  }

  /** The counters in the order they were read. */
  ghost predicate Timeline(spoken: seq<Told>, n0: Counts, n: Counts) {
    (forall i | 0 <= i < |spoken| :: Read(spoken, i, n0)) && Grown(Opened(spoken, |spoken|, n0), n)
  }

  lemma TimelineSnoc(spoken: seq<Told>, t: Told, n0: Counts, n: Counts, n': Counts)
    requires Timeline(spoken, n0, n) && Grown(n, t.flushing) && Grown(t.flushing, t.ended) && Grown(t.ended, n')
    ensures Timeline(spoken + [t], n0, n')
  {
    forall i | 0 <= i < |spoken + [t]| ensures Read(spoken + [t], i, n0) {
      OpenedSnoc(spoken, t, i, n0);
      if i < |spoken| {
        assert Read(spoken, i, n0);
      }
    }
  }

  lemma TimelineInit(spoken: seq<Told>, t: Told, n0: Counts, n: Counts)
    requires Timeline(spoken + [t], n0, n)
    ensures Timeline(spoken, n0, t.flushing) && Grown(t.flushing, t.ended) && Grown(t.ended, n)
  {
    assert Read(spoken + [t], |spoken|, n0);
    OpenedSnoc(spoken, t, |spoken|, n0);
    forall i | 0 <= i < |spoken| ensures Read(spoken, i, n0) {
      assert Read(spoken + [t], i, n0);
      OpenedSnoc(spoken, t, i, n0);
    }
  }

  lemma OpenedSnoc(spoken: seq<Told>, t: Told, i: nat, n0: Counts)
    requires i <= |spoken|
    ensures Opened(spoken + [t], i, n0) == Opened(spoken, i, n0)
    ensures i < |spoken| ==> (spoken + [t])[i] == spoken[i]
  {
  }

  /** Finals whose utterance saw a failover. */
  function Upset(spoken: seq<Told>, n0: Counts): nat {
    if spoken == [] then 0
    else Upset(spoken[..|spoken|-1], n0) + if Calm(spoken, |spoken| - 1, n0) then 0 else 1
  }

  /** There are no more of them than failovers. */
  lemma {:induction false} UpsetBound(spoken: seq<Told>, n0: Counts, n: Counts)
    requires Timeline(spoken, n0, n)
    ensures Upset(spoken, n0) + Troubles(n0) <= Troubles(Opened(spoken, |spoken|, n0)) <= Troubles(n)
  {
    if spoken != [] {
      hide Timeline;
      var init, t := spoken[..|spoken|-1], spoken[|spoken|-1];
      assert spoken == init + [t];
      TimelineInit(init, t, n0, n);
      UpsetBound(init, n0, t.flushing);
      OpenedSnoc(init, t, |init|, n0);
      LastGrown(init, n0, t.flushing);
    }
  }

  lemma LastGrown(spoken: seq<Told>, n0: Counts, n: Counts)
    requires Timeline(spoken, n0, n)
    ensures Grown(Opened(spoken, |spoken|, n0), n)
  {
  }

  // ---- what the session did, against what it heard ----

  /** The chunks are those the utterance was cut into: all of them, but for the last if
      pushing that one failed over. */
  predicate Faithful(t: Told, u: Utterance) {
    Alike(t.said, if Lost(t) then u.chunks else u.chunks + u.tail)
  }

  /** The commit before the i-th utterance left the journal handing over what a replay
      should read: the final before it had applied the last voiced frame. */
  predicate HandedOn(p: Pipeline, heard: seq<Record>, spoken: seq<Told>, i: nat)
    requires i <= |spoken|
  {
    i == 0 || spoken[i-1].applied == Replay.VoicedEnd(Upto(p, heard, i - 1))
  }

  /** A failover during the i-th utterance does not show: no checkpoint was restored under
      the gated pipeline, the last commit kept what a replay should read, the onset was
      clean, and the ring still had what the replay needs. */
  ghost predicate Covered(p: Pipeline, heard: seq<Record>, cap: nat, spoken: seq<Told>, i: nat, n0: Counts)
    requires i < |spoken|
  {
    && Increasing(heard, 0) && HandedOn(p, heard, spoken, i)
    && Sane(p, Upto(p, heard, i), if |Upto(p, heard, i)| < |heard| then 1 else 0, cap)
    && (p.Passthrough? || spoken[i].ended.restores == Opened(spoken, i, n0).restores)
  }

  /** The i-th final can be relied on. */
  ghost predicate Trusty(p: Pipeline, heard: seq<Record>, cap: nat, spoken: seq<Told>, i: nat, n0: Counts)
    requires i < |spoken|
  {
    Calm(spoken, i, n0) || Covered(p, heard, cap, spoken, i, n0)
  }

  ghost predicate Vouched(p: Pipeline, heard: seq<Record>, cap: nat, spoken: seq<Told>, i: nat, n0: Counts)
    requires i < |spoken|
  {
    && i < |AllUttered(p, heard)|
    && (spoken[i].said != [] ==> spoken[i].applied == MaxEnd(spoken[i].said))
    && (Lost(spoken[i]) ==> AllUttered(p, heard)[i].tail != [])
    && (Trusty(p, heard, cap, spoken, i, n0) ==> Faithful(spoken[i], AllUttered(p, heard)[i]))
  }

  ghost predicate Truthful(p: Pipeline, heard: seq<Record>, cap: nat, spoken: seq<Told>, n0: Counts, n: Counts) {
    Timeline(spoken, n0, n) && forall i | 0 <= i < |spoken| :: Vouched(p, heard, cap, spoken, i, n0)
  }

  lemma HandedSnoc(p: Pipeline, heard: seq<Record>, r: Record, spoken: seq<Told>, i: nat)
    requires i <= |spoken| && i <= |UtteredOf(p, heard)|
    ensures HandedOn(p, heard + [r], spoken, i) == HandedOn(p, heard, spoken, i)
  {
    hide Upto, UtteredOf, Lived, Closes;
    if i > 0 {
      UptoSnoc(p, heard, r, i - 1);
    }
  }

  lemma VouchedNext(p: Pipeline, heard: seq<Record>, r: Record, cap: nat, spoken: seq<Told>, i: nat, n0: Counts)
    requires i < |spoken| && i < |UtteredOf(p, heard)| && Vouched(p, heard, cap, spoken, i, n0)
    ensures Vouched(p, heard + [r], cap, spoken, i, n0)
  {
    hide Upto, UtteredOf, SinceOf, Lived, Sane, Faithful, HandedOn, Closes, Calm, MaxEnd, Tail;
    assert (heard + [r])[..|heard|] == heard;
    LivedSnoc(p, heard, r);
    HandedSnoc(p, heard, r, spoken, i);
    UptoSnoc(p, heard, r, i);
    UptoShorter(p, heard, i);
  }

  lemma UptoShorter(p: Pipeline, heard: seq<Record>, i: nat)
    requires i < |UtteredOf(p, heard)|
    ensures |Upto(p, heard, i)| < |heard|
  {
    LivedFresh(p);
  }

  lemma TruthfulNext(p: Pipeline, heard: seq<Record>, r: Record, cap: nat, spoken: seq<Told>, n0: Counts, n: Counts,
                     n': Counts)
    requires Truthful(p, heard, cap, spoken, n0, n) && |spoken| <= |UtteredOf(p, heard)| && Grown(n, n')
    ensures Truthful(p, heard + [r], cap, spoken, n0, n')
  {
    hide Vouched, UtteredOf;
    forall i | 0 <= i < |spoken| ensures Vouched(p, heard + [r], cap, spoken, i, n0) {
      VouchedNext(p, heard, r, cap, spoken, i, n0);
    }
  }

  lemma TruthfulNow(p: Pipeline, heard: seq<Record>, cap: nat, spoken: seq<Told>, n0: Counts, n: Counts, n': Counts)
    requires Truthful(p, heard, cap, spoken, n0, n) && Grown(n, n')
    ensures Truthful(p, heard, cap, spoken, n0, n')
  {
    hide Vouched;
  }

  lemma VouchedSnoc(p: Pipeline, heard: seq<Record>, cap: nat, spoken: seq<Told>, t: Told, i: nat, n0: Counts)
    requires i < |spoken| && Vouched(p, heard, cap, spoken, i, n0)
    ensures Vouched(p, heard, cap, spoken + [t], i, n0)
  {
    hide Upto, AllUttered, Sane, Faithful, MaxEnd, Increasing;
    OpenedSnoc(spoken, t, i, n0);
    if i > 0 {
      OpenedSnoc(spoken, t, i - 1, n0);
    }
  }

  lemma TruthfulSnoc(p: Pipeline, heard: seq<Record>, cap: nat, spoken: seq<Told>, t: Told, n0: Counts, n: Counts)
    requires Truthful(p, heard, cap, spoken, n0, t.flushing) && Grown(t.flushing, t.ended) && Grown(t.ended, n)
    requires Vouched(p, heard, cap, spoken + [t], |spoken|, n0)
    ensures Truthful(p, heard, cap, spoken + [t], n0, n)
  {
    hide Vouched;
    TimelineSnoc(spoken, t, n0, t.flushing, n);
    forall i | 0 <= i < |spoken + [t]| ensures Vouched(p, heard, cap, spoken + [t], i, n0) {
      if i < |spoken| {
        VouchedSnoc(p, heard, cap, spoken, t, i, n0);
      }
    }
  }

  // ---- where a session stands between frames ----

  datatype Standing = Standing(view: Cutter, cut: seq<Piece>, spoken: seq<Told>, utterance: nat, exact: bool,
                               haveCommitted: bool, committedSeq: nat)

  /** A failover now would not show in the utterance that is open. */
  ghost predicate Coverable(p: Pipeline, heard: seq<Record>, cap: nat, spoken: seq<Told>, n0: Counts, n: Counts) {
    && Sane(p, heard, 0, cap) && HandedOn(p, heard, spoken, |spoken|)
    && (p.Passthrough? || n.restores == Opened(spoken, |spoken|, n0).restores)
  }

  /** The pipeline, the chunks and the finals are those of the frames heard; the record
      is exact, the journal hands over what a replay should read, and trims nothing
      that is live. */
  ghost predicate Stands(p: Pipeline, heard: seq<Record>, cap: nat, s: Standing, n0: Counts, n: Counts) {
    && s.view == Lived(p, heard) && s.cut == SinceOf(p, heard) && Timeline(s.spoken, n0, n)
    && |s.spoken| == |UtteredOf(p, heard)| && s.utterance == |s.spoken| + 1
    && (Troubles(n) == Troubles(Opened(s.spoken, |s.spoken|, n0)) || Coverable(p, heard, cap, s.spoken, n0, n)
        ==> s.exact)
    && (Legal(p) && Increasing(heard, 0) && HandedOn(p, heard, s.spoken, |s.spoken|)
        ==> Floored(p, heard, s.haveCommitted, s.committedSeq))
    && (Legal(p) && Increasing(heard, 0) && EndpointsFit(p, heard)
        ==> Clear(p, heard, s.haveCommitted, s.committedSeq))
  }

  /** What a recovery reads. */
  function ReadOf(retained: seq<Record>, haveCommitted: bool, committedSeq: nat): seq<Record> {
    if haveCommitted then After(retained, committedSeq) else retained
  }

  /** A replay one frame on repeats the live cuts. */
  ghost predicate ReadsOn(p: Pipeline, heard: seq<Record>, r: Record, cap: nat, s: Standing, restored: bool) {
    Reproduces(p, ReadOf(Newest(heard + [r], cap), s.haveCommitted, s.committedSeq), Newest(heard + [r], cap),
               s.cut + Emits(s.view, r), restored)
  }

  lemma StandsRead(p: Pipeline, heard: seq<Record>, r: Record, cap: nat, s: Standing, n0: Counts, n: Counts,
                   restored: bool)
    requires Stands(p, heard, cap, s, n0, n) && SaneOn(p, heard, r, cap) && cap > 0
    requires HandedOn(p, heard, s.spoken, |s.spoken|) && (restored ==> p.Passthrough?)
    ensures ReadsOn(p, heard, r, cap, s, restored)
  {
    hide Reproduces, CleanOf, NeededOf, Lived, SinceOf, UtteredOf, UnclosedOf, Emits, Clear, Floored, HandedOn,
         Timeline, EndpointsFit;
    SaneBefore(p, heard, r, cap);
    HandsOverNext(p, heard, r, cap, s.haveCommitted, s.committedSeq);
    ReplaysNext(p, heard, r, cap, restored);
  }

  /** Exactness lasts through a frame. */
  lemma ExactOn(p: Pipeline, heard: seq<Record>, r: Record, cap: nat, s: Standing, exact': bool, n0: Counts,
                n: Counts, n': Counts)
    requires Stands(p, heard, cap, s, n0, n) && Grown(n, n') && cap > 0
    requires s.exact && (Troubles(n') == Troubles(n) || ReadsOn(p, heard, r, cap, s, n'.restores > n.restores))
             ==> exact'
    requires var from := Opened(s.spoken, |s.spoken|, n0);
             || Troubles(n') == Troubles(from)
             || (&& SaneOn(p, heard, r, cap) && HandedOn(p, heard, s.spoken, |s.spoken|)
                 && (p.Passthrough? || n'.restores == from.restores))
    ensures exact'
  {
    hide Sane, SaneOn, ReadsOn, Lived, SinceOf, UtteredOf, Clear, Floored, HandedOn, EndpointsFit;
    if Troubles(n') != Troubles(Opened(s.spoken, |s.spoken|, n0)) {
      SaneBefore(p, heard, r, cap);
      StandsRead(p, heard, r, cap, s, n0, n, n'.restores > n.restores);
    }
  }

  function Onwards(s: Standing, r: Record, exact': bool): Standing {
    s.(view := Next(s.view, r), cut := s.cut + Emits(s.view, r), exact := exact')
  }

  lemma StandsNext(p: Pipeline, heard: seq<Record>, r: Record, cap: nat, s: Standing, exact': bool,
                   n0: Counts, n: Counts, n': Counts)
    requires Stands(p, heard, cap, s, n0, n) && Grown(n, n') && !Closes(s.view, r) && cap > 0
    requires s.exact && (Troubles(n') == Troubles(n) || ReadsOn(p, heard, r, cap, s, n'.restores > n.restores))
             ==> exact'
    ensures Stands(p, heard + [r], cap, Onwards(s, r, exact'), n0, n')
  {
    hide ReadsOn, Lived, SinceOf, UtteredOf, Clear, Floored, Emits, Next, EndpointsFit, Closes, Legal, Increasing,
         HandedOn, Troubles, Sane;
    LivedSnoc(p, heard, r);
    HandedSnoc(p, heard, r, s.spoken, |s.spoken|);
    if || Troubles(n') == Troubles(Opened(s.spoken, |s.spoken|, n0))
       || Coverable(p, heard + [r], cap, s.spoken, n0, n') {
      SaneOnNext(p, heard, r, cap);
      ExactOn(p, heard, r, cap, s, exact', n0, n, n');
    }
    if Legal(p) && Increasing(heard + [r], 0) {
      IncreasingBefore(heard, r);
      if HandedOn(p, heard, s.spoken, |s.spoken|) {
        HandsOverNext(p, heard, r, cap, s.haveCommitted, s.committedSeq);
      }
      if EndpointsFit(p, heard + [r]) {
        FitsBefore(p, heard, r);
        ClearNext(p, heard, r, s.haveCommitted, s.committedSeq);
      }
    }
  }

  lemma SaneOnNext(p: Pipeline, heard: seq<Record>, r: Record, cap: nat)
    ensures !Closes(Lived(p, heard), r) && Sane(p, heard + [r], 0, cap) ==> SaneOn(p, heard, r, cap)
  {
  }

  lemma IncreasingBefore(heard: seq<Record>, r: Record)
    requires Increasing(heard + [r], 0)
    ensures Increasing(heard, 0)
  {
    assert (heard + [r])[..|heard|] == heard;
  }

  lemma FitsBefore(p: Pipeline, heard: seq<Record>, r: Record)
    requires Increasing(heard + [r], 0) && EndpointsFit(p, heard + [r])
    ensures Increasing(heard, 0) && EndpointsFit(p, heard)
  {
    assert (heard + [r])[..|heard|] == heard;
  }

  lemma StandsParts(p: Pipeline, heard: seq<Record>, cap: nat, s: Standing, n0: Counts, n: Counts)
    requires Stands(p, heard, cap, s, n0, n)
    ensures Timeline(s.spoken, n0, n) && |s.spoken| == |UtteredOf(p, heard)| && s.utterance == |s.spoken| + 1
  {
  }

  lemma StandsFresh(p: Pipeline, cap: nat, n: Counts, committedSeq: nat)
    ensures Stands(p, [], cap, Standing(Fresh(p), [], [], 1, true, false, committedSeq), n, n)
  {
    LivedFresh(p);
  }

  // ---- a final ----

  /** What is known of a final just told: the chunks it speaks for are all those cut, or
      all but the flushed one, exactly if pushing that one failed over. */
  predicate Speaks(t: Told, whole: seq<Piece>, tail: seq<Piece>, was: bool, replays: bool) {
    && (t.said != [] ==> t.applied == MaxEnd(t.said))
    && (Lost(t) ==> tail != [])
    && (was && !Lost(t) ==> Alike(t.said, whole + tail))
    && (was && Lost(t) && replays ==> Alike(t.said, whole))
  }

  /** The floor a commit leaves. */
  predicate FloorMoved(floor: Option<nat>, haveCommitted: bool, committedSeq: nat, haveCommitted': bool,
                       committedSeq': nat) {
    match floor
    case None => haveCommitted' == haveCommitted && committedSeq' == committedSeq
    case Some(f) => haveCommitted' && committedSeq' == f
  }

  /** A final told at an endpoint can be vouched for. */
  lemma VouchedClosed(p: Pipeline, heard: seq<Record>, r: Record, cap: nat, s: Standing, exact1: bool, t: Told,
                      n0: Counts, n: Counts)
    requires Stands(p, heard, cap, s, n0, n) && Grown(n, t.flushing) && Grown(t.flushing, t.ended)
    requires Closes(s.view, r) && cap > 0
    requires s.exact && (|| Troubles(t.flushing) == Troubles(n)
                         || ReadsOn(p, heard, r, cap, s, t.flushing.restores > n.restores))
             ==> exact1
    requires Speaks(t, s.cut + Emits(s.view, r), Tail(Next(s.view, r)), exact1,
                    || ReadsOn(p, heard, r, cap, s, true)
                    || (ReadsOn(p, heard, r, cap, s, false) && t.ended.restores == t.flushing.restores))
    ensures Vouched(p, heard + [r], cap, s.spoken + [t], |s.spoken|, n0)
  {
    hide ReadsOn, Lived, SinceOf, UtteredOf, Clear, Floored, Emits, Next, Closes, Alike, MaxEnd, Tail, EndpointsFit,
         Sane, HandedOn, Upto;
    var k, more := |s.spoken|, s.spoken + [t];
    LivedSnoc(p, heard, r);
    OpenedSnoc(s.spoken, t, k, n0);
    UptoSnoc(p, heard, r, k);
    HandedSnoc(p, heard, r, s.spoken, k);
    assert HandedOn(p, heard + [r], more, k) == HandedOn(p, heard + [r], s.spoken, k) by {
      HandedMore(p, heard + [r], s.spoken, t, k);
    }
    if Trusty(p, heard + [r], cap, more, k, n0) {
      SaneOnClosed(p, heard, r, cap);
      ExactOn(p, heard, r, cap, s, exact1, n0, n, t.flushing);
      if Lost(t) {
        StandsRead(p, heard, r, cap, s, n0, n, t.ended.restores > t.flushing.restores);
      }
    }
  }

  lemma HandedMore(p: Pipeline, heard: seq<Record>, spoken: seq<Told>, t: Told, i: nat)
    requires i <= |spoken|
    ensures HandedOn(p, heard, spoken + [t], i) == HandedOn(p, heard, spoken, i)
  {
  }

  lemma SaneOnClosed(p: Pipeline, heard: seq<Record>, r: Record, cap: nat)
    requires Closes(Lived(p, heard), r)
    ensures Increasing(heard + [r], 0) && Sane(p, heard, 1, cap) ==> SaneOn(p, heard, r, cap)
  {
  }

  lemma StandsClosed(p: Pipeline, heard: seq<Record>, r: Record, cap: nat, s: Standing, t: Told, n0: Counts,
                     n: Counts, haveCommitted: bool, committedSeq: nat)
    requires Stands(p, heard, cap, s, n0, n) && Grown(n, t.flushing) && Grown(t.flushing, t.ended)
    requires Closes(s.view, r)
    requires FloorMoved(Replay.TrimFloor(t.applied, Retention(Flushed(Next(s.view, r)))),
                        s.haveCommitted, s.committedSeq, haveCommitted, committedSeq)
    ensures Stands(p, heard + [r], cap,
                   Standing(Flushed(Next(s.view, r)), [], s.spoken + [t], s.utterance + 1, true, haveCommitted,
                            committedSeq),
                   n0, t.ended)
  {
    hide Sane, Lived, SinceOf, UtteredOf, Clear, Floored, Emits, Next, Closes, Tail, Flushed, EndpointsFit, Retention,
         Replay.TrimFloor, HandedOn, Upto, Legal, Increasing;
    var k := |s.spoken|;
    LivedSnoc(p, heard, r);
    TimelineSnoc(s.spoken, t, n0, n, t.ended);
    if Legal(p) && Increasing(heard + [r], 0) {
      if HandedOn(p, heard + [r], s.spoken + [t], k + 1) {
        HandedClosed(p, heard, r, s.spoken, t);
        Commits(p, heard, r, t.applied);
      }
      if EndpointsFit(p, heard + [r]) {
        ClearCommit(p, heard, r, t.applied);
      }
    }
  }

  lemma HandedClosed(p: Pipeline, heard: seq<Record>, r: Record, spoken: seq<Told>, t: Told)
    requires |spoken| == |UtteredOf(p, heard)| && Closes(Lived(p, heard), r)
    ensures HandedOn(p, heard + [r], spoken + [t], |spoken| + 1) <==> t.applied == Replay.VoicedEnd(heard)
  {
    hide Lived, UtteredOf, Closes, Upto;
    UptoSnoc(p, heard, r, |spoken|);
  }

  /** So can the final told at session.end. */
  lemma VouchedEnd(p: Pipeline, heard: seq<Record>, cap: nat, s: Standing, t: Told, n0: Counts)
    requires Stands(p, heard, cap, s, n0, t.flushing) && Grown(t.flushing, t.ended)
    requires Speaks(t, s.cut, Tail(s.view), s.exact,
                    var read, retained := ReadOf(Newest(heard, cap), s.haveCommitted, s.committedSeq),
                                          Newest(heard, cap);
                    || Reproduces(p, read, retained, s.cut, true)
                    || (Reproduces(p, read, retained, s.cut, false) && t.ended.restores == t.flushing.restores))
    ensures Vouched(p, heard, cap, s.spoken + [t], |s.spoken|, n0)
  {
    hide Lived, SinceOf, UtteredOf, Clear, Floored, Alike, MaxEnd, Tail, EndpointsFit, Reproduces, Sane, HandedOn,
         Upto;
    var k := |s.spoken|;
    OpenedSnoc(s.spoken, t, k, n0);
    HandedMore(p, heard, s.spoken, t, k);
    UptoOpen(p, heard, k);
    if Trusty(p, heard, cap, s.spoken + [t], k, n0) && Lost(t) {
      SaneLegal(p, heard, cap);
      HandsOver(p, heard, cap, s.haveCommitted, s.committedSeq);
      ReplaysNow(p, heard, cap, t.ended.restores > t.flushing.restores);
    }
  }

  lemma UptoOpen(p: Pipeline, heard: seq<Record>, i: nat)
    requires i >= |UtteredOf(p, heard)|
    ensures Upto(p, heard, i) == heard
  {
  }

  lemma SaneLegal(p: Pipeline, heard: seq<Record>, cap: nat)
    requires Sane(p, heard, 0, cap)
    ensures Legal(p) && Increasing(heard, 0)
  {
  }

  // ---- what the finals say ----

  /** The i-th utterance is cut from the frames up to the one that ended it. */
  lemma {:induction false} UtteredAt(p: Pipeline, heard: seq<Record>, i: nat) returns (r: Record)
    requires i < |UtteredOf(p, heard)|
    ensures var h := Upto(p, heard, i);
            && h + [r] <= heard && Closes(Lived(p, h), r) && i < |UtteredOf(p, h + [r])|
            && UtteredOf(p, heard)[i]
               == Replay.Utterance(SinceOf(p, h) + Emits(Lived(p, h), r), Tail(Next(Lived(p, h), r)))
  {
    LivedFresh(p);
    hide SinceOf, UtteredOf, Lived, Closes, Emits, Next, Tail;
    var init, last := heard[..|heard|-1], heard[|heard|-1];
    assert heard == init + [last];
    LivedSnoc(p, init, last);
    UptoSnoc(p, init, last, i);
    if i < |UtteredOf(p, init)| {
      r := UtteredAt(p, init, i);
    } else {
      r := last;
    }
  }

  lemma {:induction false} IncreasingUpto(heard: seq<Record>, h: seq<Record>)
    requires Increasing(heard, 0) && h <= heard
    ensures Increasing(h, 0)
  {
    if |h| == |heard| {
      assert h == heard;
    } else {
      IncreasingUpto(heard[..|heard|-1], h);
    }
  }

  /** A final that can be relied on, and did not lose its tail, leaves the journal handing
      on what the next utterance needs, if its own onset was clean: in a session of clean
      onsets, room in the ring and no restored checkpoint, only a lost tail can make a
      later final unreliable. */
  lemma HandedFollows(p: Pipeline, heard: seq<Record>, cap: nat, spoken: seq<Told>, n0: Counts, n: Counts, i: nat)
    requires Truthful(p, heard, cap, spoken, n0, n) && i < |spoken| && i < |UtteredOf(p, heard)|
    requires Legal(p) && Increasing(heard, 0) && CleanOf(p, Upto(p, heard, i))
    requires Trusty(p, heard, cap, spoken, i, n0) && !Lost(spoken[i])
    ensures HandedOn(p, heard, spoken, i + 1)
  {
    hide SinceOf, UtteredOf, Lived, Closes, Emits, Next, Tail, Trusty, Upto, CleanOf, Alike, MaxEnd, Increasing,
         Legal;
    assert Vouched(p, heard, cap, spoken, i, n0);
    var r := UtteredAt(p, heard, i);
    IncreasingUpto(heard, Upto(p, heard, i) + [r]);
    AppliedAll(p, Upto(p, heard, i), r, spoken[i].said);
  }

  /** If nothing failed over during the i-th utterance, or the failover was covered, the
      i-th final is the text of its utterance's chunks, each pushed once onto a fresh
      state: all of them, but for the flushed one exactly if pushing that failed over.
      Utterances that saw a failover are no more than the failovers. */
  lemma FinalsSay<S>(model: string -> Adapter<S>, log: seq<Event>, p: Pipeline, heard: seq<Record>, cap: nat,
                     spoken: seq<Told>, n0: Counts, n: Counts, i: nat)
    requires Logged(model, log, spoken) && Truthful(p, heard, cap, spoken, n0, n)
    requires i < |spoken| && Trusty(p, heard, cap, spoken, i, n0)
    ensures i < |AllUttered(p, heard)|
    ensures var t, u := spoken[i], AllUttered(p, heard)[i];
            && log[t.at].text == TextOf(model(t.key), if Lost(t) then u.chunks else u.chunks + u.tail)
            && (Lost(t) ==> u.tail != [])
    ensures Upset(spoken, n0) <= Troubles(n) - Troubles(n0)
  {
    assert Vouched(p, heard, cap, spoken, i, n0);
    hide Trusty, AllUttered, Upset, Lost;
    var t, u := spoken[i], AllUttered(p, heard)[i];
    UpsetBound(spoken, n0, n);
    AlikePush(model(t.key), t.said, if Lost(t) then u.chunks else u.chunks + u.tail);
  }

  /** Chunks with increasing spans are in the text exactly once each. */
  lemma SaidOnce<S>(a: Adapter<S>, ps: seq<Piece>)
    requires SpansIncrease(ps, 0)
    ensures TextOf(a, ps) == a.finalize(Fold(a, a.initial, Sounds(ps)))
  {
    AppliedOnce(a, FreshRec(a), ps);
  }

  /** With its tail the pass-through cut still has increasing spans. */
  lemma PlainTailSpans(limit: nat, log: seq<Record>)
    requires Increasing(log, 0)
    ensures SpansIncrease(Audio.Recut(limit, log) + ForceCut(Audio.Held(limit, log)), 0)
  {
    CutSpans(limit, log, 0);
    var out, tail := Audio.Recut(limit, log), ForceCut(Audio.Held(limit, log));
    if tail == [] {
      assert out + tail == out;
    } else {
      assert (out + tail)[..|out|] == out;
    }
  }

  /** A pass-through session tells one final: what the model makes of all the audio, each
      chunk fed once and in order, but for the flushed one exactly if pushing that failed
      over. */
  lemma PlainSays<S>(model: string -> Adapter<S>, log: seq<Event>, p: Pipeline, heard: seq<Record>, cap: nat,
                     spoken: seq<Told>, n0: Counts, n: Counts)
    requires Logged(model, log, spoken) && Truthful(p, heard, cap, spoken, n0, n)
    requires spoken != [] ==> Trusty(p, heard, cap, spoken, 0, n0)
    requires p.Passthrough? && Increasing(heard, 0)
    ensures |spoken| <= 1
    ensures var limit := p.plain.live.chunkSamples;
            var cut, tail := Audio.Recut(limit, heard), ForceCut(Audio.Held(limit, heard));
            && Audible(cut) + Audible(tail) == Payload(Spoken(heard))
            && (spoken != [] ==>
                  var t, a := spoken[0], model(spoken[0].key);
                  log[t.at].text == a.finalize(Fold(a, a.initial, Sounds(if Lost(t) then cut else cut + tail))))
  {
    assert |spoken| > 1 ==> Vouched(p, heard, cap, spoken, 1, n0);
    hide Trusty, TextOf, Faithful, Upset, Lost, Vouched;
    var limit := p.plain.live.chunkSamples;
    var cut, tail := Audio.Recut(limit, heard), ForceCut(Audio.Held(limit, heard));
    CutConservesAudio(limit, heard);
    CutSpans(limit, heard, 0);
    PlainTailSpans(limit, heard);
    if spoken != [] {
      var t := spoken[0];
      FinalsSay(model, log, p, heard, cap, spoken, n0, n, 0);
      SaidOnce(model(t.key), if Lost(t) then cut else cut + tail);
    }
  }

  // ---- no other finals ----

  function FinalsAt(log: seq<Event>): set<nat> {
    set i | 0 <= i < |log| && log[i].Final? :: i
  }

  lemma {:induction false} FinalsCounted(log: seq<Event>)
    ensures |FinalsAt(log)| == FinalsIn(log)
  {
    if log != [] {
      var n, init := |log| - 1, log[..|log|-1];
      FinalsCounted(init);
      assert FinalsAt(log) == if log[n].Final? then FinalsAt(init) + {n} else FinalsAt(init);
    }
  }

  function PlacesOf(spoken: seq<Told>): set<nat> {
    set i | 0 <= i < |spoken| :: spoken[i].at
  }

  lemma {:induction false} PlacesCounted<S>(model: string -> Adapter<S>, log: seq<Event>, spoken: seq<Told>)
    requires Logged(model, log, spoken)
    ensures |PlacesOf(spoken)| == |spoken| && PlacesOf(spoken) <= FinalsAt(log)
  {
    hide TextOf;
    if spoken != [] {
      var n, init := |spoken| - 1, spoken[..|spoken|-1];
      PlacesCounted(model, log, init);
      assert PlacesOf(spoken) == PlacesOf(init) + {spoken[n].at};
    }
  }

  lemma Whole<T>(part: set<T>, all: set<T>)
    requires part <= all && |part| == |all|
    ensures part == all
  {
    assert all == part + (all - part);
  }

  lemma OnItsPlace<S>(model: string -> Adapter<S>, log: seq<Event>, spoken: seq<Told>, j: nat)
    requires Logged(model, log, spoken) && j in PlacesOf(spoken)
    ensures j < |log| && 1 <= log[j].utterance <= |spoken| && spoken[log[j].utterance - 1].at == j
  {
    hide TextOf;
    var i: nat :| i < |spoken| && spoken[i].at == j;
  }

  /** A log with as many finals as are on record has no others: each is the one final of
      its utterance. */
  lemma OnlyThese<S>(model: string -> Adapter<S>, log: seq<Event>, spoken: seq<Told>, j: nat)
    requires Logged(model, log, spoken) && FinalsIn(log) == |spoken|
    requires j < |log| && log[j].Final?
    ensures 1 <= log[j].utterance <= |spoken| && spoken[log[j].utterance - 1].at == j
  {
    assert j in FinalsAt(log);
    hide Logged, FinalsIn, FinalsAt, PlacesOf;
    FinalsCounted(log);
    PlacesCounted(model, log, spoken);
    Whole(PlacesOf(spoken), FinalsAt(log));
    OnItsPlace(model, log, spoken, j);
  }
}

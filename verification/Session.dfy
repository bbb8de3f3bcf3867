/** The gateway's session record, frame numbering and transcript emission:
    internal/session. */
module Session {
  import opened Wrappers

  /** One value, because a failed recovery puts the whole record back. */
  datatype State = State(
    sessionId: string,
    utterance: nat,
    utteranceStart: nat,
    mode: string,
    workerId: string,
    handle: nat,
    key: string,
    failoverEpoch: nat,
    generation: nat,
    lastApplied: nat,
    committed: nat,
    revision: nat,
    lastPartial: string,
    finalized: bool)

  function NewState(sessionId: string): State {
    State(sessionId, 1, 0, "", "", 0, "", 0, 0, 0, 0, 0, "", false)
  }

  /** Sequence numbers and counters of the session survive; those of the
      utterance start over. */
  function NewUtterance(s: State): (r: State)
    ensures r.utterance == s.utterance + 1 && r.revision == 0 && !r.finalized
    ensures r.failoverEpoch == s.failoverEpoch && r.lastApplied == s.lastApplied && r.committed == s.committed
    ensures r.workerId == s.workerId && r.handle == s.handle && r.generation == s.generation && r.key == s.key
  {
    s.(utterance := s.utterance + 1, utteranceStart := 0, revision := 0, lastPartial := "", finalized := false)
  }

  // ---- the transcript a client sees ----

  datatype Event =
    | SpeechStarted(utterance: nat, seqStart: nat)
    | Partial(utterance: nat, revision: nat, epoch: nat, text: string)
    | PartialReset(utterance: nat, revision: nat, epoch: nat)
    | Final(utterance: nat, seqStart: nat, seqEnd: nat, text: string)

  /** Revisions already emitted for utterance u. */
  function Revisions(log: seq<Event>, u: nat): nat {
    if log == [] then 0
    else
      var e := log[|log|-1];
      Revisions(log[..|log|-1], u) + if (e.Partial? || e.PartialReset?) && e.utterance == u then 1 else 0
  }

  function Resets(log: seq<Event>): nat {
    if log == [] then 0
    else Resets(log[..|log|-1]) + if log[|log|-1].PartialReset? then 1 else 0
  }

  predicate Closed(log: seq<Event>, u: nat) {
    log != [] && (Closed(log[..|log|-1], u) || (log[|log|-1].Final? && log[|log|-1].utterance == u))
  }

  /** e may follow log: its utterance has no final yet, its revision is the next
      one, and its epoch counts the resets. */
  predicate Follows(log: seq<Event>, e: Event) {
    && !Closed(log, e.utterance)
    && match e
       case SpeechStarted(_, _) => true
       case Partial(u, r, epoch, _) => r == Revisions(log, u) + 1 && epoch == Resets(log)
       case PartialReset(u, r, epoch) => r == Revisions(log, u) + 1 && epoch == Resets(log) + 1
       case Final(_, _, _, _) => true
  }

  predicate WellFormed(log: seq<Event>) {
    log == [] || (WellFormed(log[..|log|-1]) && Follows(log[..|log|-1], log[|log|-1]))
  }

  /** The record agrees with everything emitted so far. */
  ghost predicate Tracks(log: seq<Event>, s: State) {
    && WellFormed(log)
    && s.revision == Revisions(log, s.utterance)
    && s.failoverEpoch == Resets(log)
    && s.finalized == Closed(log, s.utterance)
    && forall u | u > s.utterance :: Revisions(log, u) == 0 && !Closed(log, u)
  }

  function FinalsIn(log: seq<Event>): nat {
    if log == [] then 0 else FinalsIn(log[..|log|-1]) + if log[|log|-1].Final? then 1 else 0
  }

  lemma EventSnoc(log: seq<Event>, e: Event)
    ensures WellFormed(log + [e]) == (WellFormed(log) && Follows(log, e))
    ensures forall u :: Revisions(log + [e], u)
                        == Revisions(log, u) + if (e.Partial? || e.PartialReset?) && e.utterance == u then 1 else 0
    ensures Resets(log + [e]) == Resets(log) + if e.PartialReset? then 1 else 0
    ensures forall u :: Closed(log + [e], u) == (Closed(log, u) || (e.Final? && e.utterance == u))
    ensures FinalsIn(log + [e]) == FinalsIn(log) + if e.Final? then 1 else 0
  {
    assert (log + [e])[..|log|] == log;
  }

  lemma TracksNext(log: seq<Event>, s: State)
    requires Tracks(log, s) && s.finalized
    ensures Tracks(log, NewUtterance(s))
  {
  }

  /** Nothing follows a final of the same utterance. */
  lemma {:induction false} NothingAfterFinal(log: seq<Event>, i: nat, j: nat)
    requires WellFormed(log) && i < j < |log| && log[i].Final?
    ensures log[j].utterance != log[i].utterance
  {
    var init := log[..|log|-1];
    if j < |log| - 1 {
      NothingAfterFinal(init, i, j);
    } else {
      ClosedBy(init, i);
    }
  }

  lemma {:induction false} ClosedBy(log: seq<Event>, i: nat)
    requires i < |log| && log[i].Final?
    ensures Closed(log, log[i].utterance)
  {
    if i < |log| - 1 {
      ClosedBy(log[..|log|-1], i);
    }
  }

  /** The revisions of an utterance, in the order they were emitted. */
  function RevisionsOf(log: seq<Event>, u: nat): seq<nat> {
    if log == [] then []
    else
      var e := log[|log|-1];
      RevisionsOf(log[..|log|-1], u) + if (e.Partial? || e.PartialReset?) && e.utterance == u then [e.revision] else []
  }

  function Epochs(log: seq<Event>): seq<nat> {
    if log == [] then []
    else Epochs(log[..|log|-1]) + if log[|log|-1].PartialReset? then [log[|log|-1].epoch] else []
  }

  /** Each utterance shows revisions 1, 2, 3, ... without gap or repeat, and the
      k-th reset of the session carries epoch k. */
  lemma {:induction false} CountsUp(log: seq<Event>, u: nat)
    requires WellFormed(log)
    ensures |RevisionsOf(log, u)| == Revisions(log, u) && |Epochs(log)| == Resets(log)
    ensures forall i | 0 <= i < |RevisionsOf(log, u)| :: RevisionsOf(log, u)[i] == i + 1
    ensures forall i | 0 <= i < |Epochs(log)| :: Epochs(log)[i] == i + 1
  {
    if log != [] {
      hide Closed;
      CountsUp(log[..|log|-1], u);
    }
  }

  class InferenceState {
    var s: State

    constructor (sessionId: string)
      ensures s == NewState(sessionId)
    {
      s := NewState(sessionId);
    }
  }

  /** Builds the events and keeps the utterance's counters. Emitting after the
      final is a fault the source guards against with a panic, here a
      precondition. */
  class Emitter {
    const state: InferenceState
    var lastFinal: Option<Event>

    constructor (state: InferenceState)
      ensures this.state == state && lastFinal == None
    {
      this.state, lastFinal := state, None;
    }

    method SpeechStart(seqStart: nat) returns (e: Event)
      requires !state.s.finalized
      modifies state
      ensures state.s == old(state.s).(utteranceStart := seqStart)
      ensures e == SpeechStarted(state.s.utterance, seqStart)
      ensures forall log :: Tracks(log, old(state.s)) ==> Tracks(log + [e], state.s)
    {
      e := SpeechStarted(state.s.utterance, seqStart);
      TracksEmit(state.s, e);
      state.s := state.s.(utteranceStart := seqStart);
    }

    method Partial(text: string) returns (e: Event)
      requires !state.s.finalized
      modifies state
      ensures state.s == old(state.s).(revision := old(state.s.revision) + 1, lastPartial := text)
      ensures e == Event.Partial(state.s.utterance, state.s.revision, state.s.failoverEpoch, text)
      ensures forall log :: Tracks(log, old(state.s)) ==> Tracks(log + [e], state.s)
    {
      e := Event.Partial(state.s.utterance, state.s.revision + 1, state.s.failoverEpoch, text);
      TracksEmit(state.s, e);
      state.s := state.s.(revision := state.s.revision + 1, lastPartial := text);
    }

    /** Called once the epoch has been advanced, for the reset the client will see. */
    method PartialReset() returns (e: Event)
      requires !state.s.finalized && state.s.failoverEpoch > 0
      modifies state
      ensures state.s == old(state.s).(revision := old(state.s.revision) + 1, lastPartial := "")
      ensures e == Event.PartialReset(state.s.utterance, state.s.revision, state.s.failoverEpoch)
      ensures forall log :: Tracks(log, old(state.s).(failoverEpoch := old(state.s.failoverEpoch) - 1))
                            ==> Tracks(log + [e], state.s)
    {
      e := Event.PartialReset(state.s.utterance, state.s.revision + 1, state.s.failoverEpoch);
      TracksEmit(state.s.(failoverEpoch := state.s.failoverEpoch - 1), e);
      state.s := state.s.(revision := state.s.revision + 1, lastPartial := "");
    }

    /** Idempotent: a second final of the same utterance is the first one again. */
    method Final(text: string, seqStart: nat, seqEnd: nat) returns (e: Event, isNew: bool)
      requires state.s.finalized ==> lastFinal.Some?
      modifies this, state
      ensures isNew == !old(state.s.finalized)
      ensures !isNew ==> e == old(lastFinal).value && state.s == old(state.s)
      ensures isNew ==> state.s == old(state.s).(finalized := true, committed := seqEnd)
      ensures isNew ==> e == Event.Final(state.s.utterance, seqStart, seqEnd, text)
      ensures isNew ==> forall log :: Tracks(log, old(state.s)) ==> Tracks(log + [e], state.s)
      ensures state.s.finalized && lastFinal == Some(e)
    {
      if state.s.finalized {
        return lastFinal.value, false;
      }
      e := Event.Final(state.s.utterance, seqStart, seqEnd, text);
      TracksEmit(state.s, e);
      state.s := state.s.(finalized := true, committed := seqEnd);
      lastFinal := Some(e);
      isNew := true;
    }
  }

  /** What one emission does to a record that was up to date. */
  function Emitted(s: State, e: Event): State {
    match e
    case SpeechStarted(_, _) => s
    case Partial(_, _, _, _) => s.(revision := s.revision + 1)
    case PartialReset(_, _, _) => s.(revision := s.revision + 1, failoverEpoch := s.failoverEpoch + 1)
    case Final(_, _, _, _) => s.(finalized := true)
  }

  lemma TracksEmit(s: State, e: Event)
    requires !s.finalized && e.utterance == s.utterance
    requires e.Partial? ==> e.revision == s.revision + 1 && e.epoch == s.failoverEpoch
    requires e.PartialReset? ==> e.revision == s.revision + 1 && e.epoch == s.failoverEpoch + 1
    ensures forall log :: Tracks(log, s) ==> Tracks(log + [e], Emitted(s, e))
  {
    hide WellFormed, Revisions, Resets, Closed;
    forall log | Tracks(log, s) ensures Tracks(log + [e], Emitted(s, e)) {
      EventSnoc(log, e);
    }
  }

  // ---- frame numbering ----

  datatype Outcome = Expected | Duplicate | Gap(from: nat, to: nat)

  class SeqValidator {
    var expected: nat

    constructor ()
      ensures expected == 0
    {
      expected := 0;
    }

    method Validate(n: nat) returns (outcome: Outcome)
      modifies this
      ensures outcome == if n == old(expected) then Expected
                         else if n < old(expected) then Duplicate else Gap(old(expected), n)
      ensures expected == if outcome == Duplicate then old(expected) else n + 1
    {
      if n == expected {
        expected := expected + 1;
        return Expected;
      } else if n < expected {
        return Duplicate;
      }
      outcome := Gap(expected, n);
      expected := n + 1;
    }
  }

  predicate Ascending(accepted: seq<nat>, below: nat) {
    accepted == [] ||
    (accepted[|accepted|-1] < below && Ascending(accepted[..|accepted|-1], accepted[|accepted|-1]))
  }

  predicate InGap(outcomes: seq<Outcome>, n: nat) {
    exists i :: 0 <= i < |outcomes| && outcomes[i].Gap? && outcomes[i].from <= n < outcomes[i].to
  }

  /** What the validator answers, and expects next. */
  function Answer(expected: nat, n: nat): Outcome {
    if n == expected then Expected else if n < expected then Duplicate else Gap(expected, n)
  }

  function NextExpected(expected: nat, n: nat): nat {
    if n < expected then expected else n + 1
  }

  /** The number expected after the frames. */
  function ExpectedAfter(frames: seq<nat>): nat {
    if frames == [] then 0 else NextExpected(ExpectedAfter(frames[..|frames|-1]), frames[|frames|-1])
  }

  function Answers(frames: seq<nat>): seq<Outcome> {
    if frames == [] then []
    else Answers(frames[..|frames|-1]) + [Answer(ExpectedAfter(frames[..|frames|-1]), frames[|frames|-1])]
  }

  /** The frames that were not answered Duplicate. */
  function LetThrough(frames: seq<nat>): seq<nat> {
    if frames == [] then []
    else
      var init, n := frames[..|frames|-1], frames[|frames|-1];
      LetThrough(init) + if Answer(ExpectedAfter(init), n) == Duplicate then [] else [n]
  }

  predicate Turned(frames: seq<nat>, outcomes: seq<Outcome>, i: nat)
    requires i < |frames| == |outcomes|
  {
    outcomes[i] == Duplicate <==> exists j :: 0 <= j < i && frames[j] >= frames[i]
  }

  /** What is accepted strictly increases; a frame is turned away exactly when something
      as high came before it; what is expected is one past the highest frame; and every
      number below that was either accepted or reported missing, never both. */
  ghost predicate Screened(frames: seq<nat>, accepted: seq<nat>, outcomes: seq<Outcome>, expected: nat) {
    && |outcomes| == |frames| && Ascending(accepted, expected)
    && (forall j | 0 <= j < |frames| :: frames[j] < expected)
    && (expected > 0 ==> exists j :: 0 <= j < |frames| && frames[j] == expected - 1)
    && (forall i | 0 <= i < |frames| :: Turned(frames, outcomes, i))
    && (forall n | n in accepted :: n < expected)
    && (forall i | 0 <= i < |outcomes| && outcomes[i].Gap? :: outcomes[i].to < expected)
    && forall n | 0 <= n < expected :: (n in accepted) != InGap(outcomes, n)
  }

  lemma TurnedSnoc(frames: seq<nat>, accepted: seq<nat>, outcomes: seq<Outcome>, expected: nat, n: nat)
    requires Screened(frames, accepted, outcomes, expected)
    ensures forall i | 0 <= i < |frames| + 1 :: Turned(frames + [n], outcomes + [Answer(expected, n)], i)
  {
    var frames', outcomes' := frames + [n], outcomes + [Answer(expected, n)];
    forall i | 0 <= i < |frames'| ensures Turned(frames', outcomes', i) {
      if i < |frames| {
        assert Turned(frames, outcomes, i);
        assert forall j | 0 <= j <= i :: frames'[j] == frames[j];
      } else if n < expected {
        var j :| 0 <= j < |frames| && frames[j] == expected - 1;
        assert frames'[j] >= frames'[i];
      } else {
        assert forall j | 0 <= j < i :: frames'[j] == frames[j];
      }
    }
  }

  lemma ReportedSnoc(accepted: seq<nat>, outcomes: seq<Outcome>, expected: nat, n: nat)
    requires forall x | x in accepted :: x < expected
    requires forall i | 0 <= i < |outcomes| && outcomes[i].Gap? :: outcomes[i].to < expected
    requires forall x | 0 <= x < expected :: (x in accepted) != InGap(outcomes, x)
    ensures forall x | 0 <= x < NextExpected(expected, n) ::
              (x in accepted + if n < expected then [] else [n]) != InGap(outcomes + [Answer(expected, n)], x)
  {
    GapSnoc(outcomes, Answer(expected, n));
    NoGapBeyond(outcomes, expected);
  }

  lemma NoGapBeyond(outcomes: seq<Outcome>, expected: nat)
    requires forall i | 0 <= i < |outcomes| && outcomes[i].Gap? :: outcomes[i].to < expected
    ensures forall x: nat | x >= expected :: !InGap(outcomes, x)
  {
  }

  lemma AcceptedSnoc(accepted: seq<nat>, expected: nat, n: nat)
    requires Ascending(accepted, expected) && forall x | x in accepted :: x < expected
    ensures Ascending(accepted + if n < expected then [] else [n], NextExpected(expected, n))
    ensures var more := accepted + if n < expected then [] else [n];
            forall x | x in more :: x < NextExpected(expected, n)
  {
    if n >= expected {
      assert (accepted + [n])[..|accepted|] == accepted;
      assert accepted != [] ==> accepted[|accepted|-1] in accepted;
    } else {
      assert accepted + [] == accepted;
    }
  }

  lemma SeenSnoc(frames: seq<nat>, expected: nat, n: nat)
    requires forall j | 0 <= j < |frames| :: frames[j] < expected
    requires expected > 0 ==> exists j :: 0 <= j < |frames| && frames[j] == expected - 1
    ensures var frames' := frames + [n];
            && (forall j | 0 <= j < |frames'| :: frames'[j] < NextExpected(expected, n))
            && exists j :: 0 <= j < |frames'| && frames'[j] == NextExpected(expected, n) - 1
  {
    assert (frames + [n])[|frames|] == n;
    if n < expected {
      var j :| 0 <= j < |frames| && frames[j] == expected - 1;
      assert (frames + [n])[j] == expected - 1;
    }
  }

  lemma ScreenedSnoc(frames: seq<nat>, accepted: seq<nat>, outcomes: seq<Outcome>, expected: nat, n: nat)
    requires Screened(frames, accepted, outcomes, expected)
    ensures Screened(frames + [n], accepted + if n < expected then [] else [n], outcomes + [Answer(expected, n)],
                     NextExpected(expected, n))
  {
    hide InGap, Turned, Ascending;
    TurnedSnoc(frames, accepted, outcomes, expected, n);
    ReportedSnoc(accepted, outcomes, expected, n);
    AcceptedSnoc(accepted, expected, n);
    SeenSnoc(frames, expected, n);
  }

  lemma AnswersSnoc(frames: seq<nat>, n: nat)
    ensures var expected := ExpectedAfter(frames);
            && ExpectedAfter(frames + [n]) == NextExpected(expected, n)
            && Answers(frames + [n]) == Answers(frames) + [Answer(expected, n)]
            && LetThrough(frames + [n]) == LetThrough(frames) + if n < expected then [] else [n]
  {
    assert (frames + [n])[..|frames|] == frames;
  }

  lemma {:induction false} ScreenedAlways(frames: seq<nat>)
    ensures Screened(frames, LetThrough(frames), Answers(frames), ExpectedAfter(frames))
  {
    if frames != [] {
      var init, n := frames[..|frames|-1], frames[|frames|-1];
      assert frames == init + [n];
      ScreenedAlways(init);
      AnswersSnoc(init, n);
      hide Screened, Answers, LetThrough, ExpectedAfter;
      ScreenedSnoc(init, LetThrough(init), Answers(init), ExpectedAfter(init), n);
    }
  }

  /** Any stream of frames, each answered by Validate. */
  method ValidateAll(v: SeqValidator, frames: seq<nat>) returns (accepted: seq<nat>, outcomes: seq<Outcome>)
    requires v.expected == 0
    modifies v
    ensures outcomes == Answers(frames) && accepted == LetThrough(frames) && v.expected == ExpectedAfter(frames)
    ensures Screened(frames, accepted, outcomes, v.expected)
  {
    accepted, outcomes := [], [];
    ScreenedAlways(frames);
    hide Screened;
    for k := 0 to |frames|
      invariant outcomes == Answers(frames[..k]) && accepted == LetThrough(frames[..k])
      invariant v.expected == ExpectedAfter(frames[..k])
    {
      AnswersSnoc(frames[..k], frames[k]);
      assert frames[..k] + [frames[k]] == frames[..k+1];
      hide Answers, LetThrough, ExpectedAfter;
      var outcome := v.Validate(frames[k]);
      outcomes := outcomes + [outcome];
      accepted := accepted + if outcome == Duplicate then [] else [frames[k]];
    }
    assert frames[..|frames|] == frames;
  }

  lemma GapSnoc(outcomes: seq<Outcome>, o: Outcome)
    ensures forall n: nat :: InGap(outcomes + [o], n) <==> InGap(outcomes, n) || (o.Gap? && o.from <= n < o.to)
  {
    forall n: nat ensures InGap(outcomes + [o], n) <==> InGap(outcomes, n) || (o.Gap? && o.from <= n < o.to) {
      if InGap(outcomes, n) {
        var i :| 0 <= i < |outcomes| && outcomes[i].Gap? && outcomes[i].from <= n < outcomes[i].to;
        assert (outcomes + [o])[i] == outcomes[i];
      }
      assert (outcomes + [o])[|outcomes|] == o;
    }
  }
}

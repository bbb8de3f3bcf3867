/** The versions a session names when it streams through the shared tier: each
    chunk's end, over all its utterances (dispatchChunk and finalizeEndpoint in
    cmd/gateway/conn.go, Open and Push of internal/backend/stateless.go). */
module Versions {
  import opened Wrappers
  import opened Audio
  import opened Adapters
  import opened Backend
  import opened History
  import opened Pipelines
  import Replay
  import opened Stateless
  import Vad

  function Through(m: Mark, ps: seq<Piece>): Mark {
    if ps == [] then m else Named(Through(m, ps[..|ps|-1]), ps[|ps|-1].seqEnd)
  }

  predicate AllFine(m: Mark, ps: seq<Piece>) {
    ps == [] || (AllFine(m, ps[..|ps|-1]) && Fine(Through(m, ps[..|ps|-1]), ps[|ps|-1].seqEnd))
  }

  /** The newest version named by any of the utterances. */
  function Highest(us: seq<Utterance>): nat {
    if us == [] then 0
    else Through(Mark(0, Highest(us[..|us|-1])), us[|us|-1].chunks + us[|us|-1].tail).highest
  }

  /** Open resets the counter for each utterance, and no push reuses a version. */
  predicate InOrder(us: seq<Utterance>) {
    us == [] ||
    (InOrder(us[..|us|-1]) && AllFine(Mark(0, Highest(us[..|us|-1])), us[|us|-1].chunks + us[|us|-1].tail))
  }

  // ---- chunk ends climb ----

  /** Above floor, and never going back. */
  ghost predicate Climbs(ps: seq<Piece>, floor: nat) {
    ps == [] ||
    var init, n := ps[..|ps|-1], ps[|ps|-1].seqEnd;
    Climbs(init, floor) && floor < n && LastEnd(init, floor) <= n
  }

  ghost predicate Climbing(out: seq<Piece>, p: Pending, floor: nat, top: nat) {
    && Climbs(out, floor) && LastEnd(out, floor) <= top
    && (p.Pending? ==> floor < p.end <= top && LastEnd(out, floor) <= p.end)
  }

  lemma ClimbsSnoc(ps: seq<Piece>, p: Piece, floor: nat)
    requires Climbs(ps, floor) && floor < p.seqEnd && LastEnd(ps, floor) <= p.seqEnd
    ensures Climbs(ps + [p], floor) && LastEnd(ps + [p], floor) == p.seqEnd
  {
    assert (ps + [p])[..|ps|] == ps;
  }

  lemma FeedClimbs(limit: nat, out: seq<Piece>, p: Pending, r: Record, floor: nat, top: nat)
    requires Climbing(out, p, floor, top) && floor < r.seqNo && top <= r.seqNo
    ensures Climbing(out + FeedOut(limit, p, r), FeedState(limit, p, r), floor, r.seqNo)
  {
    if FeedOut(limit, p, r) != [] {
      ClimbsSnoc(out, PieceOf(Extend(p, r)), floor);
    } else {
      assert out + [] == out;
    }
  }

  lemma {:induction false} CutClimbs(limit: nat, out: seq<Piece>, p: Pending, fs: seq<Record>, floor: nat, top: nat,
                                     b: nat)
    requires Climbing(out, p, floor, top) && Replay.InOrder(fs) && top <= b
    requires forall i | 0 <= i < |fs| :: floor < fs[i].seqNo && top <= fs[i].seqNo <= b
    ensures Climbing(out + CutOut(limit, p, fs), CutState(limit, p, fs), floor,
                     if fs == [] then top else fs[|fs|-1].seqNo)
  {
    if fs == [] {
      assert out + [] == out;
    } else {
      hide Climbing, FeedOut, FeedState;
      var init, r := fs[..|fs|-1], fs[|fs|-1];
      CutClimbs(limit, out, p, init, floor, top, b);
      FeedClimbs(limit, out + CutOut(limit, p, init), CutState(limit, p, init), r, floor,
                 if init == [] then top else init[|init|-1].seqNo);
      Associate(out, CutOut(limit, p, init), FeedOut(limit, CutState(limit, p, init), r));
    }
  }

  lemma ClimbingOn(out: seq<Piece>, p: Pending, floor: nat, top: nat, top': nat)
    requires Climbing(out, p, floor, top) && top <= top'
    ensures Climbing(out, p, floor, top')
  {
  }

  /** With the forced tail too. */
  lemma ClimbsForced(out: seq<Piece>, p: Pending, floor: nat, top: nat)
    requires Climbing(out, p, floor, top)
    ensures Climbs(out + ForceCut(p), floor) && LastEnd(out + ForceCut(p), floor) <= top
  {
    if p.Pending? {
      ClimbsSnoc(out, PieceOf(p), floor);
    } else {
      assert out + [] == out;
    }
  }

  lemma {:induction false} ClimbsFine(ps: seq<Piece>, highest: nat)
    requires Climbs(ps, highest)
    ensures AllFine(Mark(0, highest), ps)
    ensures Through(Mark(0, highest), ps) == if ps == [] then Mark(0, highest) else Mark(LastEnd(ps, 0), LastEnd(ps, 0))
  {
    if ps != [] {
      ClimbsFine(ps[..|ps|-1], highest);
    }
  }

  lemma {:induction false} ClimbsFrom(ps: seq<Piece>, floor: nat, lower: nat)
    requires Climbs(ps, floor) && lower <= floor
    ensures Climbs(ps, lower)
  {
    if ps != [] {
      ClimbsFrom(ps[..|ps|-1], floor, lower);
    }
  }

  // ---- the gated pipeline ----

  /** Where the last utterance ended. */
  function Top(c: Vad.Config, rs: seq<Record>): nat {
    if rs == [] then 0
    else
      var init := rs[..|rs|-1];
      if Vad.Ends(c, Replay.Live(c, init), rs[|rs|-1]) then Replay.VoicedEnd(init) else Top(c, init)
  }

  ghost predicate Above(pre: seq<Record>, floor: nat) {
    forall i | 0 <= i < |pre| :: pre[i].seqNo > floor
  }

  /** How far the chunks can have got. */
  function Reach(c: Vad.Config, rs: seq<Record>): nat {
    if Replay.Live(c, rs).active then Replay.VoicedEnd(rs) else Top(c, rs)
  }

  ghost predicate Rising(c: Vad.Config, rs: seq<Record>) {
    var m, t := Replay.Live(c, rs), Top(c, rs);
    && Above(m.preRoll, t) && t <= Reach(c, rs) <= LastSeq(rs, 0)
    && Climbing(Replay.Since(c, rs), m.held, t, Reach(c, rs))
  }

  lemma RisingClose(c: Vad.Config, rs: seq<Record>, e: Record)
    requires Vad.ValidConfig(c) && Increasing(rs + [e], 0) && Vad.Ends(c, Replay.Live(c, rs), e)
    ensures Rising(c, rs + [e]) && Top(c, rs + [e]) == Replay.VoicedEnd(rs)
  {
    hide Replay.Live;
    assert (rs + [e])[..|rs|] == rs;
    Replay.LiveSnoc(c, rs, e);
    Replay.ClosedAbove(c, rs, e);
    Replay.VoicedEndBy(rs);
    Replay.ShapeAlways(c, rs + [e]);
  }

  lemma RisingOnset(c: Vad.Config, rs: seq<Record>, o: Record)
    requires Vad.ValidConfig(c) && Increasing(rs + [o], 0) && Vad.Onset(c, Replay.Live(c, rs), o) && Rising(c, rs)
    ensures Rising(c, rs + [o])
  {
    hide Replay.Live, Replay.Since, Vad.Keep, CutOut, CutState;
    var m, t := Replay.Live(c, rs), Top(c, rs);
    var fed := Vad.Keep(c, m.preRoll, o);
    assert (rs + [o])[..|rs|] == rs;
    Replay.OnsetCut(c, rs, o);
    Replay.PreRollInOrder(c, rs);
    Replay.PreRollBy(c, rs);
    Replay.KeepInOrder(c, m.preRoll, o);
    Replay.KeepAbove(c, m.preRoll, o, t);
    CutClimbs(c.chunkSamples, [], NoPending, fed, t, t, o.seqNo);
    assert [] + CutOut(c.chunkSamples, NoPending, fed) == CutOut(c.chunkSamples, NoPending, fed);
    ClimbingOn(CutOut(c.chunkSamples, NoPending, fed), CutState(c.chunkSamples, NoPending, fed), t,
               if fed == [] then t else fed[|fed|-1].seqNo, o.seqNo);
  }

  lemma RisingOn(c: Vad.Config, rs: seq<Record>, r: Record)
    requires Vad.ValidConfig(c) && Increasing(rs + [r], 0) && Rising(c, rs)
    requires !Vad.Onset(c, Replay.Live(c, rs), r) && !Vad.Ends(c, Replay.Live(c, rs), r)
    ensures Rising(c, rs + [r])
  {
    hide Replay.Live, Replay.Since, Vad.Keep, Climbing, FeedOut, FeedState;
    var m, t := Replay.Live(c, rs), Top(c, rs);
    assert (rs + [r])[..|rs|] == rs;
    Replay.LiveSnoc(c, rs, r);
    Replay.KeepAbove(c, m.preRoll, r, t);
    Replay.VoicedEndBy(rs);
    FeedClimbs(c.chunkSamples, Replay.Since(c, rs), m.held, r, t, Reach(c, rs));
    assert Replay.Since(c, rs) + [] == Replay.Since(c, rs);
  }

  lemma {:induction false} RisingAlways(c: Vad.Config, rs: seq<Record>)
    requires Vad.ValidConfig(c) && Increasing(rs, 0)
    ensures Rising(c, rs)
  {
    if rs != [] {
      hide Rising, Replay.Live;
      var init, r := rs[..|rs|-1], rs[|rs|-1];
      assert rs == init + [r];
      RisingAlways(c, init);
      if Vad.Ends(c, Replay.Live(c, init), r) {
        RisingClose(c, init, r);
      } else if Vad.Onset(c, Replay.Live(c, init), r) {
        RisingOnset(c, init, r);
      } else {
        RisingOn(c, init, r);
      }
    } else {
      Replay.LiveFresh(c);
    }
  }

  /** All ended utterances' versions are in order, and none is past Top. */
  lemma {:induction false} EndedInOrder(c: Vad.Config, rs: seq<Record>)
    requires Vad.ValidConfig(c) && Increasing(rs, 0)
    ensures InOrder(Replay.Uttered(c, rs)) && Highest(Replay.Uttered(c, rs)) <= Top(c, rs)
  {
    if rs != [] {
      hide Replay.Live, InOrder, Highest;
      var init, r := rs[..|rs|-1], rs[|rs|-1];
      assert rs == init + [r];
      EndedInOrder(c, init);
      if Vad.Ends(c, Replay.Live(c, init), r) {
        OneMoreInOrder(c, init, r);
      } else {
        assert Replay.Uttered(c, init) + [] == Replay.Uttered(c, init);
      }
    } else {
      NoneInOrder();
    }
  }

  lemma NoneInOrder()
    ensures InOrder([]) && Highest([]) == 0
  {
  }

  lemma OneMoreInOrder(c: Vad.Config, rs: seq<Record>, e: Record)
    requires Vad.ValidConfig(c) && Increasing(rs + [e], 0) && Vad.Ends(c, Replay.Live(c, rs), e)
    requires InOrder(Replay.Uttered(c, rs)) && Highest(Replay.Uttered(c, rs)) <= Top(c, rs)
    ensures InOrder(Replay.Uttered(c, rs + [e])) && Highest(Replay.Uttered(c, rs + [e])) <= Top(c, rs + [e])
  {
    hide Replay.Live, Climbs;
    var us, out := Replay.Uttered(c, rs), Replay.Dispatched(c, rs);
    assert (rs + [e])[..|rs|] == rs;
    ClosesQuiet(c, Replay.Live(c, rs), e);
    assert Replay.Since(c, rs) + [] == Replay.Since(c, rs);
    var u := Replay.Utterance(Replay.Since(c, rs), ForceCut(Replay.Live(c, rs).held));
    assert Replay.Uttered(c, rs + [e]) == us + [u];
    assert (us + [u])[..|us|] == us;
    OpenClimbs(c, rs, Highest(us));
    ClimbsFine(out, Highest(us));
  }

  /** What is open climbs from the last ended utterance. */
  lemma OpenClimbs(c: Vad.Config, rs: seq<Record>, highest: nat)
    requires Vad.ValidConfig(c) && Increasing(rs, 0) && highest <= Top(c, rs)
    ensures Climbs(Replay.Dispatched(c, rs), highest) && Top(c, rs) <= Reach(c, rs)
    ensures LastEnd(Replay.Dispatched(c, rs), Top(c, rs)) <= Reach(c, rs)
  {
    hide Replay.Live, Replay.Since, Climbs;
    RisingAlways(c, rs);
    ClimbsForced(Replay.Since(c, rs), Replay.Live(c, rs).held, Top(c, rs), Reach(c, rs));
    ClimbsFrom(Replay.Dispatched(c, rs), Top(c, rs), highest);
  }

  // ---- either pipeline ----

  lemma PlainClimbs(limit: nat, log: seq<Record>)
    requires Increasing(log, 0)
    ensures Climbs(Audio.Recut(limit, log) + ForceCut(Audio.Held(limit, log)), 0)
  {
    forall i, j | 0 <= i <= j < |log| ensures 0 < log[i].seqNo <= log[j].seqNo <= LastSeq(log, 0) {
      IncreasingPairs(log, 0, i, j);
    }
    CutClimbs(limit, [], NoPending, log, 0, 0, LastSeq(log, 0));
    assert [] + Audio.Recut(limit, log) == Audio.Recut(limit, log);
    ClimbsForced(Audio.Recut(limit, log), Audio.Held(limit, log), 0, if log == [] then 0 else log[|log|-1].seqNo);
  }

  /** At every moment of a session with frames in order its chunk stream keeps to new
      versions, utterance after utterance. */
  lemma StreamInOrder(p: Pipeline, log: seq<Record>)
    requires Legal(p) && Increasing(log, 0)
    ensures InOrder(AllUttered(p, log))
  {
    hide Climbs, Replay.Live, Replay.Since;
    var all := AllUttered(p, log);
    var ended, open := UtteredOf(p, log), all[|all|-1];
    assert all[..|all|-1] == ended;
    match p
    case Passthrough(plain) =>
      NoneInOrder();
      PlainClimbs(plain.live.chunkSamples, log);
      ClimbsFine(open.chunks + open.tail, 0);
    case Gated(vad) =>
      EndedInOrder(vad.config, log);
      OpenClimbs(vad.config, log, Highest(ended));
      ClimbsFine(open.chunks + open.tail, Highest(ended));
  }

  // ---- served through the tier ----

  /** What a session is told of one utterance. */
  datatype Answers = Answers(partials: seq<string>, final: string)

  /** What a pinned worker would answer push by push, with no failure anywhere. */
  function Partials<S>(a: Adapter<S>, ps: seq<Piece>): (r: seq<string>)
    ensures |r| == |ps|
  {
    if ps == [] then []
    else Partials(a, ps[..|ps|-1]) + [PushAll(a, FreshRec(a), ps).lastText]
  }

  function AnswersOf<S>(a: Adapter<S>, u: Utterance): Answers {
    var ps := u.chunks + u.tail;
    Answers(Partials(a, ps), a.finalize(a.infer(PushAll(a, FreshRec(a), ps).state, [])))
  }

  function AllAnswers<S>(a: Adapter<S>, us: seq<Utterance>): (r: seq<Answers>)
    ensures |r| == |us|
  {
    if us == [] then [] else AllAnswers(a, us[..|us|-1]) + [AnswersOf(a, us[|us|-1])]
  }

  /** A worker's record, as the stateless protocol sees it. */
  function LocalOf<S>(rec: Rec<S>): Local<S> { Local(rec.state, rec.lastSeq, rec.lastText) }

  lemma ServesAsPinned<S>(a: Adapter<S>, rec: Rec<S>, p: Piece, text: string)
    requires Right(a, LocalOf(rec), Pushed(p.seqEnd, p.bytes, text))
    ensures Serve(a, LocalOf(rec), Pushed(p.seqEnd, p.bytes, text)) == LocalOf(PushOne(a, rec, p))
    ensures text == PushOne(a, rec, p).lastText
  {
  }

  lemma {:induction false} FineUpTo(m: Mark, ps: seq<Piece>, i: nat)
    requires AllFine(m, ps) && i <= |ps|
    ensures AllFine(m, ps[..i])
    ensures i < |ps| ==> Fine(Through(m, ps[..i]), ps[i].seqEnd)
    decreases |ps|
  {
    if i == |ps| {
      assert ps[..i] == ps;
    } else if i < |ps| - 1 {
      FineUpTo(m, ps[..|ps|-1], i);
      assert ps[..|ps|-1][..i] == ps[..i];
    }
  }

  lemma {:induction false} InOrderUpTo(us: seq<Utterance>, i: nat)
    requires InOrder(us) && i < |us|
    ensures AllFine(Mark(0, Highest(us[..i])), us[i].chunks + us[i].tail)
    decreases |us|
  {
    if i < |us| - 1 {
      InOrderUpTo(us[..|us|-1], i);
      assert us[..|us|-1][..i] == us[..i];
    }
  }

  lemma PartialsUpTo<S>(a: Adapter<S>, ps: seq<Piece>, i: nat)
    requires i < |ps|
    ensures Partials(a, ps[..i+1]) == Partials(a, ps[..i]) + [PushAll(a, FreshRec(a), ps[..i+1]).lastText]
    ensures PushAll(a, FreshRec(a), ps[..i+1]) == PushOne(a, PushAll(a, FreshRec(a), ps[..i]), ps[i])
  {
    assert ps[..i+1][..i] == ps[..i];
  }

  lemma {:induction false} PartialsFrom<S>(a: Adapter<S>, ps: seq<Piece>, i: nat)
    requires i <= |ps|
    ensures Partials(a, ps[..i]) <= Partials(a, ps)
    decreases |ps|
  {
    if i == |ps| {
      assert ps[..i] == ps;
    } else {
      PartialsFrom(a, ps[..|ps|-1], i);
      assert ps[..|ps|-1][..i] == ps[..i];
    }
  }

  /** One utterance: a push for each chunk, then the flush; an error breaks it off. */
  method StreamUtterance<S(!new)>(client: StatelessClient<S>, u: Utterance)
    returns (partials: seq<string>, final: Option<string>)
    requires client.Valid() && client.View() == Local(client.fleet.a.initial, 0, "")
    requires AllFine(client.Marked(), u.chunks + u.tail)
    modifies client, client.fleet
    ensures client.Valid()
    ensures partials <= AnswersOf(client.fleet.a, u).partials
    ensures final.Some? ==> Answers(partials, final.value) == AnswersOf(client.fleet.a, u)
    ensures final.Some? ==> client.Marked() == Through(old(client.Marked()), u.chunks + u.tail)
  {
    var ps, i := u.chunks + u.tail, 0;
    ghost var a, m := client.fleet.a, client.Marked();
    partials := [];
    while i < |ps|
      invariant i <= |ps| && client.Valid() && partials == Partials(a, ps[..i])
      invariant client.View() == LocalOf(PushAll(a, FreshRec(a), ps[..i])) && client.Marked() == Through(m, ps[..i])
    {
      hide Inv, Served, PushAll, Partials, Through, Serve, Right, MayWrite, PushOne;
      FineUpTo(m, ps, i);
      PartialsUpTo(a, ps, i);
      ThroughUpTo(m, ps, i);
      ghost var rec := PushAll(a, FreshRec(a), ps[..i]);
      var text := client.Push(ps[i].seqEnd, ps[i].bytes);
      if text.None? {
        assert AnswersOf(a, u).partials == Partials(a, ps);
        PartialsFrom(a, ps, i);
        return partials, None;
      }
      ServesAsPinned(a, rec, ps[i], text.value);
      partials, i := partials + [text.value], i + 1;
    }
    assert ps[..i] == ps;
    hide Inv, Served, PushAll, Partials, Through;
    final := client.Flush();
  }

  lemma ThroughUpTo(m: Mark, ps: seq<Piece>, i: nat)
    requires i < |ps|
    ensures Through(m, ps[..i+1]) == Named(Through(m, ps[..i]), ps[i].seqEnd)
  {
    assert ps[..i+1][..i] == ps[..i];
  }

  lemma SessionUpTo<S>(a: Adapter<S>, us: seq<Utterance>, i: nat)
    requires i < |us|
    ensures Highest(us[..i+1]) == Through(Mark(0, Highest(us[..i])), us[i].chunks + us[i].tail).highest
    ensures AllAnswers(a, us[..i+1]) == AllAnswers(a, us[..i]) + [AnswersOf(a, us[i])]
  {
    assert us[..i+1][..i] == us[..i];
  }

  lemma {:induction false} AnswersUpTo<S>(a: Adapter<S>, us: seq<Utterance>, i: nat)
    requires i <= |us|
    ensures AllAnswers(a, us[..i]) <= AllAnswers(a, us)
    decreases |us|
  {
    if i == |us| {
      assert us[..i] == us;
    } else {
      AnswersUpTo(a, us[..|us|-1], i);
      assert us[..|us|-1][..i] == us[..i];
    }
  }

  /** A session through the tier, with its frames in order and a client of its own, is
      told what a pinned worker would have told it, however its calls are placed. An
      error ends it in one of its utterances; what it was told until then is right too. */
  method StreamSession<S(!new)>(client: StatelessClient<S>, p: Pipeline, log: seq<Record>)
    returns (answers: seq<Answers>, rest: seq<string>, whole: bool)
    requires client.Valid() && client.View() == Local(client.fleet.a.initial, 0, "")
    requires client.Marked() == Mark(0, 0) && Legal(p) && Increasing(log, 0)
    modifies client, client.fleet
    ensures client.Valid()
    ensures answers <= AllAnswers(client.fleet.a, AllUttered(p, log))
    ensures whole ==> answers == AllAnswers(client.fleet.a, AllUttered(p, log))
    ensures !whole ==> |answers| < |AllUttered(p, log)|
    ensures !whole ==> rest <= AnswersOf(client.fleet.a, AllUttered(p, log)[|answers|]).partials
  {
    hide Inv, Served, InOrder, AllFine, Through, Highest, AllAnswers, AllUttered;
    var us, i := AllUttered(p, log), 0;
    ghost var a := client.fleet.a;
    StreamInOrder(p, log);
    NoAnswers(a, us);
    answers, rest, whole := [], [], true;
    while i < |us| && whole
      invariant |answers| <= i <= |us| && client.Valid()
      invariant if whole then |answers| == i else |answers| < i
      invariant whole ==> client.Marked().highest == Highest(us[..i])
      invariant i == 0 ==> client.View() == Local(a.initial, 0, "") && client.Marked().applied == 0
      invariant answers == AllAnswers(a, us[..|answers|])
      invariant !whole ==> rest <= AnswersOf(a, us[|answers|]).partials
    {
      if i > 0 {
        client.Close();
        client.Open();
      }
      InOrderUpTo(us, i);
      SessionUpTo(a, us, i);
      var partials, final := StreamUtterance(client, us[i]);
      if final.Some? {
        answers := answers + [Answers(partials, final.value)];
      } else {
        rest, whole := partials, false;
      }
      i := i + 1;
    }
    AnswersUpTo(a, us, |answers|);
    assert us[..|us|] == us;
  }

  lemma NoAnswers<S>(a: Adapter<S>, us: seq<Utterance>)
    ensures AllAnswers(a, us[..0]) == [] && Highest(us[..0]) == 0
  {
  }

  // ---- why it matters ----

  /** Were a version used again, what a later push builds on would depend on where it
      is placed: on the worker of the second push it is that push's state, where no
      copy is kept it is the first one's. The two agree exactly when the states do. */
  lemma ReuseIff<S(!new)>(a: Adapter<S>, s: Sys<S>, id: nat, first: S, here: nat, there: nat)
    requires RoundTrips(a) && id in s.attempts && s.attempts[id].phase.Inferred? && s.attempts[id].request.sink.Some?
    requires s.attempts[id].request.sink.value in s.tier
    requires s.tier[s.attempts[id].request.sink.value] == a.serialize(first)
    requires Awaits(s, here, s.attempts[id].request.sink) && Awaits(s, there, s.attempts[id].request.sink)
    requires here != id && there != id
    requires s.attempts[here].worker == s.attempts[id].worker && s.attempts[there].worker != s.attempts[id].worker
    requires Place(s.attempts[there].worker, s.attempts[id].request.sink.value) !in s.hot
    ensures var kept := Stateless.Next(a, Stateless.Next(a, s, Publish(id)), KeepHot(id));
            var h, t := Stateless.Next(a, kept, Load(here)), Stateless.Next(a, kept, Load(there));
            && here in h.attempts && h.attempts[here].phase == Loaded(s.attempts[id].phase.state)
            && there in t.attempts && t.attempts[there].phase == Loaded(first)
            && (h.attempts[here].phase == t.attempts[there].phase <==> first == s.attempts[id].phase.state)
  {
    var kept := Stateless.Next(a, Stateless.Next(a, s, Publish(id)), KeepHot(id));
    assert a.deserialize(a.serialize(first)) == Some(first);
    assert kept.attempts[here] == s.attempts[here] && kept.attempts[there] == s.attempts[there];
  }

  /** A push that builds on this version and has not started. */
  predicate Awaits<S>(s: Sys<S>, id: nat, ref: Option<Ref>) {
    id in s.attempts && s.attempts[id].phase.Waiting? && s.attempts[id].request.ref == ref
  }
}

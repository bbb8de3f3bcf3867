/** One session of the gateway: cmd/gateway/conn.go, over workers that may fail
    at any call. */
module Gateway {
  import opened Wrappers
  import opened Audio
  import opened Adapters
  import opened Backend
  import opened Checkpoint
  import opened History
  import opened Journal
  import opened Pipelines
  import opened Session
  import opened Network
  import opened Failover
  import opened Finals
  import Router
  import Replay
  import Vad

  /** What every model behind the fleet is taken to guarantee: states survive
      transport, and a corrupted blob is refused. */
  ghost predicate Trustworthy<S(!new)>(model: string -> Adapter<S>) {
    forall key ::
      && RoundTrips(model(key))
      && forall st: S :: model(key).deserialize(Flip(model(key).serialize(st))) == None
  }

  /** If the session's record is still there, it is a fresh one with the chunks in
      served pushed onto it, and the session knows its generation. */
  ghost predicate Recorded<S(!new)>(model: string -> Adapter<S>, records: map<Addr, Rec<S>>, x: Addr, key: string,
                                    generation: nat, served: seq<Piece>)
  {
    x in records ==>
      Same(records[x], PushAll(model(key), FreshRec(model(key)), served)) && records[x].generation == generation
  }

  /** A checkpoint that can be read back is a fresh record with the chunks in
      saved pushed onto it. */
  ghost predicate SavedFor<S(!new)>(model: string -> Adapter<S>, cp: Option<CacheCheckpoint>, saved: seq<Piece>) {
    cp.Some? && model(cp.value.key).deserialize(cp.value.blob).Some? ==>
      var rec := PushAll(model(cp.value.key), FreshRec(model(cp.value.key)), saved);
      model(cp.value.key).deserialize(cp.value.blob).value == rec.state && cp.value.seqNo == rec.lastSeq
  }

  /** Chunks a recovery leaves the session with. */
  function Regained<S>(src: Source<S>, saved: seq<Piece>, restored: bool): seq<Piece> {
    if restored then saved + RecutOf(src.pipeline, After(src.retained, MaxEnd(saved)))
    else RecutOf(src.pipeline, src.committed)
  }

  /** The checkpoint, if there is one, comes to some of the chunks cut so far. */
  ghost predicate SavedPrefix(cp: Option<CacheCheckpoint>, saved: seq<Piece>, cut: seq<Piece>) {
    cp.Some? ==> exists n: nat :: 0 < n <= |cut| && Alike(saved, cut[..n])
  }

  lemma RegainedExact<S(!new)>(src: Source<S>, saved: seq<Piece>, restored: bool, cut: seq<Piece>)
    requires Reproduces(src.pipeline, src.committed, src.retained, cut, restored)
    requires restored ==> src.cp.Some? && SavedPrefix(src.cp, saved, cut)
    ensures Alike(Regained(src, saved, restored), cut)
  {
    hide Alike, RecutOf, After, MaxEnd;
    if restored {
      var n: nat :| 0 < n <= |cut| && Alike(saved, cut[..n]);
      AlikeEnd(saved, cut[..n]);
      AlikeConcat(saved, cut[..n], RecutOf(src.pipeline, After(src.retained, MaxEnd(saved))));
      AlikeTrans(saved + RecutOf(src.pipeline, After(src.retained, MaxEnd(saved))),
                 cut[..n] + RecutOf(src.pipeline, After(src.retained, MaxEnd(saved))), cut);
    }
  }

  /** How far the record has got with the chunks cut so far: the first k of them,
      or, once a recovery has replayed the journal, all of them. */
  ghost predicate Progress(served: seq<Piece>, saved: seq<Piece>, cp: Option<CacheCheckpoint>, cut: seq<Piece>,
                           k: nat) {
    k <= |cut| && (Alike(served, cut[..k]) || Alike(served, cut)) && SavedPrefix(cp, saved, cut)
  }

  /** The next chunk extends the record, or is absorbed by one that has it already. */
  lemma PushProgress(served: seq<Piece>, saved: seq<Piece>, cp: Option<CacheCheckpoint>, cut: seq<Piece>, k: nat,
                     saved': seq<Piece>, cp': Option<CacheCheckpoint>)
    requires Progress(served, saved, cp, cut, k) && k < |cut|
    requires (saved' == saved && cp' == cp) || saved' == served + [cut[k]]
    ensures Progress(served + [cut[k]], saved', cp', cut, k + 1)
  {
    hide Alike;
    assert cut[..k+1] == cut[..k] + [cut[k]];
    assert cut[..|cut|] == cut;
    if Alike(served, cut[..k]) {
      AlikeSnoc(served, cut[..k], cut[k]);
    } else {
      AlikeAgain(served, cut, k);
    }
    var all := |cut|;
    assert SavedPrefix(cp', saved', cut) by {
      if saved' == served + [cut[k]] && !Alike(saved', cut[..k+1]) {
        assert Alike(saved', cut[..all]);
      }
    }
  }

  lemma RegainedProgress<S(!new)>(src: Source<S>, served: seq<Piece>, saved: seq<Piece>, cut: seq<Piece>, k: nat,
                                  restored: bool)
    requires Progress(served, saved, src.cp, cut, k) && k < |cut|
    requires Reproduces(src.pipeline, src.committed, src.retained, cut, restored)
    requires restored ==> src.cp.Some?
    ensures Progress(Regained(src, saved, restored), saved, src.cp, cut, k + 1)
  {
    hide Alike;
    RegainedExact(src, saved, restored, cut);
  }

  /** What every stretch of a session's life keeps, however it ends: the client's
      log only grows and stays well formed, the bind has moved with the session,
      and the failover counters grow and balance. */
  ghost predicate Onward(before: State, after: State, log: seq<Event>, log': seq<Event>,
                         binds: seq<int>, binds': seq<int>, ids: seq<string>, n: Counts, n': Counts)
    requires |binds| == |ids|
  {
    && after.sessionId == before.sessionId && after.mode == before.mode
    && log <= log' && WellFormed(log')
    && binds' == Router.TransferBind(binds, ids, after.workerId, before.workerId)
    && Grown(n, n') && (Balanced(n) ==> Balanced(n'))
  }

  lemma OnwardNone(st: State, log: seq<Event>, binds: seq<int>, ids: seq<string>, n: Counts)
    requires |binds| == |ids| && WellFormed(log)
    ensures Onward(st, st, log, log, binds, binds, ids, n, n)
  {
    Router.TransferToItself(binds, ids, st.workerId);
  }

  lemma OnwardTold(s: State, s': State, log: seq<Event>, log': seq<Event>, binds: seq<int>, ids: seq<string>, n: Counts)
    requires |binds| == |ids| && s'.sessionId == s.sessionId && s'.mode == s.mode
    requires s'.workerId == s.workerId && log <= log' && WellFormed(log')
    ensures Onward(s, s', log, log', binds, binds, ids, n, n)
  {
    Router.TransferToItself(binds, ids, s.workerId);
  }

  /** More chunks have been cut; the record is as far along as it was. */
  lemma CutMore(served: seq<Piece>, saved: seq<Piece>, cp: Option<CacheCheckpoint>, cut: seq<Piece>, more: seq<Piece>)
    requires Progress(served, saved, cp, cut, |cut|)
    ensures Progress(served, saved, cp, cut + more, |cut|)
  {
    hide Alike;
    assert (cut + more)[..|cut|] == cut && cut[..|cut|] == cut;
    if cp.Some? {
      var n: nat :| 0 < n <= |cut| && Alike(saved, cut[..n]);
      assert (cut + more)[..n] == cut[..n];
    }
  }

  lemma WholeProgress(served: seq<Piece>, saved: seq<Piece>, cp: Option<CacheCheckpoint>, cut: seq<Piece>)
    requires Progress(served, saved, cp, cut, |cut|)
    ensures Alike(served, cut) && SavedPrefix(cp, saved, cut)
  {
    hide Alike;
    assert cut[..|cut|] == cut;
  }

  function Maybe(p: Option<Piece>): seq<Piece> {
    match p
    case None => []
    case Some(q) => [q]
  }

  lemma MaybeNone(cut: seq<Piece>)
    ensures cut + Maybe(None) == cut
  {
  }

  lemma TailOne(c: Cutter)
    ensures |Tail(c)| <= 1
  {
  }

  lemma OnwardTwice(s0: State, s1: State, s2: State, l0: seq<Event>, l1: seq<Event>, l2: seq<Event>,
                    b0: seq<int>, b1: seq<int>, b2: seq<int>, ids: seq<string>, n0: Counts, n1: Counts, n2: Counts)
    requires |b0| == |b1| == |ids|
    requires Onward(s0, s1, l0, l1, b0, b1, ids, n0, n1) && Onward(s1, s2, l1, l2, b1, b2, ids, n1, n2)
    ensures Onward(s0, s2, l0, l2, b0, b2, ids, n0, n2)
  {
    Router.TransferTwice(b0, ids, s0.workerId, s1.workerId, s2.workerId);
  }

  /** Telling the client more is going on. */
  lemma OnwardMore(s0: State, s1: State, s2: State, l0: seq<Event>, l1: seq<Event>, l2: seq<Event>,
                   b0: seq<int>, b1: seq<int>, ids: seq<string>, n0: Counts, n1: Counts)
    requires |b0| == |b1| == |ids| && Onward(s0, s1, l0, l1, b0, b1, ids, n0, n1)
    requires s2.sessionId == s1.sessionId && s2.mode == s1.mode
    requires s2.workerId == s1.workerId && l1 <= l2 && WellFormed(l2)
    ensures Onward(s0, s2, l0, l2, b0, b1, ids, n0, n1)
  {
    OnwardTold(s1, s2, l1, l2, b1, ids, n1);
    OnwardTwice(s0, s1, s2, l0, l1, l2, b0, b1, b1, ids, n0, n1, n1);
  }

  lemma AlikeTrans(xs: seq<Piece>, ys: seq<Piece>, zs: seq<Piece>)
    requires Alike(xs, ys) && Alike(ys, zs)
    ensures Alike(xs, zs)
  {
  }

  lemma ReplayedRecorded<S(!new)>(src: Source<S>, before: State, after: State, records: map<Addr, Rec<S>>,
                                  r: Recovered, restored: bool, saved: seq<Piece>)
    requires Replayed(src, before, after, records, r, restored) && SavedFor(src.model, src.cp, saved)
    ensures Recorded(src.model, records, At(r.client, after.handle), r.client.key, after.generation,
                     Regained(src, saved, restored))
    ensures after.workerId == r.client.id && after.key == r.client.key && after.sessionId == before.sessionId
    ensures restored ==> src.cp.Some?
    ensures Regained(src, saved, restored) != [] ==> after.lastApplied == MaxEnd(Regained(src, saved, restored))
  {
    hide PushAll, Effective, MaxEnd, Installed;
    InstalledSame(before, after, r);
    EffectivePush(src.model(r.client.key), Regained(src, saved, restored));
    var a := src.model(r.client.key);
    if restored {
      var cp := src.cp.value;
      var tail := RecutOf(src.pipeline, After(src.retained, cp.seqNo));
      EffectivePush(a, saved);
      PushSame(a, Rec(0, cp.seqNo, "", a.deserialize(cp.blob).value), PushAll(a, FreshRec(a), saved), tail);
      PushConcat(a, FreshRec(a), saved, tail);
      if tail == [] {
        assert saved + tail == saved;
      }
    }
  }

  /** A served push extends what the record stands for by its chunk. */
  lemma PushedRecorded<S(!new)>(a: Adapter<S>, rec: Rec<S>, served: seq<Piece>, p: Piece)
    requires Same(rec, PushAll(a, FreshRec(a), served))
    ensures PushAnswer(a, rec, p.seqEnd, rec.generation, p.bytes).Applied?
    ensures AfterPush(a, rec, p.seqEnd, rec.generation, p.bytes).lastSeq == MaxEnd(served + [p])
    ensures var rec' := AfterPush(a, rec, p.seqEnd, rec.generation, p.bytes);
            && Same(rec', PushAll(a, FreshRec(a), served + [p]))
            && PushAnswer(a, rec, p.seqEnd, rec.generation, p.bytes)
               == Applied(rec'.lastText, rec'.lastSeq, rec'.generation)
  {
    OwnPush(a, rec, p);
    EffectivePush(a, served + [p]);
    PushSnoc(a, FreshRec(a), served, p);
    PushSame(a, rec, PushAll(a, FreshRec(a), served), [p]);
    assert [p][..0] == [];
    assert PushAll(a, rec, [p]) == PushOne(a, rec, p);
  }

  lemma RecordedFrame<S(!new)>(model: string -> Adapter<S>, before: map<Addr, Rec<S>>, after: map<Addr, Rec<S>>,
                               x: Addr, key: string, generation: nat, served: seq<Piece>)
    requires Recorded(model, before, x, key, generation, served) && Survives(before, after, {})
    ensures Recorded(model, after, x, key, generation, served)
  {
  }

  /** The reset a recovery owes the client fits what the client has seen. */
  lemma ResetTracks(log: seq<Event>, before: State, after: State, r: Recovered)
    requires Tracks(log, before) && !before.finalized && Installed(before, after, r)
    ensures Tracks(log + [r.reset], after) && !after.finalized
  {
    TracksEmit(before, r.reset);
    TracksFields(log + [r.reset], Emitted(before, r.reset), after);
  }

  lemma TracksFields(log: seq<Event>, s: State, s': State)
    requires s'.utterance == s.utterance && s'.revision == s.revision
    requires s'.failoverEpoch == s.failoverEpoch && s'.finalized == s.finalized
    ensures Tracks(log, s) == Tracks(log, s')
  {
  }

  ghost predicate SameSession(before: State, after: State) {
    after.sessionId == before.sessionId && after.mode == before.mode && after.utterance == before.utterance
  }

  lemma InstalledSame(before: State, after: State, r: Recovered)
    requires Installed(before, after, r)
    ensures SameSession(before, after) && after.workerId == r.client.id && after.key == r.client.key
  {
  }

  lemma ConcludedSame<S(!new)>(src: Source<S>, before: State, after: State, records: map<Addr, Rec<S>>,
                               given: set<Addr>, given': set<Addr>, closed: set<Addr>, closed': set<Addr>,
                               r: Option<Recovered>, restored: bool)
    requires Concluded(src, before, after, records, given, given', closed, closed', r, restored)
    ensures SameSession(before, after)
  {
    hide RecutOf, PushAll;
  }

  function LatestOf(entries: map<string, CacheCheckpoint>, sessionId: string): Option<CacheCheckpoint> {
    if sessionId in entries then Some(entries[sessionId]) else None
  }

  /** The session owns one open handle, knows what is behind it and behind its
      checkpoint, and the client has been told a well-formed story. */
  ghost predicate Coherent<S(!new)>(model: string -> Adapter<S>, st: State, client: Worker, records: map<Addr, Rec<S>>,
                                    given: set<Addr>, closed: set<Addr>, cp: Option<CacheCheckpoint>,
                                    log: seq<Event>, served: seq<Piece>, saved: seq<Piece>)
  {
    && client.id == st.workerId && client.key == st.key
    && At(client, st.handle) in given && At(client, st.handle) !in closed
    && Recorded(model, records, At(client, st.handle), st.key, st.generation, served)
    && (served != [] ==> st.lastApplied == MaxEnd(served))
    && SavedFor(model, cp, saved)
    && Tracks(log, st) && !st.finalized
  }

  lemma CheckpointStands<S(!new)>(model: string -> Adapter<S>, records: map<Addr, Rec<S>>, x: Addr, st: State,
                                  served: seq<Piece>, reply: CheckpointReply, cp: CacheCheckpoint)
    requires Trustworthy(model) && x in records && Recorded(model, records, x, st.key, st.generation, served)
    requires reply.lastSeq == records[x].lastSeq
    requires reply.blob == model(st.key).serialize(records[x].state)
          || reply.blob == Flip(model(st.key).serialize(records[x].state))
    requires cp.key == st.key && cp.seqNo == reply.lastSeq && cp.blob == reply.blob
    ensures SavedFor(model, Some(cp), served)
  {
    hide PushAll, Flip;
    assert RoundTrips(model(st.key));
  }

  /** A failover that worked leaves a coherent session once the reset is sent; one
      that did not leaves the session alone. */
  lemma ConcludedCoherent<S(!new)>(src: Source<S>, before: State, after: State, records: map<Addr, Rec<S>>,
                                   given: set<Addr>, given': set<Addr>, closed: set<Addr>, closed': set<Addr>,
                                   r: Option<Recovered>, restored: bool, log: seq<Event>, saved: seq<Piece>)
    requires Concluded(src, before, after, records, given, given', closed, closed', r, restored)
    requires closed <= given && SavedFor(src.model, src.cp, saved) && Tracks(log, before) && !before.finalized
    ensures r.None? ==> after == before
    ensures r.Some? ==> Installed(before, after, r.value)
    ensures r.Some? ==> Coherent(src.model, after, r.value.client, records, given', closed', src.cp,
                                 log + [r.value.reset], Regained(src, saved, restored), saved)
    ensures r.Some? ==> WellFormed(log + [r.value.reset]) && r.value.reset.PartialReset? && (restored ==> src.cp.Some?)
  {
    hide PushAll, Tracks, SavedFor, RecutOf, After;
    if r.Some? {
      ReplayedRecorded(src, before, after, records, r.value, restored, saved);
      ResetTracks(log, before, after, r.value);
    }
  }

  /** The last chunks are ps, after k others. */
  predicate Rest(cut: seq<Piece>, k: nat, ps: seq<Piece>) {
    k + |ps| == |cut| && forall i | 0 <= i < |ps| :: ps[i] == cut[k + i]
  }

  lemma RestAt(cut: seq<Piece>, k: nat, ps: seq<Piece>, i: nat)
    requires Rest(cut, k, ps) && i < |ps|
    ensures k + i < |cut| && ps[i] == cut[k + i]
  {
  }

  lemma RestWhole(cut: seq<Piece>, k: nat, ps: seq<Piece>)
    requires Rest(cut, k, ps)
    ensures k + |ps| == |cut|
  {
  }

  /** What has been heard: the pipeline's state, and the journal. */
  datatype Tape = Tape(view: Cutter, log: seq<Record>, haveCommitted: bool, committedSeq: nat)

  /** A frame has gone through the pipeline and into the journal. */
  function Heard(t: Tape, r: Record): Tape {
    t.(view := Next(t.view, r), log := t.log + [r])
  }

  lemma TracksNextAt(log: seq<Event>, s: State, s': State)
    requires Tracks(log, s) && s.finalized && s'.utterance == s.utterance + 1
    requires s'.revision == 0 && !s'.finalized && s'.failoverEpoch == s.failoverEpoch
    ensures Tracks(log, s')
  {
  }

  lemma FreshRecorded<S(!new)>(model: string -> Adapter<S>, records: map<Addr, Rec<S>>, x: Addr, key: string)
    requires x in records && records[x] == FreshRec(model(key))
    ensures Recorded(model, records, x, key, 0, [])
  {
  }

  /** There is no number before zero to put the floor at. */
  method ChooseFloor(seqEnd: nat, start: Option<nat>) returns (floor: Option<nat>)
    ensures floor == Replay.TrimFloor(seqEnd, start)
  {
    var trimSeq, shouldTrim := seqEnd, true;
    if start.Some? {
      if start.value == 0 {
        shouldTrim := false;
      } else if start.value - 1 < trimSeq {
        trimSeq := start.value - 1;
      }
    }
    floor := if shouldTrim then Some(trimSeq) else None;
  }

  lemma NothingCut(saved: seq<Piece>)
    ensures Progress([], saved, None, [], 0)
  {
  }

  // ---- frames ----

  datatype Frame = Frame(seqNo: nat, samples: nat, voiced: bool, payload: Bytes)

  function RecordOf(p: Pipeline, f: Frame): Record {
    Record(f.seqNo, f.samples, f.voiced || p.Passthrough?, f.payload)
  }

  lemma PartsApart<S(!new)>(rec: Recovery<S>)
    ensures rec.state as object !in Parts(rec.pipeline) && rec.metrics as object !in Parts(rec.pipeline)
    ensures rec.net as object !in Parts(rec.pipeline) && rec.checkpoints as object !in Parts(rec.pipeline)
    ensures rec.router as object !in Parts(rec.pipeline) && rec.journal as object !in Parts(rec.pipeline)
    ensures rec.emitter as object !in Parts(rec.pipeline)
    ensures forall w | w in rec.router.fleet :: w as object !in Parts(rec.pipeline)
    ensures forall b | b in rec.router.budgets :: b as object !in Parts(rec.pipeline)
  {
    match rec.pipeline
    case Passthrough(plain) =>
    case Gated(vad) =>
  }

  lemma Spoke(t: Told, whole: seq<Piece>, tail: seq<Piece>, was: bool, withRestore: bool, without: bool, now: bool,
              lost: bool)
    requires Grown(t.flushing, t.ended) && (withRestore ==> without) && (lost <==> Lost(t))
    requires now == if t.ended.restores > t.flushing.restores then withRestore else without
    requires t.said != [] ==> t.applied == MaxEnd(t.said)
    requires lost ==> tail != []
    requires was && !lost ==> Alike(t.said, whole + tail)
    requires was && lost && now ==> Alike(t.said, whole)
    ensures Speaks(t, whole, tail, was, withRestore || (without && t.ended.restores == t.flushing.restores))
  {
  }

  /** The session when it was bound. */
  datatype Base = Base(state: State, binds: seq<int>, counts: Counts)

  class Connection<S(!new)> {
    const rec: Recovery<S>
    var client: Worker
    ghost const base: Base
    ghost var log: seq<Event>        // everything the client was told
    ghost var served: seq<Piece>     // what the session's record stands for
    ghost var saved: seq<Piece>      // what its checkpoint stands for
    ghost var cut: seq<Piece>        // the chunks cut since the last commit
    ghost var exact: bool            // the record comes to exactly those
    ghost var spoken: seq<Told>      // the finals told

    constructor (rec: Recovery<S>, client: Worker)
      ensures this.rec == rec && this.client == client
      ensures base == Base(rec.state.s, rec.router.Binds(), rec.metrics.n)
      ensures log == [] && served == [] && saved == [] && cut == [] && exact && spoken == []
    {
      this.rec, this.client, log, served, saved := rec, client, [], [], [];
      base := Base(rec.state.s, rec.router.Binds(), rec.metrics.n);
      cut, exact, spoken := [], true, [];
    }

    ghost predicate Live()
      reads this`client, this`log, this`served, this`saved, rec.state, rec.net, rec.checkpoints
    {
      Coherent(rec.net.model, rec.state.s, client, rec.net.records, rec.net.given, rec.net.closed,
               LatestOf(rec.checkpoints.entries, rec.state.s.sessionId), log, served, saved)
    }

    /** trySend: the client may be gone, which ends the session. */
    method Send(e: Event) returns (ok: bool)
      modifies this`log
      ensures log == if ok then old(log) + [e] else old(log)
      ensures FinalsIn(log) == FinalsIn(old(log)) + if ok && e.Final? then 1 else 0
    {
      ok := *;
      if ok {
        EventSnoc(log, e);
        log := log + [e];
      }
    }

    /** The objects the session works with are in order. */
    ghost predicate Ready()
      reads rec.net, rec.journal, rec.journal.records, rec.router, rec.router.budgets
    {
      && rec.net.Valid() && rec.journal.Valid() && rec.router.Valid()
      && rec.emitter.state == rec.state && Trustworthy(rec.net.model)
    }

    /** asyncCheckpoint, taken as one step: it may fail, and that is no harm. */
    method TakeCheckpoint()
      requires rec.net.Valid() && Trustworthy(rec.net.model) && Live()
      modifies rec.net`records, rec.checkpoints, this`saved
      ensures rec.net.Valid() && Live()
      ensures (saved == old(saved) && rec.checkpoints.entries == old(rec.checkpoints.entries)) || saved == served
    {
      hide PushAll, Tracks, SavedFor, Trustworthy;
      var st := rec.state.s;
      ghost var before := rec.net.records;
      var reply := rec.net.TakeCheckpoint(client, st.handle);
      RecordedFrame(rec.net.model, before, rec.net.records, At(client, st.handle), st.key, st.generation, served);
      if reply.Some? {
        hide Recorded;
        rec.checkpoints.Store(st.sessionId, st.key, reply.value);
        saved := served;
        CheckpointStands(rec.net.model, rec.net.records, At(client, st.handle), st, served, reply.value,
                         rec.checkpoints.entries[st.sessionId]);
      }
    }

    /** The counters of an answered push. */
    method Credit(reply: PushReply)
      requires reply.Applied?
      modifies rec.state
      ensures rec.state.s == old(rec.state.s).(generation := reply.generation, lastApplied := reply.lastSeq)
    {
      rec.state.s := rec.state.s.(generation := reply.generation, lastApplied := reply.lastSeq);
    }

    /** Tell the client the current text. */
    method SendPartial(text: string) returns (ok: bool)
      requires Live() && rec.emitter.state == rec.state
      modifies this`log, rec.state
      ensures ok ==> Live()
      ensures WellFormed(log) && old(log) <= log && FinalsIn(log) == FinalsIn(old(log))
      ensures SameSession(old(rec.state.s), rec.state.s) && rec.state.s.workerId == old(rec.state.s.workerId)
      ensures rec.state.s.handle == old(rec.state.s.handle) && rec.state.s.lastApplied == old(rec.state.s.lastApplied)
    {
      hide Recorded, SavedFor, WellFormed, FinalsIn;
      ghost var before, told := rec.state.s, log;
      var e := rec.emitter.Partial(text);
      ok := Send(e);
      TracksWell(log, told, before, rec.state.s);
    }

    /** What is left of Live when the backend's answer is not known. */
    ghost predicate Orphaned()
      reads this`log, this`saved, rec.state, rec.checkpoints
    {
      && Tracks(log, rec.state.s) && !rec.state.s.finalized
      && SavedFor(rec.net.model, LatestOf(rec.checkpoints.entries, rec.state.s.sessionId), saved)
    }

    /** One chunk to the session's record. A stale generation cannot happen; any
        other refusal leaves the session's own view as it was. */
    method PushChunk(p: Piece) returns (reply: PushReply)
      requires Ready() && Live()
      modifies rec.state, rec.net`records, this`served
      ensures Ready() && !reply.Stale?
      ensures reply.Applied? ==> Live() && served == old(served) + [p]
      ensures reply.Applied? ==>
                rec.state.s == old(rec.state.s).(generation := reply.generation, lastApplied := reply.lastSeq)
      ensures !reply.Applied? ==> rec.state.s == old(rec.state.s) && served == old(served) && Orphaned()
    {
      hide PushAll, Tracks, SavedFor, PushAnswer, AfterPush;
      var st := rec.state.s;
      ghost var x, before, told := At(client, st.handle), rec.net.records, log;
      reply := rec.net.Push(client, st.handle, p.seqEnd, st.generation, p.bytes);
      if x in before {
        PushedRecorded(rec.net.model(st.key), before[x], served, p);
      }
      if reply.Applied? {
        Credit(reply);
        served := served + [p];
        TracksFields(log, st, rec.state.s);
      }
    }

    /** What a recovery would read now. */
    ghost function Src(): Source<S>
      reads rec.journal, rec.journal.records, rec.checkpoints, rec.state
    {
      Source(rec.state.s.sessionId, rec.net.model, rec.pipeline, rec.journal.FromCommitted(), rec.journal.Retained(),
             LatestOf(rec.checkpoints.entries, rec.state.s.sessionId))
    }

    /** The failover itself: the session moves to the replacement's client. */
    method FailOver(ghost src: Source<S>) returns (r: Option<Recovered>, ghost restored: bool)
      requires Ready() && !rec.state.s.finalized && src == Src()
      modifies this`client, rec.state, rec.metrics, rec.net, rec.router.fleet, rec.router.budgets
      ensures Ready() && (r.Some? ==> client == r.value.client && client in rec.router.workers)
      ensures SameSession(old(rec.state.s), rec.state.s)
      ensures Concluded(src, old(rec.state.s), rec.state.s, rec.net.records, old(rec.net.given), rec.net.given,
                        old(rec.net.closed), rec.net.closed, r, restored)
      ensures rec.router.Binds() == Router.TransferBind(old(rec.router.Binds()), Router.Ids(rec.router.workers),
                                                        rec.state.s.workerId, old(rec.state.s.workerId))
      ensures Tallied(old(rec.metrics.n), rec.metrics.n, r.Some?, restored, r.None?)
    {
      CanRecover();
      ghost var tried;
      ghost var before, given, closed := rec.state.s, rec.net.given, rec.net.closed;
      r, tried, restored := rec.HandleBackendFailure(src);
      ConcludedSame(src, before, rec.state.s, rec.net.records, given, rec.net.given, closed, rec.net.closed, r,
                    restored);
      if r.Some? {
        client := r.value.client;
      }
    }

    /** Fail over, and tell the client what happened. The chunk that failed is not
        pushed again: the replay covers it. */
    method Recover() returns (ok: bool, ghost recovered: bool, ghost restored: bool)
      requires Ready() && Orphaned()
      modifies this`client, this`log, this`served, rec.state, rec.metrics, rec.net, rec.router.fleet, rec.router.budgets
      ensures Ready() && WellFormed(log) && old(log) <= log && FinalsIn(log) == FinalsIn(old(log))
      ensures ok ==> Live() && served == Regained(old(Src()), saved, restored)
      ensures ok ==> client in rec.router.workers && (restored ==> old(Src()).cp.Some?)
      ensures SameSession(old(rec.state.s), rec.state.s)
      ensures rec.router.Binds() == Router.TransferBind(old(rec.router.Binds()), Router.Ids(rec.router.workers),
                                                        rec.state.s.workerId, old(rec.state.s.workerId))
      ensures Tallied(old(rec.metrics.n), rec.metrics.n, recovered, restored, !recovered) && (ok ==> recovered)
    {
      ghost var src, before, given, closed := Src(), rec.state.s, rec.net.given, rec.net.closed;
      CanRecover();
      OrphanedParts();
      hide Orphaned, FinalsIn, Concluded, Coherent, Tracks, SavedFor, Tallied, Regained, WellFormed,
           Router.TransferBind, Router.Router.Binds, Router.Router.Valid, Network.Valid, Ring.Valid, Trustworthy,
           Ready, Live;
      var r;
      r, restored := FailOver(src);
      recovered := r.Some?;
      ok := false;
      if r.Some? {
        ok := Tell(r.value, restored, src, before, given, closed);
      }
    }

    lemma OrphanedParts()
      requires Orphaned()
      ensures Tracks(log, rec.state.s) && !rec.state.s.finalized && WellFormed(log)
      ensures SavedFor(rec.net.model, LatestOf(rec.checkpoints.entries, rec.state.s.sessionId), saved)
    {
      TracksWell(log, log, rec.state.s, rec.state.s);
    }

    lemma CanRecover()
      requires Ready()
      ensures rec.net.closed <= rec.net.given && rec.emitter.state == rec.state && rec.Reads(Src())
      ensures rec.net.Valid() && rec.router.Valid() && Src().sessionId == rec.state.s.sessionId
      ensures Src().model == rec.net.model && Src().cp == LatestOf(rec.checkpoints.entries, rec.state.s.sessionId)
    {
    }

    /** The events a failover owes the client. */
    method Tell(r: Recovered, ghost restored: bool, ghost src: Source<S>, ghost before: State,
                ghost given: set<Addr>, ghost closed: set<Addr>) returns (ok: bool)
      requires Ready() && client == r.client && closed <= given
      requires Concluded(src, before, rec.state.s, rec.net.records, given, rec.net.given, closed, rec.net.closed,
                         Some(r), restored)
      requires src.model == rec.net.model && src.cp == LatestOf(rec.checkpoints.entries, before.sessionId)
      requires SavedFor(src.model, src.cp, saved) && Tracks(log, before) && !before.finalized
      modifies this`log, this`served, rec.state
      ensures Ready() && rec.router.Binds() == old(rec.router.Binds())
      ensures WellFormed(log) && old(log) <= log && FinalsIn(log) == FinalsIn(old(log))
      ensures ok ==> Live() && served == Regained(src, saved, restored) && (restored ==> src.cp.Some?)
      ensures SameSession(old(rec.state.s), rec.state.s) && rec.state.s.workerId == old(rec.state.s.workerId)
    {
      hide FinalsIn, Tracks, SavedFor, Regained, Concluded, WellFormed, Installed;
      ghost var told := log;
      TracksWell(log, log, before, before);
      ConcludedCoherent(src, before, rec.state.s, rec.net.records, given, rec.net.given, closed, rec.net.closed,
                        Some(r), restored, log, saved);
      InstalledSame(before, rec.state.s, r);
      served := Regained(src, saved, restored);
      ok := Send(r.reset);
      if ok && r.text.Some? {
        ok := SendPartial(r.text.value);
      }
    }

    /** An answered push: a sample for the router, perhaps a checkpoint, and the
        current text for the client. */
    method Acknowledge(text: string) returns (ok: bool)
      requires Ready() && Live()
      modifies this`log, this`saved, rec.state, rec.net`records, rec.checkpoints, rec.router.fleet
      ensures Ready() && (ok ==> Live()) && WellFormed(log) && old(log) <= log
      ensures FinalsIn(log) == FinalsIn(old(log))
      ensures (saved == old(saved) && rec.checkpoints.entries == old(rec.checkpoints.entries)) || saved == served
      ensures rec.router.Binds() == old(rec.router.Binds())
      ensures SameSession(old(rec.state.s), rec.state.s) && rec.state.s.workerId == old(rec.state.s.workerId)
    {
      hide FinalsIn, Coherent, WellFormed, Router.Router.Valid, Router.Router.Binds, Trustworthy;
      var took: real := *;
      rec.router.ReportNow(client.id, true, took);
      if client.serializable {
        TakeCheckpoint();
      }
      ok := SendPartial(text);
      if ok {
        ok := *;   // the ack
      }
    }

    /** The backend did not serve the chunk: a refusal for rate is told to the
        router, and then the session fails over. */
    method OnRefusal(reply: PushReply) returns (ok: bool, ghost recovered: bool, ghost restored: bool)
      requires Ready() && Orphaned()
      modifies this`client, this`log, this`served, rec.state, rec.metrics, rec.net, rec.router.fleet, rec.router.budgets
      ensures Ready() && WellFormed(log) && old(log) <= log && FinalsIn(log) == FinalsIn(old(log))
      ensures ok ==> Live() && served == Regained(old(Src()), saved, restored)
      ensures ok ==> client in rec.router.workers && (restored ==> old(Src()).cp.Some?)
      ensures SameSession(old(rec.state.s), rec.state.s)
      ensures rec.router.Binds() == Router.TransferBind(old(rec.router.Binds()), Router.Ids(rec.router.workers),
                                                        rec.state.s.workerId, old(rec.state.s.workerId))
      ensures Tallied(old(rec.metrics.n), rec.metrics.n, recovered, restored, !recovered) && (ok ==> recovered)
    {
      if reply.RateLimited? {
        rec.router.On429Now(rec.state.s.workerId, reply.retryAfter);
      }
      ok, recovered, restored := Recover();
    }

    /** Push one chunk, transparently recovering. A stale generation would end the
        session, and cannot happen. */
    method DispatchChunk(p: Piece) returns (ok: bool, ghost recovered: bool, ghost restored: bool)
      requires Ready() && Live()
      modifies this`client, this`log, this`served, this`saved
      modifies rec.state, rec.metrics, rec.net, rec.checkpoints, rec.router.fleet, rec.router.budgets
      ensures Ready() && (ok ==> Live()) && FinalsIn(log) == FinalsIn(old(log))
      ensures ok ==> served == if recovered then Regained(old(Src()), old(saved), restored) else old(served) + [p]
      ensures ok && recovered && restored ==> old(Src()).cp.Some?
      ensures ok && old(client in rec.router.workers) ==> client in rec.router.workers
      ensures (saved == old(saved) && rec.checkpoints.entries == old(rec.checkpoints.entries))
           || (!recovered && saved == served)
      ensures SameSession(old(rec.state.s), rec.state.s)
      ensures Onward(old(rec.state.s), rec.state.s, old(log), log, old(rec.router.Binds()), rec.router.Binds(),
                     Router.Ids(rec.router.workers), old(rec.metrics.n), rec.metrics.n)
      ensures if recovered then Troubles(rec.metrics.n) > Troubles(old(rec.metrics.n))
              else rec.metrics.n == old(rec.metrics.n)
      ensures ok && recovered && restored ==> rec.metrics.n.restores > old(rec.metrics.n.restores)
    {
      hide FinalsIn, Coherent, WellFormed, Regained, Router.Router.Valid, Router.Router.Binds, Router.TransferBind,
           Trustworthy, Tracks, Ready, Live, Orphaned;
      recovered, restored := false, false;
      var reply := PushChunk(p);
      if reply.Stale? {
        assert false;
        ok := false;
      } else if reply.Applied? {
        Router.TransferToItself(rec.router.Binds(), Router.Ids(rec.router.workers), rec.state.s.workerId);
        ok := Acknowledge(reply.text);
      } else {
        ok, recovered, restored := OnRefusal(reply);
        recovered := true;
      }
    }

    // ---- dispatching ----

    ghost predicate Employed()
      reads this`client, rec.router
    {
      client in rec.router.workers
    }

    /** The session has gone on from where it was bound, and every final the client was
        told is on record. */
    ghost predicate Went()
      reads this`log, this`spoken, rec.state, rec.router, rec.router.fleet, rec.metrics
    {
      && |base.binds| == |rec.router.workers| && FinalsIn(log) == |spoken|
      && Onward(base.state, rec.state.s, [], log, base.binds, rec.router.Binds(), Router.Ids(rec.router.workers),
                base.counts, rec.metrics.n)
    }

    /** All that holds when the session cannot go on. */
    ghost predicate Over()
      reads this`log, this`spoken, rec.state, rec.net, rec.journal, rec.journal.records, rec.metrics
      reads rec.router, rec.router.budgets, rec.router.fleet
    {
      Ready() && Went()
    }

    ghost predicate Progressed(k: nat)
      reads this`served, this`saved, this`cut, rec.state, rec.checkpoints
    {
      Progress(served, saved, LatestOf(rec.checkpoints.entries, rec.state.s.sessionId), cut, k)
    }

    /** What a recovery would replay, now, comes to the chunks cut. */
    ghost predicate Replayable(restored: bool)
      reads this`cut, rec.journal, rec.journal.records
    {
      Reproduces(rec.pipeline, rec.journal.FromCommitted(), rec.journal.Retained(), cut, restored)
    }

    /** The session is under way, and k of its chunks have been pushed. */
    ghost predicate Stage(k: nat)
      reads this`client, this`log, this`served, this`saved, this`cut, this`exact, this`spoken
      reads rec.state, rec.metrics, rec.net, rec.checkpoints, rec.journal, rec.journal.records
      reads rec.router, rec.router.budgets, rec.router.fleet
    {
      Over() && Live() && Employed() && (exact ==> Progressed(k))
    }

    /** Exactness has lasted since the counters were n, if nothing has failed over, or if
        replay, from a checkpoint too should one have been restored, repeats the cuts. */
    ghost predicate Sound(was: bool, n: Counts)
      reads this`exact, this`cut, rec.metrics, rec.journal, rec.journal.records
    {
      && Grown(n, rec.metrics.n)
      && (was && (Troubles(rec.metrics.n) == Troubles(n) || Replayable(rec.metrics.n.restores > n.restores)) ==> exact)
    }

    lemma GoneOn(s: State, l: seq<Event>, b: seq<int>, n: Counts)
      requires |base.binds| == |b| == |rec.router.workers| && FinalsIn(log) == |spoken|
      requires Onward(base.state, s, [], l, base.binds, b, Router.Ids(rec.router.workers), base.counts, n)
      requires Onward(s, rec.state.s, l, log, b, rec.router.Binds(), Router.Ids(rec.router.workers), n, rec.metrics.n)
      ensures Went()
    {
      OnwardTwice(base.state, s, rec.state.s, [], l, log, base.binds, b, rec.router.Binds(),
                  Router.Ids(rec.router.workers), base.counts, n, rec.metrics.n);
    }

    /** The next chunk. The record ends up with one more of them or, after a recovery
        while replay repeats the live cuts, with all. */
    method DispatchNext(p: Piece, ghost k: nat, ghost was: bool, ghost n: Counts) returns (ok: bool)
      requires Stage(k) && Sound(was, n) && k < |cut| && p == cut[k]
      modifies this`client, this`log, this`served, this`saved, this`exact
      modifies rec.state, rec.metrics, rec.net, rec.checkpoints, rec.router.fleet, rec.router.budgets
      ensures Over() && old(log) <= log && Grown(n, rec.metrics.n) && SameSession(old(rec.state.s), rec.state.s)
      ensures ok ==> Stage(k + 1) && Sound(was, n)
    {
      hide FinalsIn, Coherent, WellFormed, Regained, Router.Router.Valid, Router.Router.Binds, Router.TransferBind,
           Trustworthy, Progress, Reproduces, Onward;
      ghost var src, had, kept := Src(), served, saved;
      ghost var s1, l1, b1, n1 := rec.state.s, log, rec.router.Binds(), rec.metrics.n;
      ghost var recovered, restored;
      ok, recovered, restored := DispatchChunk(p);
      GoneOn(s1, l1, b1, n1);
      OnwardGrows(s1, rec.state.s, l1, log, b1, rec.router.Binds(), Router.Ids(rec.router.workers), n1, rec.metrics.n);
      if ok && exact {
        if !recovered {
          PushProgress(had, kept, src.cp, cut, k, saved, LatestOf(rec.checkpoints.entries, rec.state.s.sessionId));
        } else if Reproduces(src.pipeline, src.committed, src.retained, cut, restored) {
          RegainedProgress(src, had, kept, cut, k, restored);
        } else {
          exact := false;
          ReproducesLess(src.pipeline, src.committed, src.retained, cut);
        }
      }
      ReproducesLess(src.pipeline, src.committed, src.retained, cut);
    }

    /** In the loop: k of the chunks are pushed. */
    ghost predicate Sending(k: nat, was: bool, n: Counts, l0: seq<Event>, s0: State)
      reads this`client, this`log, this`served, this`saved, this`cut, this`exact, this`spoken
      reads rec.state, rec.metrics, rec.net, rec.checkpoints, rec.journal, rec.journal.records
      reads rec.router, rec.router.budgets, rec.router.fleet
    {
      Stage(k) && Sound(was, n) && l0 <= log && SameSession(s0, rec.state.s)
    }

    lemma Sent(k: nat, was: bool, n: Counts, l0: seq<Event>, s0: State)
      requires Sending(k, was, n, l0, s0)
      ensures Stage(k) && Sound(was, n) && Over() && Grown(n, rec.metrics.n) && l0 <= log
      ensures SameSession(s0, rec.state.s)
    {
    }

    /** However far it got. */
    ghost predicate Stopped(n: Counts, l0: seq<Event>, s0: State)
      reads this`log, this`spoken, rec.state, rec.net, rec.journal, rec.journal.records, rec.metrics
      reads rec.router, rec.router.budgets, rec.router.fleet
    {
      Over() && l0 <= log && Grown(n, rec.metrics.n) && SameSession(s0, rec.state.s)
    }

    method SendOne(p: Piece, ghost k: nat, ghost was: bool, ghost n: Counts, ghost l0: seq<Event>, ghost s0: State)
        returns (ok: bool)
      requires Sending(k, was, n, l0, s0) && k < |cut| && p == cut[k]
      modifies this`client, this`log, this`served, this`saved, this`exact
      modifies rec.state, rec.metrics, rec.net, rec.checkpoints, rec.router.fleet, rec.router.budgets
      ensures if ok then Sending(k + 1, was, n, l0, s0) else Stopped(n, l0, s0)
    {
      hide Stage, Sound, Over, Grown;
      ok := DispatchNext(p, k, was, n);
    }

    /** The loop over the ready chunks. Chunks left over after a recovery are pushed all
        the same, and absorbed. */
    method DispatchAll(ps: seq<Piece>, ghost k: nat, ghost was: bool, ghost n: Counts, ghost l0: seq<Event>,
                       ghost s0: State)
        returns (ok: bool)
      requires Sending(k, was, n, l0, s0) && Rest(cut, k, ps)
      modifies this`client, this`log, this`served, this`saved, this`exact
      modifies rec.state, rec.metrics, rec.net, rec.checkpoints, rec.router.fleet, rec.router.budgets
      ensures if ok then Sending(|cut|, was, n, l0, s0) else Stopped(n, l0, s0)
    {
      RestWhole(cut, k, ps);
      hide Rest, Sending, Stopped;
      ok := true;
      for i := 0 to |ps|
        invariant ok && Sending(k + i, was, n, l0, s0)
      {
        RestAt(cut, k, ps, i);
        ok := SendOne(ps[i], k + i, was, n, l0, s0);
        if !ok {
          return;
        }
      }
    }

    // ---- a frame ----

    /** The pipeline has nothing waiting to be read. */
    ghost predicate Idle()
      reads Parts(rec.pipeline)
    {
      Pipelines.Valid(rec.pipeline) && Queue(rec.pipeline) == [] && Boundaries(rec.pipeline) == []
    }

    /** Between frames. */
    ghost predicate Steady()
      reads this`client, this`log, this`served, this`saved, this`cut, this`exact, this`spoken
      reads rec.state, rec.metrics, rec.net, rec.checkpoints, rec.journal, rec.journal.records
      reads rec.router, rec.router.budgets, rec.router.fleet, Parts(rec.pipeline)
    {
      Stage(|cut|) && Idle()
    }

    ghost function Ear(): Tape
      reads rec.journal, Parts(rec.pipeline)
    {
      Tape(View(rec.pipeline), rec.journal.log, rec.journal.haveCommitted, rec.journal.committedSeq)
    }

    /** Ingest a frame, journal it whatever the detector said, and collect what the
        pipeline has to say about it. */
    method Listen(f: Frame) returns (events: seq<Vad.Event>, ready: seq<Chunk>)
      requires Idle() && rec.journal.Valid()
      modifies Parts(rec.pipeline), rec.journal, rec.journal.records
      ensures Idle() && rec.journal.Valid()
      ensures Ear() == Heard(old(Ear()), RecordOf(rec.pipeline, f))
      ensures Pieces(ready) == Emits(old(Ear().view), RecordOf(rec.pipeline, f))
      ensures events == Signals(old(Ear().view), RecordOf(rec.pipeline, f))
    {
      hide Emits, Signals, Next;
      var r := Ingest(rec.pipeline, f.seqNo, f.samples, f.voiced, f.payload);
      rec.journal.Append(r);
      events := Drain(rec.pipeline);
      ready := Pipelines.Ready(rec.pipeline);
    }

    /** Listen, as far as the session's own objects go; the chunks count as cut. */
    method Hear(f: Frame) returns (events: seq<Vad.Event>, ready: seq<Piece>)
      requires Steady()
      modifies this`cut, Parts(rec.pipeline), rec.journal, rec.journal.records
      ensures Stage(|old(cut)|) && Idle() && cut == old(cut) + ready && Rest(cut, |old(cut)|, ready)
      ensures Ear() == Heard(old(Ear()), RecordOf(rec.pipeline, f))
      ensures ready == Emits(old(Ear().view), RecordOf(rec.pipeline, f))
      ensures events == Signals(old(Ear().view), RecordOf(rec.pipeline, f))
    {
      Apart();
      hide FinalsIn, Emits, Signals, Next, Coherent, Progress, Router.Router.Valid, Network.Valid, Trustworthy,
           Pipelines.Valid, Queue, Boundaries, View, Onward, Router.Router.Binds;
      var chunks;
      events, chunks := Listen(f);
      ready := Pieces(chunks);
      if exact {
        CutMore(served, saved, LatestOf(rec.checkpoints.entries, rec.state.s.sessionId), cut, ready);
      }
      cut := cut + ready;
    }

    /** The pipeline's objects are its own. */
    lemma Apart()
      ensures this as object !in Parts(rec.pipeline) && rec.state as object !in Parts(rec.pipeline)
      ensures rec.metrics as object !in Parts(rec.pipeline) && rec.net as object !in Parts(rec.pipeline)
      ensures rec.checkpoints as object !in Parts(rec.pipeline) && rec.router as object !in Parts(rec.pipeline)
      ensures rec.journal as object !in Parts(rec.pipeline) && rec.emitter as object !in Parts(rec.pipeline)
      ensures forall w | w in rec.router.fleet :: w as object !in Parts(rec.pipeline)
      ensures forall b | b in rec.router.budgets :: b as object !in Parts(rec.pipeline)
    {
      PartsApart(rec);
      match rec.pipeline
      case Passthrough(plain) =>
      case Gated(vad) =>
    }

    method SendSpeechStart(seqNo: nat) returns (ok: bool)
      requires Live() && rec.emitter.state == rec.state
      modifies this`log, rec.state
      ensures ok ==> Live()
      ensures WellFormed(log) && old(log) <= log && FinalsIn(log) == FinalsIn(old(log))
      ensures SameSession(old(rec.state.s), rec.state.s) && rec.state.s.workerId == old(rec.state.s.workerId)
    {
      hide Recorded, SavedFor, WellFormed, FinalsIn;
      ghost var before, told := rec.state.s, log;
      var e := rec.emitter.SpeechStart(seqNo);
      ok := Send(e);
      TracksWell(log, told, before, rec.state.s);
    }

    /** Tell the client where speech starts; note whether the utterance ended. */
    method Announce(events: seq<Vad.Event>) returns (ok: bool, endpoint: bool)
      requires Live() && rec.emitter.state == rec.state
      modifies this`log, rec.state
      ensures WellFormed(log) && old(log) <= log && FinalsIn(log) == FinalsIn(old(log))
      ensures SameSession(old(rec.state.s), rec.state.s) && rec.state.s.workerId == old(rec.state.s.workerId)
      ensures ok ==> Live() && (endpoint <==> HasEndpoint(events))
    {
      LiveWell();
      ok, endpoint := true, false;
      for i := 0 to |events|
        invariant Live() && WellFormed(log) && old(log) <= log && FinalsIn(log) == FinalsIn(old(log))
        invariant SameSession(old(rec.state.s), rec.state.s) && rec.state.s.workerId == old(rec.state.s.workerId)
        invariant endpoint <==> exists j :: 0 <= j < i && events[j].Endpoint?
      {
        if events[i].SpeechStart? {
          ok := SendSpeechStart(events[i].seqNo);
          if !ok {
            return;
          }
        } else {
          endpoint := true;
        }
      }
    }

    /** Announce, as far as the whole session goes. */
    method Tally(events: seq<Vad.Event>, ghost k: nat) returns (ok: bool, endpoint: bool)
      requires Stage(k)
      modifies this`log, rec.state
      ensures Over() && old(log) <= log && SameSession(old(rec.state.s), rec.state.s)
      ensures ok ==> Stage(k) && (endpoint <==> HasEndpoint(events))
    {
      hide FinalsIn, Coherent, Progress, Router.Router.Valid, Network.Valid, Trustworthy, Onward, Router.Router.Binds,
           WellFormed;
      ghost var s1, l1 := rec.state.s, log;
      ok, endpoint := Announce(events);
      OnwardMore(base.state, s1, rec.state.s, [], l1, log, base.binds, rec.router.Binds(),
                 Router.Ids(rec.router.workers),
                 base.counts, rec.metrics.n);
    }

    /** One audio frame, up to the end of the utterance if this is it. */
    method HandleFrame(f: Frame) returns (ok: bool, endpoint: bool)
      requires Steady()
      modifies this`client, this`log, this`served, this`saved, this`cut, this`exact
      modifies rec.state, rec.metrics, rec.net, rec.checkpoints, rec.router.fleet, rec.router.budgets
      modifies Parts(rec.pipeline), rec.journal, rec.journal.records
      ensures Over() && old(log) <= log && Grown(old(rec.metrics.n), rec.metrics.n)
      ensures SameSession(old(rec.state.s), rec.state.s)
      ensures Ear() == Heard(old(Ear()), RecordOf(rec.pipeline, f))
      ensures cut == old(cut) + Emits(old(Ear().view), RecordOf(rec.pipeline, f))
      ensures ok ==> Steady() && Sound(old(exact), old(rec.metrics.n))
      ensures ok ==> (endpoint <==> Closes(old(Ear().view), RecordOf(rec.pipeline, f)))
    {
      Apart();
      ClosesSignals(Ear().view, RecordOf(rec.pipeline, f));
      hide *;
      ghost var k := |cut|;
      var events, ready := Hear(f);
      ok, endpoint := Deliver(events, ready, k);
    }

    /** What a frame leads to, once it has been heard. */
    method Deliver(events: seq<Vad.Event>, ready: seq<Piece>, ghost k: nat) returns (ok: bool, endpoint: bool)
      requires Stage(k) && Idle() && Rest(cut, k, ready)
      modifies this`client, this`log, this`served, this`saved, this`exact
      modifies rec.state, rec.metrics, rec.net, rec.checkpoints, rec.router.fleet, rec.router.budgets
      ensures Over() && old(log) <= log && Grown(old(rec.metrics.n), rec.metrics.n)
      ensures SameSession(old(rec.state.s), rec.state.s)
      ensures Ear() == old(Ear())
      ensures ok ==> Steady() && Sound(old(exact), old(rec.metrics.n))
      ensures ok ==> (endpoint <==> HasEndpoint(events))
    {
      hide Stage, Steady, Over, Idle, Sound, Rest, Ear, HasEndpoint;
      Apart();
      hide Stage, Steady, Over, Idle, Sound, Rest, Ear, HasEndpoint;
      ghost var was, n, l0, s0 := exact, rec.metrics.n, log, rec.state.s;
      ok, endpoint := Tally(events, k);
      SoundStart(n);
      if ok {
        ok := DispatchAll(ready, k, was, n, l0, s0);
        if ok {
          Sent(|cut|, was, n, l0, s0);
          StageSteady();
        }
      }
    }

    lemma StageSteady()
      requires Stage(|cut|) && Idle()
      ensures Steady()
    {
    }

    lemma SoundStart(n: Counts)
      requires n == rec.metrics.n
      ensures Sound(exact, n) && Grown(n, rec.metrics.n)
    {
    }

    // ---- the end of an utterance ----

    /** The chunk Flush cut off. It is in no journal yet as a chunk: if pushing it fails,
        the recovery replays everything but it. */
    method DispatchTail(p: Piece) returns (ok: bool, ghost lost: bool)
      requires Stage(|cut|)
      modifies this`client, this`log, this`served, this`saved, this`exact
      modifies rec.state, rec.metrics, rec.net, rec.checkpoints, rec.router.fleet, rec.router.budgets
      ensures Over() && old(log) <= log && Grown(old(rec.metrics.n), rec.metrics.n)
      ensures SameSession(old(rec.state.s), rec.state.s)
      ensures ok ==> Live() && Employed()
      ensures lost <==> Troubles(rec.metrics.n) > Troubles(old(rec.metrics.n))
      ensures ok && old(exact) && !lost ==> Alike(served, cut + [p])
      ensures ok && old(exact) && lost && Replayable(rec.metrics.n.restores > old(rec.metrics.n.restores))
              ==> Alike(served, cut)
    {
      hide FinalsIn, Coherent, WellFormed, Regained, Router.Router.Valid, Router.Router.Binds, Router.TransferBind,
           Trustworthy, Reproduces, Onward, Alike, Live, Ready;
      ghost var src, had, kept := Src(), served, saved;
      ghost var s1, l1, b1, n1 := rec.state.s, log, rec.router.Binds(), rec.metrics.n;
      if exact {
        WholeProgress(had, kept, src.cp, cut);
      }
      ghost var restored;
      ok, lost, restored := DispatchChunk(p);
      GoneOn(s1, l1, b1, n1);
      OnwardGrows(s1, rec.state.s, l1, log, b1, rec.router.Binds(), Router.Ids(rec.router.workers), n1, rec.metrics.n);
      ReproducesLess(src.pipeline, src.committed, src.retained, cut);
      if ok && exact {
        if !lost {
          AlikeSnoc(had, cut, p);
        } else if Reproduces(src.pipeline, src.committed, src.retained, cut, restored) {
          RegainedExact(src, kept, restored, cut);
        }
      }
    }

    method PushTail(p: Option<Piece>) returns (ok: bool, ghost lost: bool)
      requires Stage(|cut|)
      modifies this`client, this`log, this`served, this`saved, this`exact
      modifies rec.state, rec.metrics, rec.net, rec.checkpoints, rec.router.fleet, rec.router.budgets
      ensures Over() && old(log) <= log && Grown(old(rec.metrics.n), rec.metrics.n)
      ensures SameSession(old(rec.state.s), rec.state.s)
      ensures ok ==> Live() && Employed()
      ensures (lost <==> Troubles(rec.metrics.n) > Troubles(old(rec.metrics.n))) && (lost ==> Maybe(p) != [])
      ensures ok && old(exact) && !lost ==> Alike(served, cut + Maybe(p))
      ensures ok && old(exact) && lost && Replayable(rec.metrics.n.restores > old(rec.metrics.n.restores))
              ==> Alike(served, cut)
    {
      StageAlike();
      hide Stage, Live, Over, Employed, Replayable, Alike;
      ok, lost := true, false;
      if p.Some? {
        ok, lost := DispatchTail(p.value);
      } else {
        MaybeNone(cut);
      }
    }

    /** Flush the pipeline and dispatch what it cuts off, which is one chunk at most. */
    method FlushTail() returns (ok: bool, ghost lost: bool)
      requires Steady()
      modifies this`client, this`log, this`served, this`saved, this`exact
      modifies rec.state, rec.metrics, rec.net, rec.checkpoints, rec.router.fleet, rec.router.budgets
      modifies Parts(rec.pipeline)
      ensures Over() && old(log) <= log && Grown(old(rec.metrics.n), rec.metrics.n)
      ensures SameSession(old(rec.state.s), rec.state.s)
      ensures Idle() && View(rec.pipeline) == Flushed(old(View(rec.pipeline)))
      ensures ok ==> Live() && Employed()
      ensures lost <==> Troubles(rec.metrics.n) > Troubles(old(rec.metrics.n))
      ensures lost ==> Tail(old(View(rec.pipeline))) != []
      ensures ok && old(exact) && !lost ==> Alike(served, cut + Tail(old(View(rec.pipeline))))
      ensures ok && old(exact) && lost && Replayable(rec.metrics.n.restores > old(rec.metrics.n.restores))
              ==> Alike(served, cut)
    {
      Apart();
      hide Stage, Live, Over, Employed, Idle, Replayable, Tail, Flushed, View, Alike, Steady, Grown, SameSession,
           Maybe;
      var p := FlushPipeline();
      ok, lost := PushTail(p);
    }

    lemma StageAlike()
      requires Stage(|cut|)
      ensures Over() && Live() && Employed() && (exact ==> Alike(served, cut))
    {
      hide Alike;
      if exact {
        WholeProgress(served, saved, LatestOf(rec.checkpoints.entries, rec.state.s.sessionId), cut);
      }
    }

    method FlushPipeline() returns (p: Option<Piece>)
      requires Steady()
      modifies Parts(rec.pipeline)
      ensures Stage(|cut|) && Idle() && Over() && Live() && Employed() && unchanged(this, rec.state, rec.metrics)
      ensures Maybe(p) == Tail(old(View(rec.pipeline)))
      ensures View(rec.pipeline) == Flushed(old(View(rec.pipeline)))
    {
      Apart();
      TailOne(View(rec.pipeline));
      hide FinalsIn, Coherent, Progress, Router.Router.Valid, Trustworthy, Pipelines.Valid, Queue, Boundaries, View,
           Tail, Onward, Router.Router.Binds;
      var chunks := Pipelines.Flush(rec.pipeline);
      p := if |chunks| == 0 then None else Some(chunks[0].piece);
    }

    /** The session's handle, whatever is behind it. */
    ghost predicate Held()
      reads this`client, rec.state, rec.net
    {
      && client.id == rec.state.s.workerId && client.key == rec.state.s.key
      && At(client, rec.state.s.handle) in rec.net.given && At(client, rec.state.s.handle) !in rec.net.closed
    }

    /** The utterance's text, from the record the session has built. */
    method FlushText() returns (text: Option<string>)
      requires Ready() && Live()
      modifies rec.net`records
      ensures Ready() && Orphaned() && Held()
      ensures text.Some? ==> text.value == TextOf(rec.net.model(rec.state.s.key), served)
      ensures served != [] ==> rec.state.s.lastApplied == MaxEnd(served)
    {
      hide Tracks, SavedFor, PushAll, Trustworthy, Router.Router.Valid;
      text := rec.net.Flush(client, rec.state.s.handle);
    }

    /** Everything cut is dispatched, and the record flushed. */
    method Conclude() returns (text: Option<string>, ghost lost: bool, ghost said: seq<Piece>)
      requires Steady()
      modifies this`client, this`log, this`served, this`saved, this`exact
      modifies rec.state, rec.metrics, rec.net, rec.checkpoints, rec.router.fleet, rec.router.budgets
      modifies Parts(rec.pipeline)
      ensures Over() && old(log) <= log && Grown(old(rec.metrics.n), rec.metrics.n)
      ensures SameSession(old(rec.state.s), rec.state.s)
      ensures Idle() && View(rec.pipeline) == Flushed(old(View(rec.pipeline)))
      ensures text.Some? ==> Orphaned() && Held() && Employed()
      ensures text.Some? ==> text.value == TextOf(rec.net.model(rec.state.s.key), said)
      ensures text.Some? && said != [] ==> rec.state.s.lastApplied == MaxEnd(said)
      ensures lost <==> Troubles(rec.metrics.n) > Troubles(old(rec.metrics.n))
      ensures lost ==> Tail(old(View(rec.pipeline))) != []
      ensures text.Some? && old(exact) && !lost ==> Alike(said, cut + Tail(old(View(rec.pipeline))))
      ensures text.Some? && old(exact) && lost && Replayable(rec.metrics.n.restores > old(rec.metrics.n.restores))
              ==> Alike(said, cut)
    {
      hide Live, Employed, Idle, Steady, Went, Ready, Replayable, Tail, Flushed, View, Alike, Orphaned, Held, TextOf,
           MaxEnd;
      var ok;
      ok, lost := FlushTail();
      text, said := None, served;
      if ok {
        Apart();
        hide Onward, Router.Router.Binds;
        text := FlushText();
      }
    }

    /** The final, once, and the floor the journal may forget up to: the end of the
        utterance, or less while the pipeline still holds earlier audio. */
    method Commit(text: string) returns (ok: bool)
      requires Ready() && Idle() && Orphaned()
      modifies this`log, rec.state, rec.emitter, rec.journal`committedSeq, rec.journal`haveCommitted
      ensures Ready() && Idle() && View(rec.pipeline) == old(View(rec.pipeline))
      ensures rec.state.s == old(rec.state.s).(finalized := true, committed := old(rec.state.s.lastApplied))
      ensures WellFormed(log) && old(log) <= log && FinalsIn(log) == FinalsIn(old(log)) + if ok then 1 else 0
      ensures ok ==> Tracks(log, rec.state.s) && Ended(log, old(rec.state.s), text)
      ensures Trimmed(Replay.TrimFloor(old(rec.state.s.lastApplied), Retention(View(rec.pipeline))),
                      old(rec.journal.haveCommitted), old(rec.journal.committedSeq))
    {
      hide Ring.Valid, FinalsIn, SavedFor, Trustworthy, Router.Router.Valid, Network.Valid, WellFormed,
           Pipelines.Valid, Queue, Boundaries, Retention;
      Apart();
      ghost var before, told := rec.state.s, log;
      var seqEnd := rec.state.s.lastApplied;
      var e, isNew := rec.emitter.Final(text, rec.state.s.utteranceStart, seqEnd);
      if isNew {
        TrimJournal(seqEnd);
      } else {
        assert false;
      }
      ok := Send(e);
      TracksWell(log, told, before, rec.state.s);
    }

    ghost predicate Trimmed(floor: Option<nat>, haveCommitted: bool, committedSeq: nat)
      reads rec.journal
    {
      match floor
      case None => rec.journal.haveCommitted == haveCommitted && rec.journal.committedSeq == committedSeq
      case Some(f) => rec.journal.haveCommitted && rec.journal.committedSeq == f
    }

    method TrimJournal(seqEnd: nat)
      requires rec.journal.Valid() && Pipelines.Valid(rec.pipeline)
      modifies rec.journal`committedSeq, rec.journal`haveCommitted
      ensures rec.journal.Valid()
      ensures Trimmed(Replay.TrimFloor(seqEnd, Retention(View(rec.pipeline))),
                      old(rec.journal.haveCommitted), old(rec.journal.committedSeq))
    {
      Apart();
      hide Retention, Pipelines.Valid, View, Replay.TrimFloor;
      var start := RetentionStart(rec.pipeline);
      var floor := ChooseFloor(seqEnd, start);
      if floor.Some? {
        rec.journal.TrimBefore(floor.value);
      }
    }

    /** Close the utterance's handle and open the next one's: a new utterance must not
        inherit state. */
    method Reopen(seqEnd: nat) returns (ok: bool)
      requires Ready() && Held() && rec.state.s.finalized && Tracks(log, rec.state.s)
      modifies rec.state, rec.net, rec.checkpoints, this`served, this`saved
      ensures Ready() && rec.state.s.sessionId == old(rec.state.s.sessionId)
      ensures rec.state.s.mode == old(rec.state.s.mode)
      ensures rec.state.s.workerId == old(rec.state.s.workerId)
      ensures ok ==> Live() && served == [] && LatestOf(rec.checkpoints.entries, rec.state.s.sessionId) == None
      ensures ok ==> rec.state.s.utterance == old(rec.state.s.utterance) + 1 && rec.state.s.lastApplied == seqEnd
    {
      hide Ready, Tracks, PushAll, Router.Router.Valid, Network.Valid, Trustworthy;
      TracksNext(log, rec.state.s);
      var handle := ReplaceHandle();
      if handle.None? {
        return false;
      }
      rec.checkpoints.Delete(rec.state.s.sessionId);
      rec.state.s := NewUtterance(rec.state.s.(handle := handle.value, generation := 0, lastApplied := seqEnd));
      served, saved := [], [];
      ok := true;
      TracksNextAt(log, old(rec.state.s), rec.state.s);
      FreshRecorded(rec.net.model, rec.net.records, At(client, rec.state.s.handle), rec.state.s.key);
    }

    /** Close the handle, then open another on the same worker. */
    method ReplaceHandle() returns (handle: Option<nat>)
      requires Ready() && Held()
      modifies rec.net
      ensures Ready()
      ensures handle.Some? ==>
                var x := At(client, handle.value);
                && x in rec.net.given && x !in rec.net.closed
                && x in rec.net.records && rec.net.records[x] == FreshRec(rec.net.model(client.key))
    {
      hide Trustworthy, Router.Router.Valid;
      var closed := rec.net.Close(client, rec.state.s.handle);
      if !closed {
        return None;
      }
      handle := rec.net.Open(client);
    }

    /** A final just told, for the record. */
    ghost function AsTold(st: State, said: seq<Piece>, flushing: Counts): Told
      reads this`log, rec.metrics
    {
      Told(if log == [] then 0 else |log| - 1, st.key, said, st.lastApplied, flushing, rec.metrics.n)
    }

    /** Commit, as far as the whole session goes; the final is on record. */
    method TellFinal(text: string, ghost said: seq<Piece>, ghost flushing: Counts) returns (ok: bool)
      requires Over() && Idle() && Orphaned() && Held()
      modifies this`log, this`spoken, rec.state, rec.emitter, rec.journal`committedSeq, rec.journal`haveCommitted
      ensures Over() && Idle() && Held() && View(rec.pipeline) == old(View(rec.pipeline)) && old(log) <= log
      ensures rec.state.s == old(rec.state.s).(finalized := true, committed := old(rec.state.s.lastApplied))
      ensures ok ==> Tracks(log, rec.state.s) && Ended(log, old(rec.state.s), text)
      ensures spoken == old(spoken) + if ok then [AsTold(old(rec.state.s), said, flushing)] else []
      ensures Trimmed(Replay.TrimFloor(old(rec.state.s.lastApplied), Retention(View(rec.pipeline))),
                      old(rec.journal.haveCommitted), old(rec.journal.committedSeq))
    {
      Apart();
      hide FinalsIn, Tracks, Router.Router.Valid, Ready, Onward, Router.Router.Binds, Replay.TrimFloor, Orphaned,
           Idle, View, Trimmed, WellFormed, Retention;
      ghost var s1, l1 := rec.state.s, log;
      ok := Commit(text);
      OnwardMore(base.state, s1, rec.state.s, [], l1, log, base.binds, rec.router.Binds(),
                 Router.Ids(rec.router.workers),
                 base.counts, rec.metrics.n);
      if ok {
        spoken := spoken + [AsTold(s1, said, flushing)];
      }
    }

    /** Reopen, as far as the whole session goes. */
    method ReopenOver(seqEnd: nat) returns (ok: bool)
      requires Over() && Held() && rec.state.s.finalized && Tracks(log, rec.state.s)
      modifies this`served, this`saved, rec.state, rec.net, rec.checkpoints
      ensures Over()
      ensures ok ==> Live() && served == [] && LatestOf(rec.checkpoints.entries, rec.state.s.sessionId) == None
      ensures ok ==> rec.state.s.utterance == old(rec.state.s.utterance) + 1
    {
      FinalWell();
      hide FinalsIn, Tracks, Ready, Live, Held, WellFormed, Went, Onward, Router.Router.Binds, LatestOf;
      ghost var s1, b1, n1 := rec.state.s, rec.router.Binds(), rec.metrics.n;
      OverParts();
      ok := Reopen(seqEnd);
      StillGone(s1, log, b1, n1);
    }

    /** Nothing is cut yet. */
    method OpenNext(seqEnd: nat) returns (ok: bool)
      requires Over() && Idle() && Held() && Employed() && rec.state.s.finalized && Tracks(log, rec.state.s)
      modifies this`served, this`saved, this`cut, this`exact, rec.state, rec.net, rec.checkpoints
      ensures Over() && Idle() && View(rec.pipeline) == old(View(rec.pipeline))
      ensures ok ==> Steady() && cut == [] && exact && rec.state.s.utterance == old(rec.state.s.utterance) + 1
    {
      Apart();
      hide Tracks, Over, Live, Held, Idle, View, Employed, Steady, LatestOf;
      cut, exact := [], true;
      ok := ReopenOver(seqEnd);
      if ok {
        Renewed();
      }
    }

    lemma OverParts()
      requires Over()
      ensures |base.binds| == |rec.router.workers| && FinalsIn(log) == |spoken|
      ensures Onward(base.state, rec.state.s, [], log, base.binds, rec.router.Binds(), Router.Ids(rec.router.workers),
                     base.counts, rec.metrics.n)
    {
    }

    /** The session's record has changed, but not who serves it or what it counted. */
    lemma StillGone(s: State, l: seq<Event>, b: seq<int>, n: Counts)
      requires |base.binds| == |b| == |rec.router.workers| && b == rec.router.Binds() && n == rec.metrics.n
      requires Onward(base.state, s, [], l, base.binds, b, Router.Ids(rec.router.workers), base.counts, n)
      requires rec.state.s.sessionId == s.sessionId && rec.state.s.mode == s.mode && rec.state.s.workerId == s.workerId
      requires l <= log && WellFormed(log) && FinalsIn(log) == |spoken|
      ensures Went()
    {
      hide FinalsIn, Onward, WellFormed, Router.Router.Binds;
      OnwardMore(base.state, s, rec.state.s, [], l, log, base.binds, b, Router.Ids(rec.router.workers), base.counts, n);
    }

    lemma FinalWell()
      requires Tracks(log, rec.state.s)
      ensures WellFormed(log)
    {
    }

    /** The final is told, the journal trimmed, and the next utterance opened. */
    method NextUtterance(text: string, ghost said: seq<Piece>, ghost flushing: Counts)
        returns (ok: bool, ghost told: bool)
      requires Over() && Idle() && Orphaned() && Held() && Employed()
      modifies this`log, this`served, this`saved, this`cut, this`exact, this`spoken
      modifies rec.state, rec.emitter, rec.net, rec.checkpoints, rec.journal`committedSeq, rec.journal`haveCommitted
      ensures Over() && Idle() && View(rec.pipeline) == old(View(rec.pipeline)) && old(log) <= log
      ensures told ==> Ended(log, old(rec.state.s), text)
      ensures spoken == old(spoken) + if told then [AsTold(old(rec.state.s), said, flushing)] else []
      ensures ok ==> told && Steady() && cut == [] && exact && rec.state.s.utterance == old(rec.state.s.utterance) + 1
      ensures Trimmed(Replay.TrimFloor(old(rec.state.s.lastApplied), Retention(View(rec.pipeline))),
                      old(rec.journal.haveCommitted), old(rec.journal.committedSeq))
    {
      hide Over, Idle, Orphaned, Held, Tracks, View, Ended, Trimmed, Steady, Retention, Replay.TrimFloor;
      var seqEnd := rec.state.s.lastApplied;
      ok := TellFinal(text, said, flushing);
      told := ok;
      if ok {
        ok := OpenNext(seqEnd);
      }
    }

    lemma Renewed()
      requires Over() && Idle() && Live() && Employed() && cut == [] && served == []
      requires LatestOf(rec.checkpoints.entries, rec.state.s.sessionId) == None
      ensures Steady()
    {
      hide Over, Live;
      NothingCut(saved);
    }

    lemma ReplayableLess()
      ensures Replayable(true) ==> Replayable(false)
    {
      ReproducesLess(rec.pipeline, rec.journal.FromCommitted(), rec.journal.Retained(), cut);
    }

    /** The final just told is at the end of the log, by a model of the fleet. */
    ghost predicate Placed(t: Told)
      reads this`log, rec.router
    {
      log != [] && t.at == |log| - 1 && Serves(t.key)
    }

    /** The end of an utterance the detector found. */
    method FinalizeEndpoint() returns (ok: bool, ghost told: bool, ghost t: Told, ghost ended: State)
      requires Steady()
      modifies this`client, this`log, this`served, this`saved, this`cut, this`exact, this`spoken
      modifies rec.state, rec.metrics, rec.net, rec.checkpoints, rec.router.fleet, rec.router.budgets
      modifies Parts(rec.pipeline)
      modifies rec.emitter, rec.journal`committedSeq, rec.journal`haveCommitted
      ensures Over() && old(log) <= log && Grown(old(rec.metrics.n), rec.metrics.n)
      ensures Idle() && View(rec.pipeline) == Flushed(old(View(rec.pipeline)))
      ensures spoken == old(spoken) + if told then [t] else []
      ensures told ==> Ended(log, ended, TextOf(rec.net.model(t.key), t.said))
      ensures told ==> ended.utterance == old(rec.state.s.utterance)
      ensures told ==> Placed(t) && t.applied == ended.lastApplied
      ensures told ==> t.flushing == old(rec.metrics.n) && t.ended == rec.metrics.n
      ensures told ==> Speaks(t, old(cut), Tail(old(View(rec.pipeline))), old(exact),
                              || old(Replayable(true))
                              || (old(Replayable(false)) && rec.metrics.n.restores == old(rec.metrics.n.restores)))
      ensures ok ==> told && Steady() && cut == [] && exact && rec.state.s.utterance == old(rec.state.s.utterance) + 1
      ensures told ==> Trimmed(Replay.TrimFloor(ended.lastApplied, Retention(View(rec.pipeline))),
                               old(rec.journal.haveCommitted), old(rec.journal.committedSeq))
    {
      hide Speaks, Grown, Troubles, Live, Employed, Idle, Steady, Went, Ready, Replayable, Tail, Flushed, View, Alike,
           Orphaned, Held, TextOf, MaxEnd, Retention, Trimmed;
      ReplayableLess();
      ghost var whole, tail, was, n := cut, Tail(View(rec.pipeline)), exact, rec.metrics.n;
      ghost var withRestore, without := Replayable(true), Replayable(false);
      var text;
      ghost var lost, said;
      text, lost, said := Conclude();
      ghost var now := Replayable(rec.metrics.n.restores > n.restores);
      ended := rec.state.s;
      t := Told(0, ended.key, said, ended.lastApplied, n, rec.metrics.n);
      ok, told := false, false;
      if text.Some? {
        KeyKnown();
        ok, told := NextUtterance(text.value, said, n);
        t := t.(at := if log == [] then 0 else |log| - 1);
        Spoke(t, whole, tail, was, withRestore, without, now, lost);
      }
    }

    lemma KeyKnown()
      requires Held() && Employed()
      ensures Serves(rec.state.s.key)
    {
      assert client in rec.router.workers;
    }

    /** session.end: dispatch the tail, flush, and tell the final. Nothing after the
        flush is protected by failover. */
    method EndSession() returns (told: bool, ghost t: Told, ghost ended: State)
      requires Steady()
      modifies this`client, this`log, this`served, this`saved, this`exact, this`spoken
      modifies rec.state, rec.metrics, rec.net, rec.checkpoints, rec.router.fleet, rec.router.budgets
      modifies Parts(rec.pipeline)
      modifies rec.emitter, rec.journal`committedSeq, rec.journal`haveCommitted
      ensures Over() && old(log) <= log && Grown(old(rec.metrics.n), rec.metrics.n)
      ensures spoken == old(spoken) + if told then [t] else []
      ensures told ==> Ended(log, ended.(utteranceStart := 0), TextOf(rec.net.model(t.key), t.said))
      ensures told ==> ended.utterance == old(rec.state.s.utterance)
      ensures told ==> Placed(t) && t.applied == ended.lastApplied
      ensures told ==> t.flushing == old(rec.metrics.n) && t.ended == rec.metrics.n
      ensures told ==> Speaks(t, cut, Tail(old(View(rec.pipeline))), old(exact),
                              || old(Replayable(true))
                              || (old(Replayable(false)) && rec.metrics.n.restores == old(rec.metrics.n.restores)))
    {
      hide Speaks, Grown, Troubles, Live, Employed, Idle, Steady, Replayable, Tail, Flushed, View, Alike, Orphaned,
           Held, TextOf, MaxEnd, Over, Serves;
      ReplayableLess();
      ghost var whole, tail, was, n := cut, Tail(View(rec.pipeline)), exact, rec.metrics.n;
      ghost var withRestore, without := Replayable(true), Replayable(false);
      var text;
      ghost var lost, said;
      text, lost, said := Conclude();
      ghost var now := Replayable(rec.metrics.n.restores > n.restores);
      ended := rec.state.s;
      t := Told(0, ended.key, said, ended.lastApplied, n, rec.metrics.n);
      told := false;
      if text.Some? {
        KeyKnown();
        told := LastWord(text.value, said, n);
        t := t.(at := if log == [] then 0 else |log| - 1);
        Spoke(t, whole, tail, was, withRestore, without, now, lost);
      }
    }

    /** The final of session.end, which starts at nothing and commits everything. */
    method EndWith(text: string) returns (ok: bool)
      requires Ready() && Orphaned()
      modifies this`log, rec.state, rec.emitter, rec.journal`committedSeq, rec.journal`haveCommitted
      ensures Ready()
      ensures rec.state.s == old(rec.state.s).(finalized := true, committed := old(rec.state.s.lastApplied))
      ensures WellFormed(log) && old(log) <= log && FinalsIn(log) == FinalsIn(old(log)) + if ok then 1 else 0
      ensures ok ==> Ended(log, old(rec.state.s).(utteranceStart := 0), text)
      ensures rec.journal.haveCommitted && rec.journal.committedSeq == old(rec.state.s.lastApplied)
    {
      hide Ring.Valid, Tracks, FinalsIn, SavedFor, Trustworthy, Router.Router.Valid, Network.Valid, WellFormed;
      ghost var before, told := rec.state.s, log;
      var e, isNew := rec.emitter.Final(text, 0, rec.state.s.lastApplied);
      if isNew {
        rec.journal.TrimBefore(rec.state.s.lastApplied);
      } else {
        assert false;
      }
      ok := Send(e);
      TracksWell(log, told, before, rec.state.s);
    }

    /** EndWith, as far as the whole session goes; the final is on record. */
    method LastWord(text: string, ghost said: seq<Piece>, ghost flushing: Counts) returns (told: bool)
      requires Over() && Orphaned()
      modifies this`log, this`spoken, rec.state, rec.emitter, rec.journal`committedSeq, rec.journal`haveCommitted
      ensures Over() && old(log) <= log
      ensures told ==> Ended(log, old(rec.state.s).(utteranceStart := 0), text)
      ensures spoken == old(spoken) + if told then [AsTold(old(rec.state.s), said, flushing)] else []
    {
      hide FinalsIn, Ready, Onward, Router.Router.Binds, Orphaned, WellFormed;
      ghost var s1, l1 := rec.state.s, log;
      told := EndWith(text);
      OnwardMore(base.state, s1, rec.state.s, [], l1, log, base.binds, rec.router.Binds(),
                 Router.Ids(rec.router.workers), base.counts, rec.metrics.n);
      if told {
        spoken := spoken + [AsTold(s1, said, flushing)];
      }
    }

    // ---- a whole session ----

    ghost function Now(): Standing
      reads this`cut, this`spoken, this`exact, rec.state, rec.journal, Parts(rec.pipeline)
    {
      Standing(View(rec.pipeline), cut, spoken, rec.state.s.utterance, exact, rec.journal.haveCommitted,
               rec.journal.committedSeq)
    }

    /** What the client has been told, against the frames it sent. */
    ghost predicate Past()
      reads this`log, this`spoken, rec.journal, rec.metrics, rec.router
    {
      && Logged(rec.net.model, log, spoken)
      && Truthful(rec.pipeline, rec.journal.log, rec.journal.records.Length, spoken, base.counts, rec.metrics.n)
      && Keyed()
    }

    ghost predicate Keyed()
      reads this`spoken, rec.router
    {
      forall i | 0 <= i < |spoken| :: Serves(spoken[i].key)
    }

    ghost predicate Serves(key: string)
      reads rec.router
    {
      exists w :: w in rec.router.workers && w.key == key
    }

    ghost predicate Present()
      reads this`cut, this`spoken, this`exact, rec.state, rec.journal, rec.metrics, Parts(rec.pipeline)
    {
      Stands(rec.pipeline, rec.journal.log, rec.journal.records.Length, Now(), base.counts, rec.metrics.n)
    }

    ghost predicate Chronicle()
      reads this, rec.state, rec.metrics, rec.net, rec.checkpoints, rec.journal, rec.journal.records
      reads rec.router, rec.router.budgets, rec.router.fleet, Parts(rec.pipeline)
    {
      Steady() && Past() && Present()
    }

    /** One audio frame, the end of the utterance included. */
    method HandleAudio(f: Frame) returns (ok: bool)
      requires Chronicle() && Legal(rec.pipeline)
      modifies this`client, this`log, this`served, this`saved, this`cut, this`exact, this`spoken
      modifies rec.state, rec.metrics, rec.net, rec.checkpoints, rec.router.fleet, rec.router.budgets
      modifies Parts(rec.pipeline), rec.journal, rec.journal.records, rec.emitter
      ensures Over() && Past() && (ok ==> Chronicle())
      ensures rec.journal.log == old(rec.journal.log) + [RecordOf(rec.pipeline, f)]
    {
      Apart();
      hide Over, Steady, Stands, Sound, View, Logged, Truthful, Emits, Next, Closes;
      ghost var r, standing, n := RecordOf(rec.pipeline, f), Now(), rec.metrics.n;
      ghost var told, heard := log, rec.journal.log;
      ChronicleParts();
      var endpoint;
      ok, endpoint := HandleFrame(f);
      LoggedGrows(rec.net.model, told, log, spoken);
      TruthfulNext(rec.pipeline, heard, r, rec.journal.records.Length, spoken, base.counts, n, rec.metrics.n);
      if ok {
        if endpoint {
          ok := CloseUtterance(r, heard, standing, n);
        } else {
          RingRoom();
          NextStands(r, heard, standing, n);
        }
      }
    }

    lemma ChronicleParts()
      requires Chronicle()
      ensures Keyed() && Grown(base.counts, rec.metrics.n)
      ensures Steady() && Over() && Logged(rec.net.model, log, spoken)
      ensures |spoken| == |UtteredOf(rec.pipeline, rec.journal.log)|
      ensures Truthful(rec.pipeline, rec.journal.log, rec.journal.records.Length, spoken, base.counts, rec.metrics.n)
      ensures Stands(rec.pipeline, rec.journal.log, rec.journal.records.Length, Now(), base.counts, rec.metrics.n)
      ensures View(rec.pipeline) == Lived(rec.pipeline, rec.journal.log) && rec.state.s.utterance == |spoken| + 1
    {
    }

    /** The frame did not end the utterance. */
    lemma NextStands(r: Record, log0: seq<Record>, s: Standing, n: Counts)
      requires rec.journal.log == log0 + [r] && rec.journal.records.Length > 0
      requires Stands(rec.pipeline, log0, rec.journal.records.Length, s, base.counts, n)
      requires !Closes(s.view, r) && Sound(s.exact, n)
      requires View(rec.pipeline) == Next(s.view, r) && cut == s.cut + Emits(s.view, r) && spoken == s.spoken
      requires rec.state.s.utterance == s.utterance
      requires rec.journal.haveCommitted == s.haveCommitted && rec.journal.committedSeq == s.committedSeq
      ensures Present()
    {
      hide Stands, Next, Emits, View, Closes, Reproduces;
      StandsNext(rec.pipeline, log0, r, rec.journal.records.Length, s, exact, base.counts, n, rec.metrics.n);
    }

    /** The frame ended the utterance. */
    method CloseUtterance(ghost r: Record, ghost log0: seq<Record>, ghost s: Standing,
                          ghost n: Counts) returns (ok: bool)
      requires Steady() && Past() && Legal(rec.pipeline)
      requires rec.journal.log == log0 + [r]
      requires Stands(rec.pipeline, log0, rec.journal.records.Length, s, base.counts, n)
      requires Closes(s.view, r) && Sound(s.exact, n)
      requires View(rec.pipeline) == Next(s.view, r) && cut == s.cut + Emits(s.view, r) && spoken == s.spoken
      requires rec.state.s.utterance == s.utterance
      requires rec.journal.haveCommitted == s.haveCommitted && rec.journal.committedSeq == s.committedSeq
      modifies this`client, this`log, this`served, this`saved, this`cut, this`exact, this`spoken
      modifies rec.state, rec.metrics, rec.net, rec.checkpoints, rec.router.fleet, rec.router.budgets
      modifies Parts(rec.pipeline)
      modifies rec.emitter, rec.journal`committedSeq, rec.journal`haveCommitted
      ensures Over() && Past() && (ok ==> Chronicle())
    {
      Apart();
      hide Over, Steady, Stands, View, Logged, Truthful, Emits, Next, Closes, Reproduces, TextOf, MaxEnd, Alike, Tail,
           Flushed, Retention, Faithful, Idle, Replay.TrimFloor;
      ghost var before, n1, exact1, p, cap := log, rec.metrics.n, exact, rec.pipeline, rec.journal.records.Length;
      RingRoom();
      StandsParts(p, log0, cap, s, base.counts, n);
      ghost var told, t, ended;
      ok, told, t, ended := FinalizeEndpoint();
      if told {
        ToldWell(r, log0, s, n, exact1, before, t, ended);
        StandsClosed(p, log0, r, cap, s, t, base.counts, n, rec.journal.haveCommitted, rec.journal.committedSeq);
      } else {
        LoggedGrows(rec.net.model, before, log, s.spoken);
        TruthfulNow(p, log0 + [r], cap, s.spoken, base.counts, n1, rec.metrics.n);
        assert spoken == s.spoken;
      }
    }

    /** A final told at an endpoint joins the others. */
    lemma ToldWell(r: Record, log0: seq<Record>, s: Standing, n: Counts, exact1: bool, before: seq<Event>, t: Told,
                   ended: State)
      requires rec.journal.log == log0 + [r] && spoken == s.spoken + [t] && rec.journal.records.Length > 0
      requires Stands(rec.pipeline, log0, rec.journal.records.Length, s, base.counts, n) && Closes(s.view, r)
      requires Grown(n, t.flushing) && Grown(t.flushing, t.ended) && t.ended == rec.metrics.n
      requires s.exact && (|| Troubles(t.flushing) == Troubles(n)
                           || ReadsOn(rec.pipeline, log0, r, rec.journal.records.Length, s,
                                      t.flushing.restores > n.restores))
               ==> exact1
      requires Speaks(t, s.cut + Emits(s.view, r), Tail(Next(s.view, r)), exact1,
                      || ReadsOn(rec.pipeline, log0, r, rec.journal.records.Length, s, true)
                      || (ReadsOn(rec.pipeline, log0, r, rec.journal.records.Length, s, false)
                          && t.ended.restores == t.flushing.restores))
      requires Logged(rec.net.model, before, s.spoken) && before <= log
      requires Truthful(rec.pipeline, log0 + [r], rec.journal.records.Length, s.spoken, base.counts, t.flushing)
      requires forall i | 0 <= i < |s.spoken| :: Serves(s.spoken[i].key)
      requires Ended(log, ended, TextOf(rec.net.model(t.key), t.said)) && ended.utterance == s.utterance && Placed(t)
      requires t.applied == ended.lastApplied
      ensures Past()
    {
      hide Stands, Logged, Truthful, Emits, Next, Closes, TextOf, Tail, Vouched, Serves, ReadsOn, Speaks, Timeline,
           UtteredOf;
      ghost var p, cap := rec.pipeline, rec.journal.records.Length;
      StandsParts(p, log0, cap, s, base.counts, n);
      LoggedGrows(rec.net.model, before, log, s.spoken);
      LoggedSnoc(rec.net.model, log, s.spoken, t, ended);
      VouchedClosed(p, log0, r, cap, s, exact1, t, base.counts, n);
      TruthfulSnoc(p, log0 + [r], cap, s.spoken, t, base.counts, rec.metrics.n);
    }

    /** As long as no endpoint frame is longer than the pre-roll, whatever the session has
        committed, every record in live pre-roll and in the chunk in progress is above
        the floor. */
    lemma FloorClear()
      requires Chronicle() && rec.pipeline.Gated? && Legal(rec.pipeline) && rec.journal.haveCommitted
      requires Increasing(rec.journal.log, 0) && EndpointsFit(rec.pipeline, rec.journal.log)
      ensures Replay.AboveFloor(rec.pipeline.vad.View(), rec.journal.committedSeq)
      ensures rec.journal.committedSeq < LastSeq(rec.journal.log, 0)
    {
      hide Over, Steady, Logged, Truthful, EndpointsFit, Legal, Replay.Live, Replay.Since, Replay.Uttered,
           Replay.AboveFloor;
      ChronicleParts();
    }

    lemma RingRoom()
      requires Steady()
      ensures rec.journal.records.Length > 0
    {
    }

    /** The session's messages are over: session.end. */
    method Finish() returns (told: bool)
      requires Chronicle()
      modifies this`client, this`log, this`served, this`saved, this`exact, this`spoken
      modifies rec.state, rec.metrics, rec.net, rec.checkpoints, rec.router.fleet, rec.router.budgets
      modifies Parts(rec.pipeline)
      modifies rec.emitter, rec.journal`committedSeq, rec.journal`haveCommitted
      ensures Over() && Past() && |spoken| == |old(spoken)| + if told then 1 else 0
    {
      Apart();
      hide Over, Steady, Stands, View, Logged, Truthful, Reproduces, TextOf, MaxEnd, Alike, Tail, Faithful;
      ghost var before, n, s, heard, cap := log, rec.metrics.n, Now(), rec.journal.log, rec.journal.records.Length;
      RingRoom();
      ChronicleParts();
      StandsParts(rec.pipeline, heard, cap, s, base.counts, n);
      ghost var t, ended;
      told, t, ended := EndSession();
      LoggedGrows(rec.net.model, before, log, s.spoken);
      if told {
        LoggedSnoc(rec.net.model, log, s.spoken, t, ended.(utteranceStart := 0));
        VouchedEnd(rec.pipeline, heard, cap, s, t, base.counts);
        TruthfulSnoc(rec.pipeline, heard, cap, s.spoken, t, base.counts, rec.metrics.n);
      } else {
        TruthfulNow(rec.pipeline, heard, cap, s.spoken, base.counts, n, rec.metrics.n);
        assert spoken == s.spoken;
      }
    }

    /** A session that has only just been bound. */
    lemma Enrolled()
      requires Prepared(rec) && base == Base(rec.state.s, rec.router.Binds(), rec.metrics.n)
      requires log == [] && served == [] && saved == [] && cut == [] && exact && spoken == []
      requires Employed() && client.id == rec.state.s.workerId && client.key == rec.state.s.key
      requires rec.state.s.generation == 0
      requires var x := At(client, rec.state.s.handle);
               && x in rec.net.given && x !in rec.net.closed
               && x in rec.net.records && rec.net.records[x] == FreshRec(rec.net.model(client.key))
      ensures Chronicle()
    {
      hide Router.Router.Valid, Network.Valid, Router.Router.Binds, Tracks, Trustworthy, Pipelines.Valid, Queue,
           Boundaries, Progress, Onward, Coherent, Stands, View, FreshRec;
      CoherentStart(rec.net.model, rec.state.s, client, rec.net.records, rec.net.given, rec.net.closed);
      OnwardNone(rec.state.s, log, rec.router.Binds(), Router.Ids(rec.router.workers), rec.metrics.n);
      NothingCut(saved);
      Begins();
    }

    lemma Begins()
      requires Steady() && base.counts == rec.metrics.n && log == [] && cut == [] && exact && spoken == []
      requires rec.journal.log == [] && !rec.journal.haveCommitted
      requires View(rec.pipeline) == Fresh(rec.pipeline) && rec.state.s.utterance == 1
      ensures Chronicle()
    {
      hide Steady, Stands;
      LivedFresh(rec.pipeline);
      StandsFresh(rec.pipeline, rec.journal.records.Length, rec.metrics.n, rec.journal.committedSeq);
    }

    lemma LiveWell()
      requires Live()
      ensures WellFormed(log) && !rec.state.s.finalized && Tracks(log, rec.state.s)
    {
    }
  }

  lemma OnwardGrows(s: State, s': State, l: seq<Event>, l': seq<Event>, b: seq<int>, b': seq<int>, ids: seq<string>,
                    n: Counts, n': Counts)
    requires |b| == |ids| && Onward(s, s', l, l', b, b', ids, n, n')
    ensures Grown(n, n') && l <= l'
  {
  }

  lemma ReproducesLess(p: Pipeline, committed: seq<Record>, retained: seq<Record>, cut: seq<Piece>)
    ensures Reproduces(p, committed, retained, cut, true) ==> Reproduces(p, committed, retained, cut, false)
  {
  }

  // ---- a session's whole life ----

  /** openWithRetry: up to three different workers, no state to preserve yet. */
  method OpenWithRetry<S(!new)>(router: Router.Router, net: Network<S>, mode: string)
      returns (target: Option<Worker>, handle: nat)
    requires router.Valid() && net.Valid()
    modifies router.fleet, router.budgets, net`records, net`issued, net`given
    ensures router.Valid() && net.Valid() && router.Binds() == old(router.Binds())
    ensures target.Some? ==>
              var x := At(target.value, handle);
              && target.value in router.workers && x in net.given && x !in net.closed
              && x in net.records && net.records[x] == FreshRec(net.model(target.value.key))
  {
    hide Router.Router.Valid, Network.Valid, Router.Router.Binds;
    target, handle := None, 0;
    var excluded: set<string> := {};
    var attempt := 0;
    while attempt < MAX_FAILOVER_ATTEMPTS && target.None?
      invariant router.Valid() && net.Valid() && router.Binds() == old(router.Binds())
      invariant target.Some? ==>
                  var x := At(target.value, handle);
                  && target.value in router.workers && x in net.given && x !in net.closed
                  && x in net.records && net.records[x] == FreshRec(net.model(target.value.key))
    {
      var more;
      more, target, handle, excluded := OpenOnce(router, net, mode, excluded);
      attempt := if more then attempt + 1 else MAX_FAILOVER_ATTEMPTS;
    }
  }

  method OpenOnce<S(!new)>(router: Router.Router, net: Network<S>, mode: string, excluded: set<string>)
      returns (more: bool, target: Option<Worker>, handle: nat, excluded': set<string>)
    requires router.Valid() && net.Valid()
    modifies router.fleet, router.budgets, net`records, net`issued, net`given
    ensures router.Valid() && net.Valid() && router.Binds() == old(router.Binds())
    ensures target.Some? ==>
              var x := At(target.value, handle);
              && target.value in router.workers && x in net.given && x !in net.closed
              && x in net.records && net.records[x] == FreshRec(net.model(target.value.key))
  {
    handle, excluded' := 0, excluded;
    target := router.PickNow(mode, excluded, "");
    more := target.Some?;
    if target.None? {
      return;
    }
    NotClosed(net);
    hide Router.Router.Valid, Network.Valid, Router.Router.Binds;
    var h := net.Open(target.value);
    if h.Some? {
      handle := h.value;
      return;
    }
    excluded' := excluded + {target.value.id};
    router.ReportNow(target.value.id, false, 0.0);
    target := None;
  }

  lemma NotClosed<S(!new)>(net: Network<S>)
    requires net.Valid()
    ensures net.closed <= net.given
  {
  }

  /** The objects a session starts with: nothing told, nothing saved. */
  ghost predicate Prepared<S(!new)>(rec: Recovery<S>)
    reads rec.state, rec.net, rec.checkpoints, rec.journal, rec.journal.records
    reads rec.router, rec.router.budgets, Parts(rec.pipeline)
  {
    && rec.net.Valid() && rec.journal.Valid() && rec.router.Valid()
    && rec.emitter.state == rec.state && Trustworthy(rec.net.model)
    && Tracks([], rec.state.s) && !rec.state.s.finalized && rec.state.s.sessionId !in rec.checkpoints.entries
    && rec.state.s.utterance == 1 && rec.journal.log == [] && !rec.journal.haveCommitted
    && Pipelines.Valid(rec.pipeline) && Queue(rec.pipeline) == [] && Boundaries(rec.pipeline) == []
    && View(rec.pipeline) == Fresh(rec.pipeline)
  }

  /** session.start, once admitted: a worker is picked and opened, bound and
      recorded. Refused, the session has nothing to give back. */
  method StartSession<S(!new)>(rec: Recovery<S>, mode: string) returns (conn: Option<Connection<S>>)
    requires Prepared(rec)
    modifies rec.state, rec.net`records, rec.net`issued, rec.net`given, rec.router.fleet, rec.router.budgets
    ensures rec.router.Valid() && rec.net.Valid()
    ensures rec.state.s.sessionId == old(rec.state.s.sessionId)
    ensures conn.None? ==> rec.router.Binds() == old(rec.router.Binds())
    ensures conn.Some? ==> fresh(conn.value) && conn.value.rec == rec && conn.value.log == []
    ensures conn.Some? ==> conn.value.Chronicle() && conn.value.base.counts == rec.metrics.n
    ensures conn.Some? ==> conn.value.base.state.sessionId == rec.state.s.sessionId
    ensures conn.Some? ==>
              conn.value.base.binds == Router.AddBind(old(rec.router.Binds()), Router.Ids(rec.router.workers),
                                                      conn.value.base.state.workerId, 1)
  {
    hide Router.Router.Valid, Network.Valid, Router.Router.Binds, Tracks, Trustworthy, Pipelines.Valid, Queue,
         Boundaries, Router.AddBind, Connection.Chronicle;
    PartsApart(rec);
    conn := None;
    ghost var first := rec.state.s;
    rec.state.s := rec.state.s.(mode := mode);
    TracksFields([], first, rec.state.s);
    var target, handle := OpenWithRetry(rec.router, rec.net, mode);
    if target.Some? {
      var c := BindSession(rec, target.value, handle);
      conn := Some(c);
    }
  }

  lemma CoherentStart<S(!new)>(model: string -> Adapter<S>, st: State, w: Worker, records: map<Addr, Rec<S>>,
                               given: set<Addr>, closed: set<Addr>)
    requires Tracks([], st) && !st.finalized && st.workerId == w.id && st.key == w.key && st.generation == 0
    requires var x := At(w, st.handle);
             x in given && x !in closed && x in records && records[x] == FreshRec(model(w.key))
    ensures Coherent(model, st, w, records, given, closed, None, [], [], [])
  {
    hide Tracks, PushAll;
    FreshRecorded(model, records, At(w, st.handle), w.key);
  }

  method TakeBind<S(!new)>(rec: Recovery<S>, w: Worker)
    requires Prepared(rec) && w in rec.router.workers
    modifies rec.router.fleet
    ensures Prepared(rec)
    ensures rec.router.Binds() == Router.AddBind(old(rec.router.Binds()), Router.Ids(rec.router.workers), w.id, 1)
  {
    hide Router.Router.Valid, Network.Valid, Router.Router.Binds, Tracks, Trustworthy, Pipelines.Valid, Queue,
         Boundaries, Router.AddBind;
    PartsApart(rec);
    rec.router.BindTo(w);
    var took: real := *;
    rec.router.ReportNow(w.id, true, took);
  }

  method BindSession<S(!new)>(rec: Recovery<S>, w: Worker, handle: nat) returns (c: Connection<S>)
    requires Prepared(rec)
    requires w in rec.router.workers
    requires var x := At(w, handle);
             && x in rec.net.given && x !in rec.net.closed
             && x in rec.net.records && rec.net.records[x] == FreshRec(rec.net.model(w.key))
    modifies rec.state, rec.router.fleet
    ensures rec.router.Valid() && rec.state.s.sessionId == old(rec.state.s.sessionId)
    ensures fresh(c) && c.rec == rec && c.log == []
    ensures c.Chronicle() && c.base.counts == rec.metrics.n && c.base.state.sessionId == rec.state.s.sessionId
    ensures c.base.binds == Router.AddBind(old(rec.router.Binds()), Router.Ids(rec.router.workers),
                                           c.base.state.workerId, 1)
  {
    hide Router.Router.Valid, Network.Valid, Router.Router.Binds, Tracks, PushAll, Trustworthy, Pipelines.Valid,
         Queue, Boundaries, Router.AddBind, FreshRec, Connection.Chronicle;
    PartsApart(rec);
    TakeBind(rec, w);
    ghost var before := rec.state.s;
    rec.state.s := rec.state.s.(workerId := w.id, handle := handle, key := w.key, generation := 0);
    TracksFields([], before, rec.state.s);
    c := new Connection(rec, w);
    c.Apart();
    assert Prepared(rec);
    hide Prepared;
    c.Enrolled();
  }

  lemma TracksWell(log: seq<Event>, before: seq<Event>, s: State, s': State)
    requires Tracks(before, s) && (log == before || Tracks(log, s'))
    ensures WellFormed(log)
  {
  }
}

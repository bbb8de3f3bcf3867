/** Recovering a session from a lost backend: internal/coord/failover.go. */
module Failover {
  import opened Wrappers
  import opened Audio
  import opened Adapters
  import opened Backend
  import opened Checkpoint
  import opened Journal
  import opened Pipelines
  import opened Recency
  import opened Session
  import opened Network
  import Router

  const MAX_FAILOVER_ATTEMPTS := 3

  type Worker = Router.Worker

  datatype Counts = Counts(failovers: nat, sameModel: nat, crossModel: nat, restores: nat, degraded: nat,
                           exhausted: nat)

  /** What the counters say of each other after any number of failovers. */
  predicate Balanced(c: Counts) {
    c.failovers == c.sameModel + c.crossModel && c.restores <= c.sameModel <= c.restores + c.degraded
  }

  /** One failover, successful or not, has been counted and the books still balance. */
  predicate Tallied(before: Counts, after: Counts, recovered: bool, restored: bool, exhausted: bool) {
    && after.failovers == before.failovers + (if recovered then 1 else 0)
    && after.restores == before.restores + (if recovered && restored then 1 else 0)
    && after.exhausted == before.exhausted + (if exhausted then 1 else 0)
    && (Balanced(before) ==> Balanced(after))
  }

  class Metrics {
    var n: Counts

    constructor ()
      ensures n == Counts(0, 0, 0, 0, 0, 0) && Balanced(n)
    {
      n := Counts(0, 0, 0, 0, 0, 0);
    }
  }

  /** What a successful recovery hands back. */
  datatype Recovered = Recovered(client: Worker, reset: Event, text: Option<string>)

  /** What a recovery works from: the audio since the commit, all audio retained,
      and the session's latest checkpoint. */
  datatype Source<!S> = Source(sessionId: string, model: string -> Adapter<S>, pipeline: Pipeline,
                               committed: seq<Record>, retained: seq<Record>, cp: Option<CacheCheckpoint>)

  /** The session has moved to a new handle, and its next revision is the reset. */
  predicate Installed(before: State, after: State, r: Recovered) {
    && after == before.(workerId := r.client.id, handle := after.handle, key := r.client.key,
                        generation := after.generation, lastApplied := after.lastApplied,
                        failoverEpoch := before.failoverEpoch + 1, revision := before.revision + 1, lastPartial := "")
    && r.reset == PartialReset(before.utterance, after.revision, after.failoverEpoch)
  }

  /** The session's counters are those of the record, and the text is its. */
  predicate Mirrors<S>(after: State, rec: Rec<S>, lastApplied: nat, replayed: seq<Piece>, text: Option<string>) {
    && after.generation == rec.generation
    && after.lastApplied == (if replayed == [] then lastApplied else rec.lastSeq)
    && text == (if replayed == [] then None else Some(rec.lastText))
  }

  /** The record is start with the chunks of the given audio pushed onto it. */
  ghost predicate ReplayedFrom<S(!new)>(src: Source<S>, start: Rec<S>, audio: seq<Record>, lastApplied: nat,
                                        before: State, after: State, records: map<Addr, Rec<S>>, r: Recovered)
  {
    var x, ps := At(r.client, after.handle), RecutOf(src.pipeline, audio);
    && Installed(before, after, r)
    && x in records && records[x] == PushAll(src.model(r.client.key), start, ps)
    && Mirrors(after, records[x], lastApplied, ps, r.text)
  }

  /** Rebuilt from nothing over everything since the commit, or from the
      checkpoint over everything journaled past it. */
  ghost predicate Replayed<S(!new)>(src: Source<S>, before: State, after: State, records: map<Addr, Rec<S>>,
                                    r: Recovered, restored: bool)
  {
    var a := src.model(r.client.key);
    if restored then
      && src.cp.Some? && src.cp.value.key == r.client.key && a.deserialize(src.cp.value.blob).Some?
      && ReplayedFrom(src, Rec(0, src.cp.value.seqNo, "", a.deserialize(src.cp.value.blob).value),
                      After(src.retained, src.cp.value.seqNo), src.cp.value.seqNo, before, after, records, r)
    else ReplayedFrom(src, FreshRec(a), src.committed, before.lastApplied, before, after, records, r)
  }

  /** An attempt is given at most one handle, and leaves it in the state; without
      one it leaves the state alone and has failed. */
  ghost predicate Given(before: State, after: State, target: Worker, given: set<Addr>, given': set<Addr>, ok: bool) {
    || (!ok && after == before && given' == given)
    || (after.workerId == target.id && At(target, after.handle) !in given
        && given' == given + {At(target, after.handle)})
  }

  /** Nothing came of it: the session is where it was, and every handle given
      has been closed. */
  ghost predicate Fruitless(before: State, after: State, given: set<Addr>, given': set<Addr>,
                            closed: set<Addr>, closed': set<Addr>)
  {
    && after == before
    && given <= given' && closed' == closed + (given' - given)
  }

  /** Exactly one handle has been given and not closed again. */
  ghost predicate Reopened(x: Addr, given: set<Addr>, given': set<Addr>, closed: set<Addr>, closed': set<Addr>) {
    && given <= given' && x in given' && x !in given
    && closed' == closed + (given' - given - {x})
  }

  /** How a failover ends: with the session's record rebuilt behind exactly one
      more open handle, or with nothing changed. */
  ghost predicate Concluded<S(!new)>(src: Source<S>, before: State, after: State, records: map<Addr, Rec<S>>,
                                     given: set<Addr>, given': set<Addr>, closed: set<Addr>, closed': set<Addr>,
                                     r: Option<Recovered>, restored: bool)
  {
    if r.Some? then
      && Replayed(src, before, after, records, r.value, restored)
      && Reopened(At(r.value.client, after.handle), given, given', closed, closed')
    else Fruitless(before, after, given, given', closed, closed')
  }

  lemma ConcludedOwner<S(!new)>(src: Source<S>, before: State, after: State, records: map<Addr, Rec<S>>,
                                given: set<Addr>, given': set<Addr>, closed: set<Addr>, closed': set<Addr>,
                                r: Option<Recovered>, restored: bool)
    requires Concluded(src, before, after, records, given, given', closed, closed', r, restored)
    ensures after.workerId == if r.Some? then r.value.client.id else before.workerId
  {
    hide RecutOf, PushAll;
  }

  lemma OneMore<S(!new)>(src: Source<S>, before: State, after: State, records: map<Addr, Rec<S>>,
                         g0: set<Addr>, g1: set<Addr>, g2: set<Addr>, c0: set<Addr>, c1: set<Addr>, c2: set<Addr>,
                         r: Option<Recovered>, restored: bool)
    requires Fruitless(before, before, g0, g1, c0, c1)
    requires Concluded(src, before, after, records, g1, g2, c1, c2, r, restored)
    ensures Concluded(src, before, after, records, g0, g2, c0, c2, r, restored)
    ensures r.None? ==> after == before && Fruitless(before, before, g0, g2, c0, c2)
  {
    hide Replayed;
    if r.Some? {
      OneMoreSucceeded(before, At(r.value.client, after.handle), g0, g1, g2, c0, c1, c2);
    } else {
      OneMoreFailed(before, after, g0, g1, g2, c0, c1, c2);
    }
  }

  lemma OneMoreFailed(before: State, after: State, g0: set<Addr>, g1: set<Addr>, g2: set<Addr>,
                      c0: set<Addr>, c1: set<Addr>, c2: set<Addr>)
    requires Fruitless(before, before, g0, g1, c0, c1) && Fruitless(before, after, g1, g2, c1, c2)
    ensures Fruitless(before, after, g0, g2, c0, c2)
  {
  }

  lemma OneMoreSucceeded(before: State, x: Addr, g0: set<Addr>, g1: set<Addr>, g2: set<Addr>,
                         c0: set<Addr>, c1: set<Addr>, c2: set<Addr>)
    requires Fruitless(before, before, g0, g1, c0, c1) && Reopened(x, g1, g2, c1, c2)
    ensures Reopened(x, g0, g2, c0, c2)
  {
  }

  /** Everything as it was when the failover began. */
  datatype Entry<!S> = Entry(src: Source<S>, state: State, given: set<Addr>, closed: set<Addr>, binds: seq<int>,
                            counts: Counts)

  class Recovery<S(!new)> {
    const state: InferenceState
    const emitter: Emitter
    const pipeline: Pipeline
    const journal: Ring
    const router: Router.Router
    const checkpoints: CheckpointStore
    const net: Network<S>
    const metrics: Metrics

    constructor (state: InferenceState, emitter: Emitter, pipeline: Pipeline, journal: Ring, router: Router.Router,
                 checkpoints: CheckpointStore, net: Network<S>, metrics: Metrics)
      ensures this.state == state && this.emitter == emitter && this.pipeline == pipeline
      ensures this.journal == journal && this.router == router && this.checkpoints == checkpoints
      ensures this.net == net && this.metrics == metrics
    {
      this.state, this.emitter, this.pipeline, this.journal := state, emitter, pipeline, journal;
      this.router, this.checkpoints, this.net, this.metrics := router, checkpoints, net, metrics;
    }

    /** src is what this recovery will read. */
    ghost predicate Reads(src: Source<S>)
      reads journal, journal.records, checkpoints
    {
      && emitter.state == state && journal.Valid()
      && src.model == net.model && src.pipeline == pipeline
      && src.committed == journal.FromCommitted() && src.retained == journal.Retained()
      && src.cp == if src.sessionId in checkpoints.entries then Some(checkpoints.entries[src.sessionId]) else None
    }

    /** Push chunks in order, each against the generation the last one left. */
    method ReplayChunks(client: Worker, chunks: seq<Chunk>) returns (ok: bool, text: Option<string>)
      requires net.Valid() && At(client, state.s.handle) in net.given
      requires var x := At(client, state.s.handle);
               x in net.records && net.records[x].generation == state.s.generation
      modifies state, net`records
      ensures net.Valid()
      ensures state.s == old(state.s).(generation := state.s.generation, lastApplied := state.s.lastApplied)
      ensures ok ==>
                var x := At(client, state.s.handle);
                && x in net.records
                && net.records[x] == PushAll(net.model(client.key), old(net.records)[x], Pieces(chunks))
                && Mirrors(state.s, net.records[x], old(state.s.lastApplied), Pieces(chunks), text)
    {
      hide PushOne, PushAll, AfterPush, PushAnswer;
      text := None;
      ghost var x, a, start := At(client, state.s.handle), net.model(client.key),
          net.records[At(client, state.s.handle)];
      PushNone(a, start);
      for i := 0 to |chunks|
        invariant net.Valid() && x in net.given && x in net.records
        invariant state.s == old(state.s).(generation := state.s.generation, lastApplied := state.s.lastApplied)
        invariant net.records[x] == PushAll(a, start, Pieces(chunks)[..i])
        invariant state.s.generation == net.records[x].generation
        invariant i == 0 ==> state.s.lastApplied == old(state.s.lastApplied) && text == None
        invariant i > 0 ==> state.s.lastApplied == net.records[x].lastSeq && text == Some(net.records[x].lastText)
      {
        var p := chunks[i].piece;
        PushSnoc(a, start, Pieces(chunks)[..i], p);
        OwnPush(a, net.records[x], p);
        assert Pieces(chunks)[..i+1] == Pieces(chunks)[..i] + [p];
        var reply := net.Push(client, state.s.handle, p.seqEnd, state.s.generation, p.bytes);
        if !reply.Applied? {
          return false, None;
        }
        state.s := state.s.(generation := reply.generation, lastApplied := reply.lastSeq);
        text := Some(reply.text);
      }
      assert Pieces(chunks)[..|chunks|] == Pieces(chunks);
      ok := true;
    }

    /** Move the session to a new handle, owe the client a reset, and replay. */
    method Resume(target: Worker, handle: nat, lastApplied: nat, records: seq<Record>, ghost src: Source<S>)
        returns (r: Option<Recovered>)
      requires net.Valid() && emitter.state == state && !state.s.finalized
      requires src.model == net.model && src.pipeline == pipeline
      requires At(target, handle) in net.given && At(target, handle) in net.records
      requires net.records[At(target, handle)].generation == 0
      modifies state, net`records
      ensures net.Valid()
      ensures state.s.workerId == target.id && state.s.handle == handle && state.s.sessionId == old(state.s.sessionId)
      ensures r.Some? ==> r.value.client == target
      ensures r.Some? ==> ReplayedFrom(src, old(net.records)[At(target, handle)], records, lastApplied,
                                       old(state.s), state.s, net.records, r.value)
    {
      hide PushAll, RecutOf, Mirrors;
      state.s := state.s.(workerId := target.id, handle := handle, key := target.key, generation := 0,
                          lastApplied := lastApplied, failoverEpoch := state.s.failoverEpoch + 1);
      var reset := emitter.PartialReset();
      var chunks := RecutRecords(pipeline, records);
      var ok, text := ReplayChunks(target, chunks);
      if !ok {
        return None;
      }
      r := Some(Recovered(target, reset, text));
    }

    /** A fresh record on the target, and everything since the commit again. */
    method RecoverCrossModel(target: Worker, ghost src: Source<S>) returns (r: Option<Recovered>)
      requires net.Valid() && Reads(src) && !state.s.finalized
      modifies state, net`records, net`issued, net`given, metrics
      ensures net.Valid()
      ensures r.Some? ==> r.value.client == target
      ensures r.Some? ==> Replayed(src, old(state.s), state.s, net.records, r.value, false)
      ensures Given(old(state.s), state.s, target, old(net.given), net.given, r.Some?)
      ensures metrics.n == old(metrics.n).(failovers := old(metrics.n.failovers) + if r.Some? then 1 else 0)
    {
      hide ReplayedFrom, After, Newest;
      var records := journal.ReadFromCommitted();
      var handle := net.Open(target);
      if handle.None? {
        return None;
      }
      r := Resume(target, handle.value, state.s.lastApplied, records, src);
      if r.Some? {
        metrics.n := metrics.n.(failovers := metrics.n.failovers + 1);
      }
    }

    /** The tail replay, once the checkpoint has been restored. */
    method ResumeTail(target: Worker, handle: nat, cp: CacheCheckpoint,
                      ghost src: Source<S>) returns (r: Option<Recovered>)
      requires net.Valid() && Reads(src) && src.cp == Some(cp) && cp.key == target.key && !state.s.finalized
      requires At(target, handle) in net.given && At(target, handle) in net.records
      requires net.model(target.key).deserialize(cp.blob).Some?
      requires net.records[At(target, handle)] == Rec(0, cp.seqNo, "", net.model(target.key).deserialize(cp.blob).value)
      modifies state, net`records, metrics
      ensures net.Valid()
      ensures state.s.workerId == target.id && state.s.handle == handle
      ensures r.Some? ==> r.value.client == target
      ensures r.Some? ==> Replayed(src, old(state.s), state.s, net.records, r.value, true)
      ensures metrics.n == if r.None? then old(metrics.n)
                           else old(metrics.n).(failovers := old(metrics.n.failovers) + 1,
                                                restores := old(metrics.n.restores) + 1)
    {
      hide ReplayedFrom, After, Newest;
      var records := journal.ReadAfter(cp.seqNo);
      r := Resume(target, handle, cp.seqNo, records, src);
      if r.Some? {
        metrics.n := metrics.n.(failovers := metrics.n.failovers + 1);
        metrics.n := metrics.n.(restores := metrics.n.restores + 1);
      }
    }

    /** The latest checkpoint and the tail after it. Without a checkpoint that may
        be restored here, or if restoring it fails, a full replay instead. */
    method RecoverSameModel(target: Worker, ghost src: Source<S>) returns (r: Option<Recovered>, ghost restored: bool)
      requires net.Valid() && Reads(src) && state.s.sessionId == src.sessionId && !state.s.finalized
      modifies state, net`records, net`issued, net`given, metrics
      ensures net.Valid()
      ensures r.Some? ==> r.value.client == target
      ensures r.Some? ==> Replayed(src, old(state.s), state.s, net.records, r.value, restored)
      ensures restored ==> MayRestore(checkpoints.sum, src.cp, target.key)
      ensures Given(old(state.s), state.s, target, old(net.given), net.given, r.Some?)
      ensures metrics.n == old(metrics.n).(failovers := old(metrics.n.failovers) + (if r.Some? then 1 else 0),
                                           restores := old(metrics.n.restores) + (if r.Some? && restored then 1 else 0),
                                           degraded := old(metrics.n.degraded) + (if restored then 0 else 1))
    {
      hide Replayed, After, Newest;
      restored := false;
      var cp := checkpoints.Latest(state.s.sessionId);
      if !MayRestore(checkpoints.sum, cp, target.key) {
        metrics.n := metrics.n.(degraded := metrics.n.degraded + 1);
        r := RecoverCrossModel(target, src);
        return;
      }
      var handle := net.Restore(target, cp.value.blob, cp.value.seqNo);
      if handle.None? {
        metrics.n := metrics.n.(degraded := metrics.n.degraded + 1);
        r := RecoverCrossModel(target, src);
        return;
      }
      restored := true;
      r := ResumeTail(target, handle.value, cp.value, src);
    }

    /** One recovery on one target: by checkpoint if it shares the session's key,
        by full replay if not. */
    method RecoverOn(target: Worker, ghost src: Source<S>) returns (r: Option<Recovered>, ghost restored: bool)
      requires net.Valid() && Reads(src) && state.s.sessionId == src.sessionId && !state.s.finalized
      modifies state, net`records, net`issued, net`given, metrics
      ensures net.Valid()
      ensures r.Some? ==> r.value.client == target
      ensures r.Some? ==> Replayed(src, old(state.s), state.s, net.records, r.value, restored)
      ensures r.Some? && restored ==> target.key == old(state.s.key)
      ensures Given(old(state.s), state.s, target, old(net.given), net.given, r.Some?)
      ensures Tallied(old(metrics.n), metrics.n, r.Some?, restored, false)
    {
      hide Replayed, Given;
      if target.key == state.s.key {
        r, restored := RecoverSameModel(target, src);
        if r.Some? {
          metrics.n := metrics.n.(sameModel := metrics.n.sameModel + 1);
        }
      } else {
        restored := false;
        r := RecoverCrossModel(target, src);
        if r.Some? {
          metrics.n := metrics.n.(crossModel := metrics.n.crossModel + 1);
        }
      }
    }

    /** Close what a failed attempt was given, and put the session back where it
        was. The guard is what tells an attempt that got a handle from one that
        did not. */
    method RollBack(target: Worker, previous: State, ghost given: set<Addr>)
      requires net.Valid() && target.id != previous.workerId
      requires Given(previous, state.s, target, given, net.given, false)
      modifies state, net`records, net`closed
      ensures net.Valid()
      ensures Fruitless(previous, state.s, given, net.given, old(net.closed), net.closed)
    {
      if state.s.workerId != previous.workerId || state.s.handle != previous.handle {
        var ok := net.Close(target, state.s.handle);
      }
      state.s := previous;
    }

    /** Recover on the target or leave everything as it was. */
    method TryTarget(target: Worker, ghost src: Source<S>) returns (r: Option<Recovered>, ghost restored: bool)
      requires net.Valid() && Reads(src) && state.s.sessionId == src.sessionId && !state.s.finalized
      requires target.id != state.s.workerId
      modifies state, net, metrics
      ensures net.Valid()
      ensures r.Some? ==> r.value.client == target
      ensures Concluded(src, old(state.s), state.s, net.records, old(net.given), net.given, old(net.closed),
                        net.closed, r, restored)
      ensures Tallied(old(metrics.n), metrics.n, r.Some?, restored, false)
    {
      hide Replayed;
      var previous := state.s;
      ghost var given := net.given;
      r, restored := RecoverOn(target, src);
      if r.None? {
        RollBack(target, previous, given);
      }
    }

    /** Pick a worker not tried yet, and recover on it. */
    method Attempt(excluded: set<string>, ghost src: Source<S>)
        returns (target: Option<Worker>, r: Option<Recovered>, ghost restored: bool)
      requires net.Valid() && Reads(src) && router.Valid() && state.s.sessionId == src.sessionId && !state.s.finalized
      requires state.s.workerId in excluded
      modifies state, net, metrics
      modifies router.fleet, router.budgets
      ensures net.Valid() && router.Valid()
      ensures router.Binds() == old(router.Binds())
      ensures target.None? ==> r.None?
      ensures target.Some? ==> target.value in router.workers && target.value.id !in excluded
      ensures r.Some? ==> r.value.client == target.value
      ensures Concluded(src, old(state.s), state.s, net.records, old(net.given), net.given, old(net.closed),
                        net.closed, r, restored)
      ensures Tallied(old(metrics.n), metrics.n, r.Some?, restored, false)
    {
      r, restored := None, false;
      assert Concluded(src, state.s, state.s, net.records, net.given, net.given, net.closed, net.closed, r, restored);
      hide Concluded, Fruitless, Reads, Router.Router.Valid, Network.Valid, Router.Router.Binds;
      target := router.PickNow(state.s.mode, excluded, state.s.key);
      if target.Some? {
        r, restored := TryTarget(target.value, src);
      }
    }

    /** One more attempt after fruitless ones, with the report its failure calls for. */
    method Round(owner: string, excluded: set<string>, ghost tried: seq<string>, ghost src: Source<S>,
                 ghost before: State, ghost g0: set<Addr>, ghost c0: set<Addr>)
        returns (stop: bool, excluded': set<string>, ghost tried': seq<string>, r: Option<Recovered>,
                 ghost restored: bool)
      requires net.Valid() && Reads(src) && router.Valid()
      requires state.s.sessionId == src.sessionId && !state.s.finalized && state.s.workerId == owner
      requires state.s == before && Attempts(tried, owner, excluded)
      requires Fruitless(before, before, g0, net.given, c0, net.closed)
      modifies state, net, metrics
      modifies router.fleet, router.budgets
      ensures net.Valid() && router.Valid()
      ensures router.Binds() == old(router.Binds())
      ensures Attempts(tried', owner, excluded') && |tried'| <= |tried| + 1
      ensures r.Some? ==> stop && r.value.client in router.workers && r.value.client.id in tried'
      ensures Concluded(src, before, state.s, net.records, g0, net.given, c0, net.closed, r, restored)
      ensures r.None? ==> state.s == before && Fruitless(before, before, g0, net.given, c0, net.closed)
      ensures Tallied(old(metrics.n), metrics.n, r.Some?, restored, false)
    {
      hide Concluded, Fruitless, Reads, Router.Router.Valid, Network.Valid, Router.Router.Binds, Tallied, Attempts;
      ghost var g1, c1 := net.given, net.closed;
      excluded', tried' := excluded, tried;
      AttemptsDistinct(tried, owner, excluded);
      var target;
      target, r, restored := Attempt(excluded, src);
      OneMore(src, before, state.s, net.records, g0, g1, net.given, c0, c1, net.closed, r, restored);
      stop := target.None? || r.Some?;
      if target.None? {
        return;
      }
      OneMoreTried(tried, owner, excluded, target.value.id);
      tried' := [target.value.id] + tried;
      excluded' := excluded + {target.value.id};
      if r.None? {
        router.ReportNow(target.value.id, false, 0.0);
      }
    }

    /** Before the attempt-th round, or stopped: so far a recovery, or nothing lost. */
    ghost predicate Trying(attempt: nat, stop: bool, tried: seq<string>, excluded: set<string>, from: Entry<S>,
                           r: Option<Recovered>, restored: bool)
      reads state, net, metrics, router, router.fleet, router.budgets, journal, journal.records, checkpoints
    {
      && net.Valid() && router.Valid() && Reads(from.src) && router.Binds() == from.binds
      && |tried| < attempt && Attempts(tried, from.state.workerId, excluded)
      && from.state.sessionId == from.src.sessionId && !from.state.finalized
      && (r.Some? ==> stop && r.value.client in router.workers && r.value.client.id in tried)
      && Concluded(from.src, from.state, state.s, net.records, from.given, net.given, from.closed, net.closed, r,
                   restored)
      && (r.None? ==> state.s == from.state
                      && Fruitless(from.state, from.state, from.given, net.given, from.closed, net.closed))
      && Tallied(from.counts, metrics.n, r.Some?, restored, false)
    }

    lemma Tried(attempt: nat, stop: bool, tried: seq<string>, excluded: set<string>, from: Entry<S>,
                r: Option<Recovered>, restored: bool)
      requires Trying(attempt, stop, tried, excluded, from, r, restored)
      ensures net.Valid() && router.Valid() && router.Binds() == from.binds
      ensures |tried| < attempt && NoDup(tried) && from.state.workerId !in tried
      ensures r.Some? ==> r.value.client in router.workers && r.value.client.id in tried
      ensures Concluded(from.src, from.state, state.s, net.records, from.given, net.given, from.closed, net.closed, r,
                        restored)
      ensures Tallied(from.counts, metrics.n, r.Some?, restored, false)
    {
      hide Concluded, Fruitless, Reads, Router.Router.Valid, Network.Valid, Router.Router.Binds, Attempts, Balanced;
      AttemptsDistinct(tried, from.state.workerId, excluded);
    }

    method NextRound(owner: string, ghost attempt: nat, excluded: set<string>, ghost tried: seq<string>,
                     ghost from: Entry<S>, ghost r0: Option<Recovered>, ghost restored0: bool)
        returns (stop: bool, excluded': set<string>, ghost tried': seq<string>, r: Option<Recovered>,
                 ghost restored: bool)
      requires owner == from.state.workerId
      requires Trying(attempt, false, tried, excluded, from, r0, restored0)
      modifies state, net, metrics
      modifies router.fleet, router.budgets
      ensures Trying(attempt + 1, stop, tried', excluded', from, r, restored)
    {
      hide Concluded, Fruitless, Reads, Router.Router.Valid, Network.Valid, Router.Router.Binds, Attempts, Balanced;
      stop, excluded', tried', r, restored := Round(owner, excluded, tried, from.src, from.state, from.given,
                                                    from.closed);
    }

    /** The loop over at most three replacements. */
    method TryReplacements(owner: string, ghost src: Source<S>)
        returns (r: Option<Recovered>, ghost tried: seq<string>, ghost restored: bool)
      requires net.Valid() && Reads(src) && router.Valid()
      requires state.s.sessionId == src.sessionId && !state.s.finalized && state.s.workerId == owner
      modifies state, net, metrics
      modifies router.fleet, router.budgets
      ensures net.Valid() && router.Valid()
      ensures router.Binds() == old(router.Binds())
      ensures |tried| <= MAX_FAILOVER_ATTEMPTS && NoDup(tried) && owner !in tried
      ensures r.Some? ==> r.value.client in router.workers && r.value.client.id in tried
      ensures Concluded(src, old(state.s), state.s, net.records, old(net.given), net.given, old(net.closed),
                        net.closed, r, restored)
      ensures Tallied(old(metrics.n), metrics.n, r.Some?, restored, false)
    {
      var excluded := {owner};
      r, tried, restored := None, [], false;
      ghost var from := Entry(src, state.s, net.given, net.closed, router.Binds(), metrics.n);
      assert Fruitless(from.state, from.state, from.given, from.given, from.closed, from.closed);
      assert Attempts([], owner, excluded);
      FruitlessConcludes(src, from.state, net.records, from.given, from.given, from.closed, from.closed, false);
      hide Concluded, Fruitless, Reads, Router.Router.Valid, Network.Valid, Router.Router.Binds, Attempts, NoDup,
           Balanced;
      var attempt, stop := 1, false;
      assert Trying(attempt, stop, tried, excluded, from, r, restored);
      hide Trying;
      while attempt <= MAX_FAILOVER_ATTEMPTS && !stop
        invariant attempt <= MAX_FAILOVER_ATTEMPTS + 1
        invariant Trying(attempt, stop, tried, excluded, from, r, restored)
      {
        stop, excluded, tried, r, restored := NextRound(owner, attempt, excluded, tried, from, r, restored);
        attempt := attempt + 1;
      }
      Tried(attempt, stop, tried, excluded, from, r, restored);
      AttemptsDistinct(tried, owner, excluded);
    }

    /** internal/coord's HandleBackendFailure: at most three replacements, all
        different and none of them the owner. A recovery that fails is undone
        completely; one that succeeds leaves exactly one more handle open, moves
        the session's bind, and has rebuilt the session's record. */
    method HandleBackendFailure(ghost src: Source<S>)
        returns (r: Option<Recovered>, ghost tried: seq<string>, ghost restored: bool)
      requires net.Valid() && Reads(src) && router.Valid() && state.s.sessionId == src.sessionId && !state.s.finalized
      modifies state, net, metrics
      modifies router.fleet, router.budgets
      ensures net.Valid() && router.Valid()
      ensures |tried| <= MAX_FAILOVER_ATTEMPTS && NoDup(tried) && old(state.s.workerId) !in tried
      ensures r.Some? ==> r.value.client in router.workers && r.value.client.id in tried
      ensures Concluded(src, old(state.s), state.s, net.records, old(net.given), net.given, old(net.closed),
                        net.closed, r, restored)
      ensures router.Binds()
           == Router.TransferBind(old(router.Binds()), Router.Ids(router.workers),
                                  state.s.workerId, old(state.s.workerId))
      ensures Tallied(old(metrics.n), metrics.n, r.Some?, restored, r.None?)
    {
      hide Concluded, Fruitless, Reads, Network.Valid, Router.Router.Binds, Router.TransferBind, Router.Ids;
      var owner := state.s.workerId;
      router.ReportNow(owner, false, 0.0);
      ghost var before, given, closed := state.s, net.given, net.closed;
      r, tried, restored := TryReplacements(owner, src);
      ConcludedOwner(src, before, state.s, net.records, given, net.given, closed, net.closed, r, restored);
      if r.Some? {
        router.Transfer(r.value.client, owner);
        router.ReportNow(r.value.client.id, true, 0.0);
      } else {
        Router.TransferToItself(router.Binds(), Router.Ids(router.workers), owner);
        metrics.n := metrics.n.(exhausted := metrics.n.exhausted + 1);
      }
    }
  }

  lemma FruitlessConcludes<S(!new)>(src: Source<S>, before: State, records: map<Addr, Rec<S>>,
                                   g0: set<Addr>, g1: set<Addr>, c0: set<Addr>, c1: set<Addr>, restored: bool)
    ensures Concluded(src, before, before, records, g0, g1, c0, c1, None, restored)
        <==> Fruitless(before, before, g0, g1, c0, c1)
  {
  }

  /** The workers tried so far, with what must not be picked again. */
  ghost predicate Attempts(tried: seq<string>, owner: string, excluded: set<string>) {
    NoDup(tried) && owner in excluded && forall x :: x in tried <==> x in excluded && x != owner
  }

  lemma OneMoreTried(tried: seq<string>, owner: string, excluded: set<string>, id: string)
    requires Attempts(tried, owner, excluded) && id !in excluded
    ensures Attempts([id] + tried, owner, excluded + {id})
  {
    assert ([id] + tried)[1..] == tried;
  }

  lemma AttemptsDistinct(tried: seq<string>, owner: string, excluded: set<string>)
    requires Attempts(tried, owner, excluded)
    ensures NoDup(tried) && owner !in tried && owner in excluded
  {
  }

  lemma PushNone<S>(a: Adapter<S>, rec: Rec<S>)
    ensures PushAll(a, rec, []) == rec
  {
  }
}

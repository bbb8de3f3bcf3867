/** A worker's heap against the step system: whatever a worker's cache and state
    objects do between the rest of the fleet's steps is a run of Stateless. */
module Mirror {
  import opened Wrappers
  import opened Audio
  import opened Adapters
  import opened Stateless
  import opened HotCache

  /** A run on the heap is as far as its attempt. */
  ghost predicate Follows<S>(job: Job<S>, attempts: map<nat, Attempt<S>>, id: nat, me: WorkerId) {
    && id in attempts && attempts[id].worker == me && attempts[id].request == job.request
    && match job.stage
       case Ready => attempts[id].phase.Loaded?
       case Ran(_) => if job.request.sink.None? then attempts[id].phase.Finished? else attempts[id].phase.Inferred?
  }

  /** An attempt's phase is exactly what a run's object and text make it. */
  ghost predicate Shows<S>(phase: Phase<S>, request: Request, stage: Stage, value: S) {
    match stage
    case Ready => phase == Loaded(value)
    case Ran(text) => phase == if request.sink.None? then Finished(text) else Inferred(value, text)
  }

  ghost predicate JobsFollow<S>(running: map<nat, Job<S>>, attempts: map<nat, Attempt<S>>, me: WorkerId) {
    forall id | id in running :: Follows(running[id], attempts, id, me)
  }

  ghost predicate SameKeys<S>(hot: map<Ref, ModelState<S>>, places: map<Place, S>, me: WorkerId) {
    forall r :: r in hot <==> Place(me, r) in places
  }

  ghost predicate Mirrors<S(!new)>(w: Worker<S>, s: Sys<S>, me: WorkerId)
    reads w, w.tier
  {
    && w.tier.meaning == s.meaning && w.tier.blobs == s.tier
    && SameKeys(w.hot, s.hot, me) && JobsFollow(w.running, s.attempts, me)
  }

  /** Then they agree on every value too: each filed object, each state being worked on
      and each text about to be answered. */
  lemma MirrorsAgree<S(!new)>(w: Worker<S>, s: Sys<S>, me: WorkerId)
    requires w.Valid() && Inv(w.a, s) && Mirrors(w, s, me)
    ensures forall r | r in w.hot :: w.hot[r].value == s.hot[Place(me, r)]
    ensures forall id | id in w.running ::
              Shows(s.attempts[id].phase, w.running[id].request, w.running[id].stage, w.running[id].state.value)
  {
    hide Indexed, BlobsMean, TierMeans, ClientsMean, MeaningBounded, Base, Reply, Sensible;
    forall id | id in w.running
      ensures Shows(s.attempts[id].phase, w.running[id].request, w.running[id].stage, w.running[id].state.value)
    {
      JobAgrees(w.a, s, me, w.running[id], id, w.running[id].state.value);
    }
  }

  lemma JobAgrees<S(!new)>(a: Adapter<S>, s: Sys<S>, me: WorkerId, job: Job<S>, id: nat, value: S)
    requires AttemptsMean(a, s) && Follows(job, s.attempts, id, me)
    requires StageMeans(a, s.meaning, job.request, job.stage, value)
    ensures Shows(s.attempts[id].phase, job.request, job.stage, value)
  {
    hide Base, Reply, Sensible;
    assert AttemptMeans(a, s.meaning, s.clients, s.attempts[id]);
  }

  // ---- this worker's moves, as steps ----

  lemma RunSnoc<S>(a: Adapter<S>, done: seq<Step>, step: Step)
    ensures Run(a, done + [step]) == Next(a, Run(a, done), step)
  {
    assert (done + [step])[..|done|] == done;
  }

  lemma RunsRight<S(!new)>(a: Adapter<S>, done: seq<Step>)
    requires RoundTrips(a)
    ensures Inv(a, Run(a, done))
  {
    RunKeeps(a, done);
  }

  lemma OwnerSensible<S>(a: Adapter<S>, meaning: map<Ref, S>, sid: Sid, request: Request)
    requires Sensible(a, meaning, sid, request)
    ensures Sensible(a, meaning, SinkOwner(request), request)
  {
  }

  lemma AskedSensible<S>(a: Adapter<S>, s: Sys<S>, sid: Sid)
    requires Inv(a, s) && sid in s.clients && s.clients[sid].waiting.Some?
    ensures Sensible(a, s.meaning, SinkOwner(s.clients[sid].waiting.value), s.clients[sid].waiting.value)
  {
    hide Sensible, Served, Faithful;
    assert ClientMeans(a, s.meaning, sid, s.clients[sid]);
    OwnerSensible(a, s.meaning, sid, s.clients[sid].waiting.value);
  }

  /** A load that finds something. */
  lemma LoadFinds<S(!new)>(a: Adapter<S>, s: Sys<S>, id: nat, me: WorkerId, request: Request)
    requires RoundTrips(a) && TierMeans(a, s) && id in s.attempts && s.attempts[id].phase.Waiting?
    requires s.attempts[id].worker == me && s.attempts[id].request == request
    requires request.ref.Some? ==> Place(me, request.ref.value) in s.hot || request.ref.value in s.tier
    ensures var s' := DoLoad(a, s, id);
            && id in s'.attempts && s'.attempts == s.attempts[id := s'.attempts[id]] && s'.attempts[id].phase.Loaded?
            && s'.attempts[id].worker == me && s'.attempts[id].request == request
            && s'.tier == s.tier && s'.meaning == s.meaning
            && s'.hot == s.hot - (if request.ref.Some? then {Place(me, request.ref.value)} else {})
  {
  }

  /** An attempt started here, which either loads or is given up. */
  lemma Begun<S(!new)>(a: Adapter<S>, me: WorkerId, done: seq<Step>, id: nat, sid: Sid, found: bool)
    requires RoundTrips(a) && id !in Run(a, done).attempts && sid in Run(a, done).clients
    requires Run(a, done).clients[sid].waiting.Some?
    requires var s := Run(a, done);
             var ref := s.clients[sid].waiting.value.ref;
             found && ref.Some? ==> Place(me, ref.value) in s.hot || ref.value in s.tier
    ensures var s, s' := Run(a, done), Run(a, done + [Start(id, me, sid)] + [if found then Load(id) else Abandon(id)]);
            var request := s.clients[sid].waiting.value;
            && s'.tier == s.tier && s'.meaning == s.meaning
            && (found ==>
                  && id in s'.attempts && s'.attempts == s.attempts[id := s'.attempts[id]]
                  && s'.attempts[id].phase.Loaded?
                  && s'.attempts[id].worker == me && s'.attempts[id].request == request
                  && s'.hot == s.hot - (if request.ref.Some? then {Place(me, request.ref.value)} else {}))
            && (!found ==> s'.attempts == s.attempts && s'.hot == s.hot)
  {
    hide DoLoad, RoundTrips, TierMeans, HotMeans, AttemptsMean, ClientsMean, MeaningBounded, Run;
    var start := done + [Start(id, me, sid)];
    RunSnoc(a, done, Start(id, me, sid));
    if found {
      RunsRight(a, start);
      RunSnoc(a, start, Load(id));
      LoadFinds(a, Run(a, start), id, me, Run(a, done).clients[sid].waiting.value);
    } else {
      RunSnoc(a, start, Abandon(id));
    }
  }

  method BeginMove<S(!new)>(w: Worker<S>, me: WorkerId, done: seq<Step>, id: nat, sid: Sid)
    returns (done': seq<Step>)
    requires w.Valid() && Mirrors(w, Run(w.a, done), me)
    requires id !in Run(w.a, done).attempts && sid in Run(w.a, done).clients
    requires Run(w.a, done).clients[sid].waiting.Some?
    modifies w, w.states
    ensures w.Valid() && fresh(w.states - old(w.states)) && Mirrors(w, Run(w.a, done'), me)
  {
    hide Inv, Run, Indexed, FiledMean, HeldMean, BlobsMean, Sensible, RoundTrips;
    var request := Run(w.a, done).clients[sid].waiting.value;
    RunsRight(w.a, done);
    AskedSensible(w.a, Run(w.a, done), sid);
    assert id !in w.running;
    var found := w.Load(id, request);
    done' := done + [Start(id, me, sid)] + [if found then Load(id) else Abandon(id)];
    Begun(w.a, me, done, id, sid, found);
  }

  method InferMove<S(!new)>(w: Worker<S>, me: WorkerId, done: seq<Step>, id: nat) returns (done': seq<Step>)
    requires w.Valid() && Mirrors(w, Run(w.a, done), me) && id in w.running && w.running[id].stage == Ready
    modifies w`running, w.running[id].state`value
    ensures w.Valid() && Mirrors(w, Run(w.a, done'), me)
  {
    hide Run, Indexed, FiledMean, HeldMean, BlobsMean, Sensible, RoundTrips, Reply, Base;
    done' := done + [Step.Infer(id)];
    RunSnoc(w.a, done, Step.Infer(id));
    assert Follows(w.running[id], Run(w.a, done).attempts, id, me);
    w.RunInference(id);
  }

  method FailMove<S(!new)>(w: Worker<S>, me: WorkerId, done: seq<Step>, id: nat) returns (done': seq<Step>)
    requires w.Valid() && Mirrors(w, Run(w.a, done), me) && id in w.running
    modifies w`running
    ensures w.Valid() && Mirrors(w, Run(w.a, done'), me)
  {
    hide Run, Indexed, FiledMean, HeldMean, BlobsMean, Sensible, RoundTrips;
    done' := done + [Abandon(id)];
    RunSnoc(w.a, done, Abandon(id));
    w.Drop(id);
  }

  method EvictMove<S(!new)>(w: Worker<S>, me: WorkerId, done: seq<Step>, ref: Ref) returns (done': seq<Step>)
    requires w.Valid() && Mirrors(w, Run(w.a, done), me)
    modifies w`hot, w`order
    ensures w.Valid() && Mirrors(w, Run(w.a, done'), me)
  {
    hide Run, Indexed, FiledMean, HeldMean, BlobsMean, Sensible, RoundTrips;
    done' := done + [Step.Forget(me, ref)];
    RunSnoc(w.a, done, Step.Forget(me, ref));
    w.Forget(ref);
  }

  /** Entries dropped for room are entries forgotten. */
  method Dropped<S>(a: Adapter<S>, done: seq<Step>, me: WorkerId, gone: set<Ref>)
    returns (done': seq<Step>)
    ensures Run(a, done') == Run(a, done).(hot := Run(a, done').hot)
    ensures Run(a, done').hot == map p | p in Run(a, done).hot && !(p.worker == me && p.ref in gone)
                                     :: Run(a, done).hot[p]
    decreases |gone|
  {
    if gone == {} {
      done' := done;
    } else {
      hide Run;
      var ref :| ref in gone;
      var step := Step.Forget(me, ref);
      RunSnoc(a, done, step);
      done' := Dropped(a, done + [step], me, gone - {ref});
    }
  }

  /** The version is published, whether or not its answer comes back. */
  lemma Published<S(!new)>(a: Adapter<S>, done: seq<Step>, id: nat)
    requires RoundTrips(a) && id in Run(a, done).attempts
    requires Run(a, done).attempts[id].phase.Inferred? && Run(a, done).attempts[id].request.sink.Some?
    ensures var s, s' := Run(a, done), Run(a, done + [Publish(id)]);
            var sink := s.attempts[id].request.sink.value;
            && sink in s.meaning && s'.meaning == s.meaning && s'.hot == s.hot
            && s'.tier == (if sink in s.tier then s.tier else s.tier[sink := a.serialize(s.meaning[sink])])
            && id in s'.attempts && s'.attempts == s.attempts[id := s'.attempts[id]]
            && s'.attempts[id]
               == s.attempts[id].(phase := Phase.Published(s.attempts[id].phase.state, s.attempts[id].phase.text))
  {
    hide Run, RoundTrips, AttemptMeans;
    RunSnoc(a, done, Publish(id));
    RunsRight(a, done);
    StoresMeaning(a, Run(a, done), Run(a, done).attempts[id]);
  }

  lemma KeptHot<S>(a: Adapter<S>, done: seq<Step>, id: nat)
    requires id in Run(a, done).attempts
    requires Run(a, done).attempts[id].phase.Published? && Run(a, done).attempts[id].request.sink.Some?
    ensures var s, s' := Run(a, done), Run(a, done + [KeepHot(id)]);
            var place := Place(s.attempts[id].worker, s.attempts[id].request.sink.value);
            && s'.meaning == s.meaning && s'.tier == s.tier && s'.hot.Keys == s.hot.Keys + {place}
            && id in s'.attempts && s'.attempts == s.attempts[id := s'.attempts[id]]
            && s'.attempts[id] == s.attempts[id].(phase := Finished(s.attempts[id].phase.text))
  {
    hide Run;
    RunSnoc(a, done, KeepHot(id));
  }

  /** Published, then kept. */
  lemma Stored<S(!new)>(a: Adapter<S>, done: seq<Step>, id: nat)
    requires RoundTrips(a) && id in Run(a, done).attempts
    requires Run(a, done).attempts[id].phase.Inferred? && Run(a, done).attempts[id].request.sink.Some?
    ensures var s, s' := Run(a, done), Run(a, done + [Publish(id)] + [KeepHot(id)]);
            var sink := s.attempts[id].request.sink.value;
            && sink in s.meaning && s'.meaning == s.meaning
            && s'.hot.Keys == s.hot.Keys + {Place(s.attempts[id].worker, sink)}
            && s'.tier == (if sink in s.tier then s.tier else s.tier[sink := a.serialize(s.meaning[sink])])
            && id in s'.attempts && s'.attempts == s.attempts[id := s'.attempts[id]]
            && s'.attempts[id] == s.attempts[id].(phase := Finished(s.attempts[id].phase.text))
  {
    hide Run, RoundTrips;
    Published(a, done, id);
    KeptHot(a, done + [Publish(id)], id);
  }

  /** Published or not, the attempt is given up. */
  lemma Unheard<S(!new)>(a: Adapter<S>, done: seq<Step>, id: nat, reached: bool)
    requires RoundTrips(a) && id in Run(a, done).attempts
    requires Run(a, done).attempts[id].phase.Inferred? && Run(a, done).attempts[id].request.sink.Some?
    ensures var s, s' := Run(a, done), Run(a, done + (if reached then [Publish(id)] else []) + [Abandon(id)]);
            var sink := s.attempts[id].request.sink.value;
            && sink in s.meaning && s'.meaning == s.meaning && s'.hot == s.hot
            && s'.tier == (if !reached || sink in s.tier then s.tier else s.tier[sink := a.serialize(s.meaning[sink])])
            && s'.attempts == s.attempts - {id}
  {
    hide Run, RoundTrips;
    Published(a, done, id);
    assert done + [] == done;
    RunSnoc(a, done + if reached then [Publish(id)] else [], Abandon(id));
  }

  lemma FinishedText<S(!new)>(a: Adapter<S>, s: Sys<S>, id: nat, text: string)
    requires Inv(a, s) && id in s.attempts && s.attempts[id].phase.Finished?
    requires text == Reply(a, Base(a, s.meaning, s.attempts[id].request.ref), s.attempts[id].request)
    ensures s.attempts[id].phase == Finished(text)
  {
    hide Base, Reply, Sensible, TierMeans, HotMeans, ClientsMean, MeaningBounded;
    assert AttemptMeans(a, s.meaning, s.clients, s.attempts[id]);
  }

  /** Publish and reply. Whoever hears the answer hears it from a finished attempt. */
  method FinishMove<S(!new)>(w: Worker<S>, me: WorkerId, done: seq<Step>, id: nat)
    returns (done': seq<Step>, text: Option<string>)
    requires w.Valid() && Mirrors(w, Run(w.a, done), me) && id in w.running && w.running[id].stage.Ran?
    modifies w, w.states, w.tier`blobs
    ensures w.Valid() && w.states == old(w.states) && Mirrors(w, Run(w.a, done'), me)
    ensures text.Some? ==> id in Run(w.a, done').attempts
                           && Run(w.a, done').attempts[id].phase == Finished(text.value)
    ensures text.None? ==> id !in Run(w.a, done').attempts
  {
    hide Inv, Run, Indexed, FiledMean, HeldMean, BlobsMean, Sensible, RoundTrips, Reply, Base;
    var sink, keys := w.running[id].request.sink, w.hot.Keys;
    assert Follows(w.running[id], Run(w.a, done).attempts, id, me);
    text := w.Finish(id);
    if sink.None? {
      done' := done;
    } else if text.Some? {
      Stored(w.a, done, id);
      done' := Dropped(w.a, done + [Publish(id)] + [KeepHot(id)], me, keys + {sink.value} - w.hot.Keys);
    } else {
      var reached := sink.value in w.tier.blobs;
      Unheard(w.a, done, id, reached);
      done' := done + (if reached then [Publish(id)] else []) + [Abandon(id)];
    }
    if text.Some? {
      RunsRight(w.a, done');
      FinishedText(w.a, Run(w.a, done'), id, text.value);
    }
  }

  // ---- everyone else's steps ----

  /** A step that is not for this worker to take, and leaves its running attempts alone. */
  predicate Apart<S>(s: Sys<S>, step: Step, me: WorkerId, running: set<nat>) {
    match step
    case Open(_) => true
    case Push(_, _, _) => true
    case Flush(_) => true
    case GiveUp(_) => true
    case Lose(_) => true
    case Close(_) => true
    case Start(_, worker, _) => worker != me
    case Load(id) => id in s.attempts ==> s.attempts[id].worker != me
    case Infer(id) => id in s.attempts ==> s.attempts[id].worker != me
    case Publish(id) => id in s.attempts ==> s.attempts[id].worker != me
    case KeepHot(id) => id in s.attempts ==> s.attempts[id].worker != me
    case Answer(id) => id !in running
    case Abandon(id) => id !in running
    case Forget(worker, _) => worker != me
    case Crash(worker) => worker != me
  }

  lemma ApartLeaves<S>(a: Adapter<S>, s: Sys<S>, step: Step, me: WorkerId, running: set<nat>)
    requires Apart(s, step, me, running)
    requires forall id | id in running :: id in s.attempts && s.attempts[id].worker == me
    ensures forall id | id in running ::
              id in Next(a, s, step).attempts && Next(a, s, step).attempts[id] == s.attempts[id]
    ensures forall r :: Place(me, r) in Next(a, s, step).hot <==> Place(me, r) in s.hot
    ensures forall r | Place(me, r) in s.hot :: Next(a, s, step).hot[Place(me, r)] == s.hot[Place(me, r)]
  {
    hide Settled, Reply;
    if step.Open? || step.Push? || step.Flush? || step.GiveUp? {
      AsksOnly(a, s, step);
      hide Next;
    } else if step.Start? || step.Load? || step.Infer? || step.Publish? || step.KeepHot? {
      AttemptOnly(a, s, step, me);
      hide Next;
    } else {
      hide DoOpen, DoPush, DoFlush, DoGiveUp, DoStart, DoLoad, DoInfer, DoPublish, DoKeepHot;
    }
  }

  /** Another worker's attempt moves that attempt and that worker's cache. */
  lemma AttemptOnly<S>(a: Adapter<S>, s: Sys<S>, step: Step, me: WorkerId)
    requires step.Start? || step.Load? || step.Infer? || step.Publish? || step.KeepHot?
    requires Apart(s, step, me, {})
    ensures forall id | id in s.attempts && s.attempts[id].worker == me ::
              id in Next(a, s, step).attempts && Next(a, s, step).attempts[id] == s.attempts[id]
    ensures forall r :: Place(me, r) in Next(a, s, step).hot <==> Place(me, r) in s.hot
    ensures forall r | Place(me, r) in s.hot :: Next(a, s, step).hot[Place(me, r)] == s.hot[Place(me, r)]
  {
    hide Reply, DoOpen, DoPush, DoFlush, DoGiveUp, DoAnswer;
  }

  /** What a client asks for changes no attempt and no cache. */
  lemma AsksOnly<S>(a: Adapter<S>, s: Sys<S>, step: Step)
    requires step.Open? || step.Push? || step.Flush? || step.GiveUp?
    ensures Next(a, s, step).attempts == s.attempts && Next(a, s, step).hot == s.hot
  {
    hide MayWrite, Base;
  }

  lemma FiledStill<S(!new)>(hot: map<Ref, ModelState<S>>, states: set<ModelState<S>>, before: map<Ref, S>,
                            s: Sys<S>, me: WorkerId)
    requires FiledMean(hot, states, before) && HotMeans(s)
    requires forall r | r in hot :: Place(me, r) in s.hot && hot[r].value == s.hot[Place(me, r)]
    ensures FiledMean(hot, states, s.meaning)
  {
  }

  lemma HeldStill<S(!new)>(a: Adapter<S>, running: map<nat, Job<S>>, states: set<ModelState<S>>, before: map<Ref, S>,
                           s: Sys<S>, me: WorkerId)
    requires HeldMean(a, running, states, before) && AttemptsMean(a, s) && JobsFollow(running, s.attempts, me)
    requires forall id | id in running ::
               Shows(s.attempts[id].phase, running[id].request, running[id].stage, running[id].state.value)
    ensures HeldMean(a, running, states, s.meaning)
  {
    hide Sensible, Base, Reply;
    forall id | id in running
      ensures Sensible(a, s.meaning, SinkOwner(running[id].request), running[id].request)
      ensures StageMeans(a, s.meaning, running[id].request, running[id].stage, running[id].state.value)
    {
      assert AttemptMeans(a, s.meaning, s.clients, s.attempts[id]);
      OwnerSensible(a, s.meaning, s.attempts[id].sid, running[id].request);
    }
  }

  /** The rest of the fleet, the clients and the tier take a step. */
  method OtherMove<S(!new)>(w: Worker<S>, me: WorkerId, done: seq<Step>, step: Step) returns (done': seq<Step>)
    requires w.Valid() && Mirrors(w, Run(w.a, done), me)
    requires Apart(Run(w.a, done), step, me, w.running.Keys)
    modifies w.tier
    ensures w.Valid() && Mirrors(w, Run(w.a, done'), me)
  {
    hide Run, Indexed, FiledMean, HeldMean, Sensible, RoundTrips, Next, Apart, Shows, ClientsMean, MeaningBounded;
    hide AttemptsMean, HotMeans;
    ghost var s, before := Run(w.a, done), w.tier.meaning;
    done' := done + [step];
    RunsRight(w.a, done);
    RunsRight(w.a, done');
    RunSnoc(w.a, done, step);
    MirrorsAgree(w, s, me);
    ApartLeaves(w.a, s, step, me, w.running.Keys);
    w.tier.blobs, w.tier.meaning := Run(w.a, done').tier, Run(w.a, done').meaning;
    FiledStill(w.hot, w.states, before, Run(w.a, done'), me);
    HeldStill(w.a, w.running, w.states, before, Run(w.a, done'), me);
  }

  datatype Move =
    | Other(step: Step)
    | Begins(id: nat, sid: Sid)
    | Infers(id: nat)
    | Finishes(id: nat)
    | Fails(id: nat)
    | Evicts(ref: Ref)

  /** However a worker's moves and everyone else's steps interleave, what they leave on
      its heap is what some run of the step system leaves, so every session served on it
      heard what a single worker would have answered. */
  method Execute<S(!new)>(w: Worker<S>, me: WorkerId, moves: seq<Move>) returns (done: seq<Step>)
    requires w.Valid() && w.hot == map[] && w.running == map[]
    requires w.tier.blobs == map[] && w.tier.meaning == map[]
    modifies w, w.states, w.tier
    ensures w.Valid() && Mirrors(w, Run(w.a, done), me)
    ensures forall sid | sid in Run(w.a, done).clients :: Stateless.Faithful(w.a, Run(w.a, done).clients[sid].log)
  {
    hide Inv, Indexed, FiledMean, HeldMean, BlobsMean, RoundTrips, Run, Mirrors, Apart, Stateless.Faithful;
    done := [];
    EmptyMirrors(w, me);
    for i := 0 to |moves|
      invariant w.Valid() && fresh(w.states - old(w.states)) && Mirrors(w, Run(w.a, done), me)
    {
      var s := Run(w.a, done);
      match moves[i] {
        case Other(step) =>
          if Apart(s, step, me, w.running.Keys) {
            done := OtherMove(w, me, done, step);
          }
        case Begins(id, sid) =>
          if id !in s.attempts && sid in s.clients && s.clients[sid].waiting.Some? {
            done := BeginMove(w, me, done, id, sid);
          }
        case Infers(id) =>
          if id in w.running && w.running[id].stage == Ready {
            JobKnown(w.a, w.running, w.states, w.tier.meaning, id);
            done := InferMove(w, me, done, id);
          }
        case Finishes(id) =>
          if id in w.running && w.running[id].stage.Ran? {
            var text;
            done, text := FinishMove(w, me, done, id);
          }
        case Fails(id) =>
          if id in w.running {
            done := FailMove(w, me, done, id);
          }
        case Evicts(ref) => done := EvictMove(w, me, done, ref);
      }
    }
    forall sid | sid in Run(w.a, done).clients ensures Stateless.Faithful(w.a, Run(w.a, done).clients[sid].log) {
      PlacementIndependence(w.a, done, sid);
    }
  }

  lemma EmptyMirrors<S(!new)>(w: Worker<S>, me: WorkerId)
    requires w.hot == map[] && w.running == map[] && w.tier.blobs == map[] && w.tier.meaning == map[]
    ensures Mirrors(w, Run(w.a, []), me)
  {
  }
}

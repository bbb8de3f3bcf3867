/** A worker's hot cache of live, mutable states in front of the shared tier:
    worker/kvtier.py and run_stateful in worker/server.py.

    Inference updates its state object in place, so a cache that shared objects
    with it would file them under versions they no longer are. */
module HotCache {
  import opened Wrappers
  import opened Audio
  import opened Adapters
  import opened Recency
  import opened Stateless

  /** Where a state object is: in the hot cache, or with one inference. */
  datatype Home = Filed(ref: Ref) | Held(job: nat)

  class ModelState<S> {
    var value: S
    ghost var home: Home

    constructor (value: S, ghost home: Home)
      ensures this.value == value && this.home == home
    {
      this.value, this.home := value, home;
    }
  }

  datatype Stage = Ready | Ran(text: string)

  /** One request being served, with the object it works on. */
  datatype Job<S> = Job(request: Request, state: ModelState<S>, stage: Stage)

  /** Every blob is the serialization of what its version stands for. */
  ghost predicate BlobsMean<S>(a: Adapter<S>, blobs: map<Ref, Bytes>, meaning: map<Ref, S>) {
    forall r | r in blobs :: r in meaning && blobs[r] == a.serialize(meaning[r])
  }

  /** The state object of a job, by how far the job is. */
  ghost predicate StageMeans<S>(a: Adapter<S>, meaning: map<Ref, S>, request: Request, stage: Stage, value: S) {
    var base := Base(a, meaning, request.ref);
    match stage
    case Ready => value == base
    case Ran(text) => text == Reply(a, base, request) && (request.sink.Some? ==> value == a.infer(base, request.audio))
  }

  /** The shared tier as one worker sees it: between any two of this worker's
      accesses, peers may create versions and any version may vanish. */
  class SharedTier<S(!new)> {
    const a: Adapter<S>
    var blobs: map<Ref, Bytes>
    ghost var meaning: map<Ref, S>

    constructor (a: Adapter<S>)
      ensures this.a == a && blobs == map[]
    {
      this.a, blobs, meaning := a, map[], map[];
    }

    ghost predicate Valid()
      reads this
    {
      RoundTrips(a) && BlobsMean(a, blobs, meaning)
    }

    method Fetch(ref: Ref) returns (blob: Option<Bytes>)
      requires Valid()
      ensures blob.Some? ==> ref in blobs && blob.value == blobs[ref]
    {
      var reachable: bool := *;
      blob := if reachable && ref in blobs then Some(blobs[ref]) else None;
    }

    /** Create-only: an existing version counts as success. A version may be created
        although the answer is lost. */
    method Create(ref: Ref, blob: Bytes) returns (ok: bool)
      requires Valid() && ref in meaning && blob == a.serialize(meaning[ref])
      modifies this`blobs
      ensures Valid() && (ok ==> ref in blobs)
      ensures blobs == old(blobs) || (ref !in old(blobs) && blobs == old(blobs)[ref := blob])
    {
      var reached: bool, heard: bool := *, *;
      if reached && ref !in blobs {
        blobs := blobs[ref := blob];
      }
      ok := reached && heard;
    }

    /** What peers, eviction and expiry may do between two accesses. */
    method Elapse(peers: map<Ref, Bytes>)
      requires Valid() && BlobsMean(a, peers, meaning)
      modifies this`blobs
      ensures Valid()
    {
      var gone: set<Ref> := *;
      blobs := blobs - gone + peers;
    }
  }

  /** The cache's own bookkeeping. */
  ghost predicate Indexed<S(!new)>(hot: map<Ref, ModelState<S>>, order: seq<Ref>) {
    NoDup(order) && forall r :: r in order <==> r in hot
  }

  /** Filed objects hold what their version stands for. */
  ghost predicate FiledMean<S(!new)>(hot: map<Ref, ModelState<S>>, states: set<ModelState<S>>, meaning: map<Ref, S>)
    reads states
  {
    forall r | r in hot :: hot[r] in states && hot[r].home == Filed(r) && r in meaning && hot[r].value == meaning[r]
  }

  /** Held objects belong to exactly one inference, and hold its progress. */
  ghost predicate HeldMean<S(!new)>(a: Adapter<S>, running: map<nat, Job<S>>, states: set<ModelState<S>>,
                                    meaning: map<Ref, S>)
    reads states
  {
    forall j | j in running ::
      && running[j].state in states && running[j].state.home == Held(j)
      && Sensible(a, meaning, SinkOwner(running[j].request), running[j].request)
      && StageMeans(a, meaning, running[j].request, running[j].stage, running[j].state.value)
  }

  class Worker<S(!new)> {
    const a: Adapter<S>
    const tier: SharedTier<S>
    const hotMax: nat
    var hot: map<Ref, ModelState<S>>
    var order: seq<Ref>                  // most recently stored first
    var running: map<nat, Job<S>>
    ghost var states: set<ModelState<S>> // every state object this worker made

    ghost predicate Valid()
      reads this, states, tier
    {
      && tier.a == a && tier.Valid()
      && Indexed(hot, order) && |order| <= hotMax
      && FiledMean(hot, states, tier.meaning)
      && HeldMean(a, running, states, tier.meaning)
    }

    constructor (tier: SharedTier<S>, hotMax: nat)
      requires tier.Valid()
      ensures this.tier == tier && this.hotMax == hotMax && a == tier.a
      ensures Valid() && hot == map[] && running == map[] && states == {}
    {
      a, this.tier, this.hotMax := tier.a, tier, hotMax;
      hot, order, running, states := map[], [], map[], {};
    }

    /** Take, never peek: what inference is about to change leaves the cache. */
    method HotTake(ref: Ref) returns (st: Option<ModelState<S>>)
      requires Valid()
      modifies this`hot, this`order
      ensures Valid()
      ensures st == if ref in old(hot) then Some(old(hot)[ref]) else None
      ensures hot == old(hot) - {ref} && order == Without(old(order), ref)
    {
      hide HeldMean, NoDup, Without, BlobsMean;
      WithoutNoDup(order, ref);
      if ref in hot {
        st := Some(hot[ref]);
        hot := hot - {ref};
        order := Without(order, ref);
      } else {
        st := None;
        WithoutAbsent(order, ref);
      }
    }

    /** Drop the least recently stored entries until the cache is in bounds. */
    method DropOldest()
      requires Indexed(hot, order)
      modifies this`hot, this`order
      ensures Indexed(hot, order) && |order| <= hotMax
      ensures order == old(order)[..if |old(order)| <= hotMax then |old(order)| else hotMax]
      ensures forall r | r in hot :: r in old(hot) && hot[r] == old(hot)[r]
    {
      hide Indexed;
      ghost var full := order;
      assert full[..|full|] == full;
      while |order| > hotMax
        invariant |order| <= |full| && order == full[..|order|]
        invariant |order| == |full| || |order| >= hotMax
        invariant Indexed(hot, order)
        invariant forall r | r in hot :: r in old(hot) && hot[r] == old(hot)[r]
      {
        DropIndexed(hot, order);
        PrefixOfPrefix(full, |order|);
        var oldest := order[|order| - 1];
        hot := hot - {oldest};
        order := order[..|order| - 1];
      }
    }

    /** File a finished state under the version it has become. */
    method HotPut(ref: Ref, st: ModelState<S>)
      requires Valid() && st in states && ref in tier.meaning && st.value == tier.meaning[ref]
      requires st.home.Held? && st.home.job !in running
      modifies this`hot, this`order, st`home
      ensures Valid() && st.home == Filed(ref)
      ensures var full := Touch(old(order), ref);
              order == full[..if |full| <= hotMax then |full| else hotMax]
      ensures forall r | r in hot :: if r == ref then hot[r] == st else r in old(hot) && hot[r] == old(hot)[r]
    {
      hide BlobsMean, NoDup, Touch, Sensible, StageMeans, Indexed;
      PutIndexed(hot, order, ref, st);
      HeldElsewhere(a, running, states, tier.meaning, st);
      st.home := Filed(ref);
      hot := hot[ref := st];
      order := Touch(order, ref);
      assert HeldMean(a, running, states, tier.meaning);
      assert FiledMean(hot, states, tier.meaning);
      hide HeldMean;
      DropOldest();
    }

    /** Give an object nobody holds to one new inference. */
    method Hold(j: nat, request: Request, st: ModelState<S>)
      requires Valid() && j !in running && Sensible(a, tier.meaning, SinkOwner(request), request)
      requires st in states && st.value == Base(a, tier.meaning, request.ref)
      requires st.home == Held(j) || (st.home.Filed? && st.home.ref !in hot)
      modifies this`running, st`home
      ensures Valid() && running == old(running)[j := Job(request, st, Ready)]
    {
      hide BlobsMean, Sensible, Base, Indexed;
      HeldElsewhere(a, running, states, tier.meaning, st);
      FiledElsewhere(hot, states, tier.meaning, st);
      st.home := Held(j);
      assert FiledMean(hot, states, tier.meaning);
      hide FiledMean;
      running := running[j := Job(request, st, Ready)];
    }

    /** Take a new object into the books. */
    method Adopt(value: S, j: nat) returns (st: ModelState<S>)
      requires Valid()
      modifies this`states
      ensures Valid() && fresh(st) && states == old(states) + {st} && st.value == value && st.home == Held(j)
    {
      hide BlobsMean, Sensible, StageMeans, Indexed;
      st := new ModelState(value, Held(j));
      states := states + {st};
    }

    /** tier.load: the hot entry if there is one, else the tier's bytes, else no
        state at all. Fetched states stay out of the cache: the run will change them. */
    method Load(j: nat, request: Request) returns (ok: bool)
      requires Valid() && j !in running && Sensible(a, tier.meaning, SinkOwner(request), request)
      modifies this, states
      ensures Valid() && fresh(states - old(states))
      ensures !ok ==> running == old(running)
      ensures ok ==> j in running && running == old(running)[j := running[j]]
      ensures ok ==> running[j].request == request && running[j].stage == Ready
      ensures hot.Keys == old(hot.Keys) - if request.ref.Some? then {request.ref.value} else {}
      ensures !ok ==> request.ref.Some? && request.ref.value !in old(hot)
      ensures ok && request.ref.Some? ==> request.ref.value in old(hot) || request.ref.value in tier.blobs
    {
      hide Indexed, HeldMean, FiledMean, NoDup, Without, StageMeans;
      if request.ref.None? {
        var st := Adopt(a.initial, j);
        Hold(j, request, st);
        return true;
      }
      FiledKnown(hot, states, tier.meaning, request.ref.value);
      var local := HotTake(request.ref.value);
      if local.Some? {
        Hold(j, request, local.value);
        return true;
      }
      var blob := tier.Fetch(request.ref.value);
      if blob.None? || a.deserialize(blob.value).None? {
        return false;
      }
      var st := Adopt(a.deserialize(blob.value).value, j);
      Hold(j, request, st);
      ok := true;
    }

    /** infer changes the job's own object, whatever else is cached or running. */
    method RunInference(j: nat)
      requires Valid() && j in running && running[j].stage == Ready
      modifies this`running, running[j].state`value
      ensures Valid()
      ensures j in running && running[j].stage.Ran?
      ensures running == old(running)[j := old(running)[j].(stage := running[j].stage)]
      ensures running[j].stage.text == Reply(a, Base(a, tier.meaning, running[j].request.ref), running[j].request)
    {
      var st, request := running[j].state, running[j].request;
      HeldApart(a, running, states, tier.meaning, j);
      HeldNotFiled(a, running, hot, states, tier.meaning, j);
      hide BlobsMean, Sensible, Indexed;
      var text := Reply(a, st.value, request);
      st.value := a.infer(st.value, request.audio);
      if request.sink.None? {
        st.value := a.reset(st.value);
      }
      assert FiledMean(hot, states, tier.meaning);
      hide FiledMean;
      running := running[j := Job(request, st, Ran(text))];
    }

    /** An inference that errors out takes its object with it. */
    method Drop(j: nat)
      requires Valid()
      modifies this`running
      ensures Valid() && running == old(running) - {j}
    {
      hide BlobsMean, Sensible, StageMeans, Indexed, FiledMean;
      running := running - {j};
    }

    /** tier.store and the reply: publish first, and only then file the object. */
    method Finish(j: nat) returns (text: Option<string>)
      requires Valid() && j in running && running[j].stage.Ran?
      modifies this, states, tier`blobs
      ensures Valid() && states == old(states) && tier.meaning == old(tier.meaning)
      ensures running == old(running) - {j}
      ensures var sink := old(running)[j].request.sink;
              && (text.None? || sink.None? ==> hot == old(hot))
              && (text.Some? && sink.Some? ==> hot.Keys <= old(hot.Keys) + {sink.value} && sink.value in tier.blobs)
              && (if sink.None? then tier.blobs == old(tier.blobs)
                  else tier.blobs == old(tier.blobs)
                       || (sink.value !in old(tier.blobs) && sink.value in tier.meaning
                           && tier.blobs == old(tier.blobs)[sink.value := a.serialize(tier.meaning[sink.value])]))
              && (sink.None? ==> text.Some?)
      ensures var request := old(running)[j].request;
              text.Some? ==> text.value == Reply(a, Base(a, tier.meaning, request.ref), request)
    {
      hide Indexed, FiledMean, BlobsMean, Base, Reply;
      var job := running[j];
      JobKnown(a, running, states, tier.meaning, j);
      Drop(j);
      if job.request.sink.Some? {
        var ok := tier.Create(job.request.sink.value, a.serialize(job.state.value));
        if !ok {
          return None;
        }
        hide HeldMean;
        HotPut(job.request.sink.value, job.state);
      }
      text := Some(job.stage.text);
    }

    /** run_stateful, with nothing else happening in between. */
    method RunStateful(j: nat, request: Request) returns (text: Option<string>)
      requires Valid() && j !in running && Sensible(a, tier.meaning, SinkOwner(request), request)
      modifies this, states, tier`blobs
      ensures Valid() && fresh(states - old(states)) && tier.meaning == old(tier.meaning)
      ensures running == old(running)
      ensures text.Some? ==> text.value == Reply(a, Base(a, tier.meaning, request.ref), request)
    {
      hide Indexed, FiledMean, HeldMean, BlobsMean, Base, Reply, Sensible;
      var ok := Load(j, request);
      if !ok {
        return None;
      }
      JobKnown(a, running, states, tier.meaning, j);
      RunInference(j);
      text := Finish(j);
    }

    method Forget(ref: Ref)
      requires Valid()
      modifies this`hot, this`order
      ensures Valid() && hot == old(hot) - {ref}
    {
      var st := HotTake(ref);
    }
  }

  datatype Event =
    | Begin(job: nat, request: Request)
    | Infer(job: nat)
    | Finish(job: nat)
    | Fail(job: nat)
    | Evict(ref: Ref)
    | Elsewhere(peers: map<Ref, Bytes>)

  /** What the schedule asks for makes sense under the meaning of versions, and
      what peers publish is honest. */
  ghost predicate Fair<S(!new)>(a: Adapter<S>, meaning: map<Ref, S>, e: Event) {
    && (e.Begin? ==> Sensible(a, meaning, SinkOwner(e.request), e.request))
    && (e.Elsewhere? ==> BlobsMean(a, e.peers, meaning))
  }

  datatype Answered = Answered(request: Request, text: string)

  /** Any interleaving of any number of inferences with evictions and with the
      rest of the fleet: every filed object still is the version it is filed
      under, no running object is filed, and every answer is the one its
      reference calls for. */
  method Interleave<S(!new)>(w: Worker<S>, schedule: seq<Event>) returns (log: seq<Answered>)
    requires w.Valid() && w.running == map[]
    requires forall i | 0 <= i < |schedule| :: Fair(w.a, w.tier.meaning, schedule[i])
    modifies w, w.states, w.tier`blobs
    ensures w.Valid()
    ensures forall i | 0 <= i < |log| ::
              log[i].text == Reply(w.a, Base(w.a, w.tier.meaning, log[i].request.ref), log[i].request)
    ensures forall j, r | j in w.running && r in w.hot :: w.running[j].state != w.hot[r]
  {
    hide Indexed, FiledMean, HeldMean, BlobsMean, Base, Reply, Sensible;
    log := [];
    for i := 0 to |schedule|
      invariant w.Valid() && fresh(w.states - old(w.states)) && w.tier.meaning == old(w.tier.meaning)
      invariant forall k | 0 <= k < |log| ::
                  log[k].text == Reply(w.a, Base(w.a, w.tier.meaning, log[k].request.ref), log[k].request)
    {
      match schedule[i] {
        case Begin(j, request) =>
          if j !in w.running {
            assert Fair(w.a, w.tier.meaning, schedule[i]);
            var ok := w.Load(j, request);
          }
        case Infer(j) =>
          if j in w.running && w.running[j].stage == Ready {
            JobKnown(w.a, w.running, w.states, w.tier.meaning, j);
            w.RunInference(j);
          }
        case Finish(j) =>
          if j in w.running && w.running[j].stage.Ran? {
            var request := w.running[j].request;
            var text := w.Finish(j);
            if text.Some? {
              log := log + [Answered(request, text.value)];
            }
          }
        case Fail(j) => w.Drop(j);
        case Evict(ref) => w.Forget(ref);
        case Elsewhere(peers) =>
          assert Fair(w.a, w.tier.meaning, schedule[i]);
          w.tier.Elapse(peers);
      }
    }
    forall j | j in w.running ensures forall r | r in w.hot :: w.running[j].state != w.hot[r] {
      HeldNotFiled(w.a, w.running, w.hot, w.states, w.tier.meaning, j);
    }
  }

  lemma JobKnown<S(!new)>(a: Adapter<S>, running: map<nat, Job<S>>, states: set<ModelState<S>>, meaning: map<Ref, S>,
                          j: nat)
    requires HeldMean(a, running, states, meaning) && j in running
    ensures var job := running[j];
            && job.state in states && job.state.home == Held(j)
            && (job.stage.Ran? ==> job.stage.text == Reply(a, Base(a, meaning, job.request.ref), job.request))
            && (job.stage.Ran? && job.request.sink.Some?
                ==> job.request.sink.value in meaning && job.state.value == meaning[job.request.sink.value])
  {
  }

  lemma FiledElsewhere<S(!new)>(hot: map<Ref, ModelState<S>>, states: set<ModelState<S>>, meaning: map<Ref, S>,
                                st: ModelState<S>)
    requires FiledMean(hot, states, meaning)
    requires st.home.Filed? ==> st.home.ref !in hot
    ensures forall r | r in hot :: hot[r] != st
  {
  }

  lemma FiledKnown<S(!new)>(hot: map<Ref, ModelState<S>>, states: set<ModelState<S>>, meaning: map<Ref, S>, r: Ref)
    requires FiledMean(hot, states, meaning)
    ensures r in hot ==> hot[r] in states && hot[r].home == Filed(r) && r in meaning && hot[r].value == meaning[r]
  {
  }

  lemma HeldApart<S(!new)>(a: Adapter<S>, running: map<nat, Job<S>>, states: set<ModelState<S>>, meaning: map<Ref, S>,
                           j: nat)
    requires HeldMean(a, running, states, meaning) && j in running
    ensures running[j].state in states
    ensures forall i | i in running && i != j :: running[i].state != running[j].state
  {
    hide Sensible, StageMeans;
  }

  /** No object an inference holds can be reached from the cache. */
  lemma HeldNotFiled<S(!new)>(a: Adapter<S>, running: map<nat, Job<S>>, hot: map<Ref, ModelState<S>>,
                              states: set<ModelState<S>>, meaning: map<Ref, S>, j: nat)
    requires HeldMean(a, running, states, meaning) && FiledMean(hot, states, meaning) && j in running
    ensures forall r | r in hot :: hot[r] != running[j].state
  {
    hide Sensible, StageMeans;
  }

  lemma PrefixOfPrefix<K>(full: seq<K>, n: nat)
    requires 0 < n <= |full|
    ensures full[..n][..n-1] == full[..n-1]
  {
  }

  lemma PutIndexed<S(!new)>(hot: map<Ref, ModelState<S>>, order: seq<Ref>, ref: Ref, st: ModelState<S>)
    requires Indexed(hot, order)
    ensures Indexed(hot[ref := st], Touch(order, ref))
  {
    TouchNoDup(order, ref);
  }

  lemma DropIndexed<S(!new)>(hot: map<Ref, ModelState<S>>, order: seq<Ref>)
    requires Indexed(hot, order) && order != []
    ensures Indexed(hot - {order[|order|-1]}, order[..|order|-1])
  {
    hide NoDup;
    PrefixNoDup(order, |order| - 1);
    assert order == order[..|order|-1] + [order[|order|-1]];
  }

  /** The session whose version a request writes. */
  function SinkOwner(request: Request): Sid {
    if request.sink.Some? then request.sink.value.sid else ""
  }

  /** An object no running job holds can change hands without disturbing one. */
  lemma HeldElsewhere<S(!new)>(a: Adapter<S>, running: map<nat, Job<S>>, states: set<ModelState<S>>,
                               meaning: map<Ref, S>, st: ModelState<S>)
    requires HeldMean(a, running, states, meaning)
    requires st.home.Held? ==> st.home.job !in running
    ensures forall j | j in running :: running[j].state != st
  {
  }
}

/** Streaming over the shared tier: internal/backend/stateless.go, the load
    and store of worker/kvtier.py, and run_stateful of worker/server.py.

    Any number of attempts at a request run on any workers, at any speed;
    versions may vanish and workers may die at any point. */
module Stateless {
  import opened Wrappers
  import opened Audio
  import opened Adapters

  type Sid = string
  type WorkerId = nat

  /** One immutable version of one session's state. */
  datatype Ref = Ref(sid: Sid, version: nat)

  /** A push names the version it writes; a final names none. */
  datatype Request = Request(ref: Option<Ref>, sink: Option<Ref>, audio: Bytes)

  // ---- what a caller observes, and the worker it should look like ----

  datatype Call =
    | Opened
    | Pushed(seqEnd: nat, audio: Bytes, text: string)
    | Flushed(text: string)

  /** A single stateful worker serving a single session. */
  datatype Local<S> = Local(state: S, applied: nat, text: string)

  function Serve<S>(a: Adapter<S>, l: Local<S>, call: Call): Local<S> {
    match call
    case Opened => Local(a.initial, 0, "")
    case Pushed(seqEnd, audio, _) =>
      if seqEnd <= l.applied then l else Local(a.infer(l.state, audio), seqEnd, a.delta(l.state, audio))
    case Flushed(_) => l
  }

  /** Whether the call's answer is the one that worker would have given. */
  predicate Right<S>(a: Adapter<S>, l: Local<S>, call: Call) {
    match call
    case Opened => true
    case Pushed(seqEnd, audio, text) =>
      text == if seqEnd <= l.applied then l.text else a.delta(l.state, audio)
    case Flushed(text) => text == a.finalize(a.infer(l.state, []))
  }

  function Served<S>(a: Adapter<S>, calls: seq<Call>): Local<S> {
    if calls == [] then Local(a.initial, 0, "")
    else Serve(a, Served(a, calls[..|calls|-1]), calls[|calls|-1])
  }

  predicate Faithful<S>(a: Adapter<S>, calls: seq<Call>) {
    calls == [] ||
    (Faithful(a, calls[..|calls|-1]) && Right(a, Served(a, calls[..|calls|-1]), calls[|calls|-1]))
  }

  lemma CallSnoc<S>(a: Adapter<S>, calls: seq<Call>, call: Call)
    ensures Served(a, calls + [call]) == Serve(a, Served(a, calls), call)
    ensures Faithful(a, calls + [call]) == (Faithful(a, calls) && Right(a, Served(a, calls), call))
  {
    assert (calls + [call])[..|calls|] == calls;
  }

  // ---- the system ----

  /** The client's counter, and the newest version it ever named. */
  datatype Mark = Mark(applied: nat, highest: nat)

  /** A push answered without a call, or one that writes a new version. */
  predicate Fine(m: Mark, n: nat) { n <= m.applied || n > m.highest }

  function Named(m: Mark, n: nat): Mark {
    if n <= m.applied then m else Mark(n, if n > m.highest then n else m.highest)
  }

  /** StatelessClient, with the call it is waiting on. highest is the newest
      version it ever asked to write; log records what it was answered. */
  datatype Client = Client(applied: nat, text: string, call: nat, waiting: Option<Request>,
                           latest: Option<Request>, highest: nat, log: seq<Call>)

  datatype Phase<S> =
    | Waiting
    | Loaded(state: S)
    | Inferred(state: S, text: string)
    | Published(state: S, text: string)
    | Finished(text: string)

  datatype Attempt<S> = Attempt(worker: WorkerId, sid: Sid, call: nat, request: Request, phase: Phase<S>)

  datatype Place = Place(worker: WorkerId, ref: Ref)

  /** meaning is a history variable: the state each version stands for, fixed
      when a push first names it. No step reads it. */
  datatype Sys<S> = Sys(clients: map<Sid, Client>, attempts: map<nat, Attempt<S>>,
                        tier: map<Ref, Bytes>, hot: map<Place, S>, meaning: map<Ref, S>)

  datatype Step =
    | Open(sid: Sid)
    | Push(sid: Sid, seqEnd: nat, audio: Bytes)
    | Flush(sid: Sid)
    | Start(id: nat, worker: WorkerId, sid: Sid)   // one more attempt at the outstanding request
    | Load(id: nat)
    | Infer(id: nat)
    | Publish(id: nat)
    | KeepHot(id: nat)
    | Answer(id: nat)
    | GiveUp(sid: Sid)                             // every attempt the client hears of has failed
    | Abandon(id: nat)                             // an attempt errors out
    | Forget(worker: WorkerId, ref: Ref)           // hot cache eviction
    | Lose(ref: Ref)                               // retired, evicted or expired in the tier
    | Close(sid: Sid)                              // prefix delete
    | Crash(worker: WorkerId)

  function CurrentRef(sid: Sid, c: Client): Option<Ref> {
    if c.applied > 0 then Some(Ref(sid, c.applied)) else None
  }

  /** The state a request starts from, by what its reference stands for. */
  function Base<S>(a: Adapter<S>, meaning: map<Ref, S>, ref: Option<Ref>): S {
    if ref.Some? && ref.value in meaning then meaning[ref.value] else a.initial
  }

  function Reply<S>(a: Adapter<S>, st: S, request: Request): string {
    if request.sink.Some? then a.delta(st, request.audio) else a.finalize(a.infer(st, request.audio))
  }

  /** The session loop's discipline: a new push writes above every version ever
      asked for, unless it repeats the last request exactly. */
  predicate MayWrite(c: Client, request: Request, seqEnd: nat) {
    seqEnd > c.highest || c.latest == Some(request)
  }

  function DoOpen<S>(s: Sys<S>, sid: Sid): Sys<S> {
    if sid !in s.clients then
      s.(clients := s.clients[sid := Client(0, "", 0, None, None, 0, [Opened])])
    else
      var c := s.clients[sid];
      if c.waiting.Some? then s
      else s.(clients := s.clients[sid := c.(applied := 0, text := "", log := c.log + [Opened])])
  }

  function DoPush<S>(a: Adapter<S>, s: Sys<S>, sid: Sid, seqEnd: nat, audio: Bytes): Sys<S> {
    if sid !in s.clients || s.clients[sid].waiting.Some? then s
    else
      var c := s.clients[sid];
      if seqEnd <= c.applied then
        s.(clients := s.clients[sid := c.(log := c.log + [Pushed(seqEnd, audio, c.text)])])
      else
        var request := Request(CurrentRef(sid, c), Some(Ref(sid, seqEnd)), audio);
        if !MayWrite(c, request, seqEnd) then s
        else
          s.(clients := s.clients[sid := c.(call := c.call + 1, waiting := Some(request), latest := Some(request),
                                            highest := if seqEnd > c.highest then seqEnd else c.highest)],
             meaning := s.meaning[Ref(sid, seqEnd) := a.infer(Base(a, s.meaning, request.ref), audio)])
  }

  function DoFlush<S>(s: Sys<S>, sid: Sid): Sys<S> {
    if sid !in s.clients || s.clients[sid].waiting.Some? then s
    else
      var c := s.clients[sid];
      s.(clients := s.clients[sid := c.(call := c.call + 1, waiting := Some(Request(CurrentRef(sid, c), None, [])))])
  }

  function DoStart<S>(s: Sys<S>, id: nat, worker: WorkerId, sid: Sid): (r: Sys<S>)
    ensures r.clients == s.clients
  {
    if id in s.attempts || sid !in s.clients || s.clients[sid].waiting.None? then s
    else
      var c := s.clients[sid];
      s.(attempts := s.attempts[id := Attempt(worker, sid, c.call, c.waiting.value, Waiting)])
  }

  /** A hot entry is taken, never shared; otherwise the tier's bytes are decoded;
      a version found nowhere ends the attempt. */
  function DoLoad<S>(a: Adapter<S>, s: Sys<S>, id: nat): (r: Sys<S>)
    ensures r.clients == s.clients
  {
    if id !in s.attempts || !s.attempts[id].phase.Waiting? then s
    else
      var t := s.attempts[id];
      if t.request.ref.None? then s.(attempts := s.attempts[id := t.(phase := Loaded(a.initial))])
      else
        var place := Place(t.worker, t.request.ref.value);
        if place in s.hot then
          s.(attempts := s.attempts[id := t.(phase := Loaded(s.hot[place]))], hot := s.hot - {place})
        else if place.ref in s.tier && a.deserialize(s.tier[place.ref]).Some? then
          s.(attempts := s.attempts[id := t.(phase := Loaded(a.deserialize(s.tier[place.ref]).value))])
        else
          s.(attempts := s.attempts - {id})
  }

  function DoInfer<S>(a: Adapter<S>, s: Sys<S>, id: nat): (r: Sys<S>)
    ensures r.clients == s.clients
  {
    if id !in s.attempts || !s.attempts[id].phase.Loaded? then s
    else
      var t := s.attempts[id];
      var text := Reply(a, t.phase.state, t.request);
      s.(attempts := s.attempts[id := t.(phase := if t.request.sink.None? then Finished(text)
                                                  else Inferred(a.infer(t.phase.state, t.request.audio), text))])
  }

  /** Create-only: an existing version is confirmation, not failure. */
  function DoPublish<S>(a: Adapter<S>, s: Sys<S>, id: nat): (r: Sys<S>)
    ensures r.clients == s.clients
  {
    if id !in s.attempts || !s.attempts[id].phase.Inferred? || s.attempts[id].request.sink.None? then s
    else
      var t := s.attempts[id];
      var sink := t.request.sink.value;
      s.(attempts := s.attempts[id := t.(phase := Published(t.phase.state, t.phase.text))],
         tier := if sink in s.tier then s.tier else s.tier[sink := a.serialize(t.phase.state)])
  }

  function DoKeepHot<S>(s: Sys<S>, id: nat): (r: Sys<S>)
    ensures r.clients == s.clients
  {
    if id !in s.attempts || !s.attempts[id].phase.Published? || s.attempts[id].request.sink.None? then s
    else
      var t := s.attempts[id];
      s.(attempts := s.attempts[id := t.(phase := Finished(t.phase.text))],
         hot := s.hot[Place(t.worker, t.request.sink.value) := t.phase.state])
  }

  /** The client once its call has an answer. */
  function Settled(c: Client, request: Request, text: string): (r: Client)
    ensures r.call == c.call && r.waiting.None? && r.highest == c.highest
  {
    match request.sink
    case None => c.(waiting := None, log := c.log + [Flushed(text)])
    case Some(sink) => c.(waiting := None, applied := sink.version, text := text,
                          log := c.log + [Pushed(sink.version, request.audio, text)])
  }

  /** The first attempt to finish answers the call; later ones answer nobody. */
  function DoAnswer<S>(s: Sys<S>, id: nat): Sys<S> {
    if id !in s.attempts || !s.attempts[id].phase.Finished? then s
    else
      var t := s.attempts[id];
      var rest := s.(attempts := s.attempts - {id});
      if t.sid !in s.clients || s.clients[t.sid].call != t.call || s.clients[t.sid].waiting.None? then rest
      else
        rest.(clients := s.clients[t.sid := Settled(s.clients[t.sid], t.request, t.phase.text)])
  }

  function DoGiveUp<S>(s: Sys<S>, sid: Sid): Sys<S> {
    if sid !in s.clients then s
    else s.(clients := s.clients[sid := s.clients[sid].(waiting := None)])
  }

  function Next<S>(a: Adapter<S>, s: Sys<S>, step: Step): Sys<S> {
    match step
    case Open(sid) => DoOpen(s, sid)
    case Push(sid, seqEnd, audio) => DoPush(a, s, sid, seqEnd, audio)
    case Flush(sid) => DoFlush(s, sid)
    case Start(id, worker, sid) => DoStart(s, id, worker, sid)
    case Load(id) => DoLoad(a, s, id)
    case Infer(id) => DoInfer(a, s, id)
    case Publish(id) => DoPublish(a, s, id)
    case KeepHot(id) => DoKeepHot(s, id)
    case Answer(id) => DoAnswer(s, id)
    case GiveUp(sid) => DoGiveUp(s, sid)
    case Abandon(id) => s.(attempts := s.attempts - {id})
    case Forget(worker, ref) => s.(hot := s.hot - {Place(worker, ref)})
    case Lose(ref) => s.(tier := s.tier - {ref})
    case Close(sid) => s.(tier := map r | r in s.tier && r.sid != sid :: s.tier[r])
    case Crash(worker) =>
      s.(attempts := map id | id in s.attempts && s.attempts[id].worker != worker :: s.attempts[id],
         hot := map p | p in s.hot && p.worker != worker :: s.hot[p])
  }

  function Empty<S>(): Sys<S> { Sys(map[], map[], map[], map[], map[]) }

  function Run<S>(a: Adapter<S>, steps: seq<Step>): Sys<S> {
    if steps == [] then Empty() else Next(a, Run(a, steps[..|steps|-1]), steps[|steps|-1])
  }

  // ---- the invariant ----

  ghost predicate TierMeans<S>(a: Adapter<S>, s: Sys<S>) {
    forall r | r in s.tier :: r in s.meaning && s.tier[r] == a.serialize(s.meaning[r])
  }

  ghost predicate HotMeans<S>(s: Sys<S>) {
    forall p | p in s.hot :: p.ref in s.meaning && s.hot[p] == s.meaning[p.ref]
  }

  /** What a request will write is what its sink stands for. */
  ghost predicate Sensible<S>(a: Adapter<S>, meaning: map<Ref, S>, sid: Sid, request: Request) {
    && (request.ref.Some? ==> request.ref.value in meaning)
    && (request.sink.Some? ==>
          && request.sink.value in meaning && request.sink.value.sid == sid
          && meaning[request.sink.value] == a.infer(Base(a, meaning, request.ref), request.audio))
    && (request.sink.None? ==> request.audio == [])
  }

  ghost predicate PhaseMeans<S>(a: Adapter<S>, meaning: map<Ref, S>, t: Attempt<S>) {
    var base := Base(a, meaning, t.request.ref);
    match t.phase
    case Waiting => true
    case Loaded(st) => st == base
    case Inferred(st, text) => st == a.infer(base, t.request.audio) && text == Reply(a, base, t.request)
    case Published(st, text) => st == a.infer(base, t.request.audio) && text == Reply(a, base, t.request)
    case Finished(text) => text == Reply(a, base, t.request)
  }

  ghost predicate AttemptMeans<S>(a: Adapter<S>, meaning: map<Ref, S>, clients: map<Sid, Client>, t: Attempt<S>) {
    && Sensible(a, meaning, t.sid, t.request)
    && PhaseMeans(a, meaning, t)
    && t.sid in clients
    && t.call <= clients[t.sid].call
    && (t.call == clients[t.sid].call && clients[t.sid].waiting.Some?
        ==> clients[t.sid].waiting == Some(t.request))
  }

  ghost predicate AttemptsMean<S>(a: Adapter<S>, s: Sys<S>) {
    forall id | id in s.attempts :: AttemptMeans(a, s.meaning, s.clients, s.attempts[id])
  }

  ghost predicate ClientMeans<S>(a: Adapter<S>, meaning: map<Ref, S>, sid: Sid, c: Client) {
    var l := Served(a, c.log);
    && Faithful(a, c.log)
    && l.applied == c.applied && l.text == c.text
    && (c.applied > 0 ==> Ref(sid, c.applied) in meaning)
    && l.state == Base(a, meaning, CurrentRef(sid, c))
    && (c.waiting.Some? ==> c.waiting.value.ref == CurrentRef(sid, c) && Sensible(a, meaning, sid, c.waiting.value)
                            && (c.waiting.value.sink.Some? ==> c.waiting.value.sink.value.version > c.applied))
    && (c.latest.Some? ==> Sensible(a, meaning, sid, c.latest.value))
  }

  ghost predicate ClientsMean<S>(a: Adapter<S>, s: Sys<S>) {
    forall sid | sid in s.clients :: ClientMeans(a, s.meaning, sid, s.clients[sid])
  }

  /** Versions are only ever named by their own session, up to its highest. */
  ghost predicate MeaningBounded<S>(s: Sys<S>) {
    forall r | r in s.meaning :: r.sid in s.clients && r.version <= s.clients[r.sid].highest
  }

  ghost predicate Inv<S>(a: Adapter<S>, s: Sys<S>) {
    TierMeans(a, s) && HotMeans(s) && AttemptsMean(a, s) && ClientsMean(a, s) && MeaningBounded(s)
  }

  // ---- every step keeps it ----

  /** Changing one client disturbs no other. */
  lemma ClientMoves<S>(a: Adapter<S>, s: Sys<S>, s': Sys<S>, sid: Sid)
    requires ClientsMean(a, s) && s'.meaning == s.meaning
    requires forall x | x in s'.clients && x != sid :: x in s.clients && s'.clients[x] == s.clients[x]
    requires sid in s'.clients ==> ClientMeans(a, s'.meaning, sid, s'.clients[sid])
    ensures ClientsMean(a, s')
  {
    hide ClientMeans;
  }

  lemma OpenRight<S>(a: Adapter<S>, meaning: map<Ref, S>, sid: Sid, c: Client)
    requires ClientMeans(a, meaning, sid, c) && c.waiting.None?
    ensures ClientMeans(a, meaning, sid, c.(applied := 0, text := "", log := c.log + [Opened]))
  {
    hide Serve, Faithful, Served, Sensible;
    CallSnoc(a, c.log, Opened);
    OpenedServes(a, Served(a, c.log));
  }

  lemma FirstOpenRight<S>(a: Adapter<S>, meaning: map<Ref, S>, sid: Sid)
    ensures ClientMeans(a, meaning, sid, Client(0, "", 0, None, None, 0, [Opened]))
  {
    assert [Opened][..0] == [];
  }

  /** A client may change its log, its version and its answer on its own. */
  lemma ReplaceKeeps<S>(a: Adapter<S>, s: Sys<S>, sid: Sid, c: Client)
    requires Inv(a, s) && ClientMeans(a, s.meaning, sid, c)
    requires sid in s.clients ==> c.call == s.clients[sid].call && c.highest == s.clients[sid].highest
    requires sid in s.clients ==> c.waiting == s.clients[sid].waiting || c.waiting.None?
    ensures Inv(a, s.(clients := s.clients[sid := c]))
  {
    hide ClientMeans, AttemptsMean, TierMeans, HotMeans;
    var s' := s.(clients := s.clients[sid := c]);
    ClientMoves(a, s, s', sid);
    AttemptsSurvive(a, s, s');
    StoresStay(a, s, s');
  }

  lemma OpenKeeps<S>(a: Adapter<S>, s: Sys<S>, sid: Sid)
    requires Inv(a, s)
    ensures Inv(a, DoOpen(s, sid))
  {
    if sid !in s.clients {
      FirstOpenRight(a, s.meaning, sid);
      ReplaceKeeps(a, s, sid, Client(0, "", 0, None, None, 0, [Opened]));
    } else if s.clients[sid].waiting.None? {
      var c := s.clients[sid];
      OpenRight(a, s.meaning, sid, c);
      ReplaceKeeps(a, s, sid, c.(applied := 0, text := "", log := c.log + [Opened]));
    }
  }

  lemma OpenedServes<S>(a: Adapter<S>, l: Local<S>)
    ensures Serve(a, l, Opened) == Local(a.initial, 0, "") && Right(a, l, Opened)
  {
  }

  lemma PushRightWhenOld<S>(a: Adapter<S>, l: Local<S>, seqEnd: nat, audio: Bytes)
    requires seqEnd <= l.applied
    ensures Serve(a, l, Pushed(seqEnd, audio, l.text)) == l && Right(a, l, Pushed(seqEnd, audio, l.text))
  {
  }

  lemma ReplayRight<S>(a: Adapter<S>, meaning: map<Ref, S>, sid: Sid, c: Client, seqEnd: nat, audio: Bytes)
    requires ClientMeans(a, meaning, sid, c) && seqEnd <= c.applied
    ensures ClientMeans(a, meaning, sid, c.(log := c.log + [Pushed(seqEnd, audio, c.text)]))
  {
    hide Serve, Faithful, Served, Sensible;
    CallSnoc(a, c.log, Pushed(seqEnd, audio, c.text));
    PushRightWhenOld(a, Served(a, c.log), seqEnd, audio);
  }

  /** A push at or below what is applied is answered from memory, as the single
      worker would. */
  lemma ReplayKeeps<S>(a: Adapter<S>, s: Sys<S>, sid: Sid, seqEnd: nat, audio: Bytes)
    requires Inv(a, s)
    requires sid in s.clients && s.clients[sid].waiting.None? && seqEnd <= s.clients[sid].applied
    ensures Inv(a, DoPush(a, s, sid, seqEnd, audio))
  {
    var c := s.clients[sid];
    ReplayRight(a, s.meaning, sid, c, seqEnd, audio);
    ReplaceKeeps(a, s, sid, c.(log := c.log + [Pushed(seqEnd, audio, c.text)]));
  }

  /** Naming one more version, or the same one with the same state again. */
  ghost predicate Extends<S>(m: map<Ref, S>, m': map<Ref, S>) {
    forall r | r in m :: r in m' && m'[r] == m[r]
  }

  lemma ExtendedMeans<S>(a: Adapter<S>, m: map<Ref, S>, m': map<Ref, S>, sid: Sid, request: Request)
    requires Extends(m, m') && Sensible(a, m, sid, request)
    ensures Sensible(a, m', sid, request) && Base(a, m', request.ref) == Base(a, m, request.ref)
  {
  }

  /** A sink that is already named already stands for what the push will write. */
  lemma SameAgain<S>(a: Adapter<S>, s: Sys<S>, sid: Sid, request: Request, seqEnd: nat)
    requires sid in s.clients && ClientMeans(a, s.meaning, sid, s.clients[sid]) && MeaningBounded(s)
    requires request.sink == Some(Ref(sid, seqEnd)) && MayWrite(s.clients[sid], request, seqEnd)
    ensures Extends(s.meaning, s.meaning[Ref(sid, seqEnd) := a.infer(Base(a, s.meaning, request.ref), request.audio)])
  {
    hide Served, Faithful;
  }

  lemma RefNamed<S>(a: Adapter<S>, meaning: map<Ref, S>, sid: Sid, c: Client)
    requires ClientMeans(a, meaning, sid, c)
    ensures CurrentRef(sid, c).Some? ==> CurrentRef(sid, c).value in meaning
  {
  }

  lemma MapsExtend<S>(a: Adapter<S>, s: Sys<S>, s': Sys<S>)
    requires TierMeans(a, s) && HotMeans(s) && Extends(s.meaning, s'.meaning)
    requires s'.tier == s.tier && s'.hot == s.hot
    ensures TierMeans(a, s') && HotMeans(s')
  {
  }

  lemma WriteKeeps<S>(a: Adapter<S>, s: Sys<S>, sid: Sid, seqEnd: nat, audio: Bytes)
    requires Inv(a, s)
    requires sid in s.clients && s.clients[sid].waiting.None? && seqEnd > s.clients[sid].applied
    requires var c := s.clients[sid];
             MayWrite(c, Request(CurrentRef(sid, c), Some(Ref(sid, seqEnd)), audio), seqEnd)
    ensures Inv(a, DoPush(a, s, sid, seqEnd, audio))
  {
    hide ClientMeans, AttemptMeans, Sensible, Base;
    var s' := DoPush(a, s, sid, seqEnd, audio);
    var c := s.clients[sid];
    var request := Request(CurrentRef(sid, c), Some(Ref(sid, seqEnd)), audio);
    SameAgain(a, s, sid, request, seqEnd);
    RefNamed(a, s.meaning, sid, c);
    assert ClientMeans(a, s.meaning, sid, c);
    hide Extends, TierMeans, HotMeans, AttemptsMean, ClientsMean;
    WrittenMeans(a, s, s', sid, request, seqEnd);
    ClientExtends(a, s.meaning, s'.meaning, sid, c);
    CallerMeans(a, s'.meaning, sid, c, s'.clients[sid], request);
    ClientsExtend(a, s, s', sid);
    AttemptsExtend(a, s, s', sid);
    MapsExtend(a, s, s');
  }

  lemma WrittenMeans<S>(a: Adapter<S>, s: Sys<S>, s': Sys<S>, sid: Sid, request: Request, seqEnd: nat)
    requires Extends(s.meaning, s'.meaning)
    requires request.sink == Some(Ref(sid, seqEnd))
    requires request.ref.Some? ==> request.ref.value in s.meaning
    requires s'.meaning == s.meaning[Ref(sid, seqEnd) := a.infer(Base(a, s.meaning, request.ref), request.audio)]
    ensures Sensible(a, s'.meaning, sid, request)
  {
  }

  lemma ClientExtends<S>(a: Adapter<S>, m: map<Ref, S>, m': map<Ref, S>, sid: Sid, c: Client)
    requires ClientMeans(a, m, sid, c) && Extends(m, m')
    ensures ClientMeans(a, m', sid, c)
  {
    hide Served, Faithful, Extends, Sensible;
    if c.waiting.Some? {
      ExtendedMeans(a, m, m', sid, c.waiting.value);
    }
    if c.latest.Some? {
      ExtendedMeans(a, m, m', sid, c.latest.value);
    }
    ExtendedMeans(a, m, m', sid, Request(CurrentRef(sid, c), None, [])) by {
      ExtendedMeansRef(a, m, sid, CurrentRef(sid, c));
    }
    ExtendedKeys(m, m');
  }

  lemma ExtendedMeansRef<S>(a: Adapter<S>, m: map<Ref, S>, sid: Sid, ref: Option<Ref>)
    requires ref.Some? ==> ref.value in m
    ensures Sensible(a, m, sid, Request(ref, None, []))
  {
  }

  lemma ExtendedKeys<S>(m: map<Ref, S>, m': map<Ref, S>)
    requires Extends(m, m')
    ensures m.Keys <= m'.Keys
  {
  }

  /** The client that made a new call. */
  lemma CallerMeans<S>(a: Adapter<S>, m: map<Ref, S>, sid: Sid, c: Client, c': Client, request: Request)
    requires ClientMeans(a, m, sid, c)
    requires request.ref == CurrentRef(sid, c) && Sensible(a, m, sid, request)
    requires request.sink.Some? ==> request.sink.value.version > c.applied
    requires c'.latest == c.latest || c'.latest == Some(request)
    requires c' == c.(waiting := Some(request), call := c'.call, latest := c'.latest, highest := c'.highest)
    ensures ClientMeans(a, m, sid, c')
  {
    hide Served, Faithful, Sensible;
  }

  lemma ClientsExtend<S>(a: Adapter<S>, s: Sys<S>, s': Sys<S>, sid: Sid)
    requires ClientsMean(a, s) && Extends(s.meaning, s'.meaning)
    requires sid in s.clients && s'.clients.Keys == s.clients.Keys
    requires forall x | x in s.clients && x != sid :: s'.clients[x] == s.clients[x]
    requires ClientMeans(a, s'.meaning, sid, s'.clients[sid])
    ensures ClientsMean(a, s')
  {
    hide ClientMeans, Extends;
    forall x | x in s'.clients ensures ClientMeans(a, s'.meaning, x, s'.clients[x]) {
      if x != sid {
        ClientExtends(a, s.meaning, s'.meaning, x, s.clients[x]);
      }
    }
  }

  /** A new call leaves the attempts at older calls as they were. */
  lemma AttemptsExtend<S>(a: Adapter<S>, s: Sys<S>, s': Sys<S>, sid: Sid)
    requires AttemptsMean(a, s) && Extends(s.meaning, s'.meaning) && s'.attempts == s.attempts
    requires sid in s.clients && s'.clients.Keys == s.clients.Keys
    requires forall x | x in s.clients && x != sid :: s'.clients[x] == s.clients[x]
    requires s'.clients[sid].call > s.clients[sid].call
    ensures AttemptsMean(a, s')
  {
    hide Sensible;
    forall id | id in s'.attempts ensures AttemptMeans(a, s'.meaning, s'.clients, s'.attempts[id]) {
      var t := s.attempts[id];
      assert AttemptMeans(a, s.meaning, s.clients, t);
      ExtendedMeans(a, s.meaning, s'.meaning, t.sid, t.request);
    }
  }

  lemma FlushKeeps<S>(a: Adapter<S>, s: Sys<S>, sid: Sid)
    requires Inv(a, s)
    ensures Inv(a, DoFlush(s, sid))
  {
    hide ClientMeans, AttemptMeans, Sensible, TierMeans, HotMeans;
    var s' := DoFlush(s, sid);
    if sid in s.clients && s.clients[sid].waiting.None? {
      var c := s.clients[sid];
      RefNamed(a, s.meaning, sid, c);
      ExtendedMeansRef(a, s.meaning, sid, CurrentRef(sid, c));
      CallerMeans(a, s.meaning, sid, c, s'.clients[sid], Request(CurrentRef(sid, c), None, []));
      hide AttemptsMean;
      ClientMoves(a, s, s', sid);
      AttemptsExtend(a, s, s', sid);
      StoresStay(a, s, s');
    }
  }

  // ---- steps of one attempt ----

  /** Changing one attempt, or dropping some, disturbs nothing else. */
  lemma AttemptMoves<S>(a: Adapter<S>, s: Sys<S>, s': Sys<S>, id: nat)
    requires AttemptsMean(a, s) && s'.clients == s.clients && s'.meaning == s.meaning
    requires forall x | x in s'.attempts && x != id :: x in s.attempts && s'.attempts[x] == s.attempts[x]
    requires id in s'.attempts ==> AttemptMeans(a, s.meaning, s.clients, s'.attempts[id])
    ensures AttemptsMean(a, s')
  {
    hide AttemptMeans;
  }

  lemma PhaseMoves<S>(a: Adapter<S>, s: Sys<S>, t: Attempt<S>, phase: Phase<S>)
    requires AttemptMeans(a, s.meaning, s.clients, t)
    requires PhaseMeans(a, s.meaning, t.(phase := phase))
    ensures AttemptMeans(a, s.meaning, s.clients, t.(phase := phase))
  {
    hide PhaseMeans, Sensible;
  }

  lemma FirstAttempt<S>(a: Adapter<S>, s: Sys<S>, worker: WorkerId, sid: Sid)
    requires sid in s.clients && ClientMeans(a, s.meaning, sid, s.clients[sid]) && s.clients[sid].waiting.Some?
    ensures AttemptMeans(a, s.meaning, s.clients,
                         Attempt(worker, sid, s.clients[sid].call, s.clients[sid].waiting.value, Waiting))
  {
    hide Served, Faithful, Sensible;
  }

  lemma StartKeeps<S>(a: Adapter<S>, s: Sys<S>, id: nat, worker: WorkerId, sid: Sid)
    requires Inv(a, s)
    ensures Inv(a, DoStart(s, id, worker, sid))
  {
    hide ClientMeans, AttemptMeans;
    if sid in s.clients && s.clients[sid].waiting.Some? {
      FirstAttempt(a, s, worker, sid);
    }
    AttemptMoves(a, s, DoStart(s, id, worker, sid), id);
  }

  /** What an attempt loads is what its reference stands for. */
  lemma LoadsMeaning<S(!new)>(a: Adapter<S>, s: Sys<S>, id: nat)
    requires RoundTrips(a) && TierMeans(a, s) && HotMeans(s)
    requires id in s.attempts && s.attempts[id].phase.Waiting?
    requires AttemptMeans(a, s.meaning, s.clients, s.attempts[id])
    ensures var s' := DoLoad(a, s, id);
            id in s'.attempts ==> AttemptMeans(a, s.meaning, s.clients, s'.attempts[id])
  {
    var t, s' := s.attempts[id], DoLoad(a, s, id);
    RefKnown(a, s, t);
    hide AttemptMeans;
    if id in s'.attempts {
      PhaseMoves(a, s, t, s'.attempts[id].phase);
    }
  }

  lemma LoadKeeps<S(!new)>(a: Adapter<S>, s: Sys<S>, id: nat)
    requires RoundTrips(a) && Inv(a, s)
    ensures Inv(a, DoLoad(a, s, id))
  {
    hide ClientMeans, AttemptMeans, Base;
    if id in s.attempts && s.attempts[id].phase.Waiting? {
      LoadsMeaning(a, s, id);
      AttemptMoves(a, s, DoLoad(a, s, id), id);
    }
  }

  lemma RefKnown<S>(a: Adapter<S>, s: Sys<S>, t: Attempt<S>)
    requires AttemptMeans(a, s.meaning, s.clients, t)
    ensures t.request.ref.Some? ==> t.request.ref.value in s.meaning
  {
  }

  lemma InferKeeps<S>(a: Adapter<S>, s: Sys<S>, id: nat)
    requires Inv(a, s)
    ensures Inv(a, DoInfer(a, s, id))
  {
    hide ClientMeans, AttemptMeans, Base;
    var s' := DoInfer(a, s, id);
    if id in s.attempts && s.attempts[id].phase.Loaded? {
      var t := s.attempts[id];
      PhaseKnown(a, s, t);
      PhaseMoves(a, s, t, s'.attempts[id].phase);
      AttemptMoves(a, s, s', id);
    }
  }

  lemma PhaseKnown<S>(a: Adapter<S>, s: Sys<S>, t: Attempt<S>)
    requires AttemptMeans(a, s.meaning, s.clients, t)
    ensures PhaseMeans(a, s.meaning, t)
  {
  }

  /** The state an attempt is about to store is what its sink stands for. */
  lemma StoresMeaning<S>(a: Adapter<S>, s: Sys<S>, t: Attempt<S>)
    requires AttemptMeans(a, s.meaning, s.clients, t) && t.request.sink.Some?
    requires (t.phase.Inferred? || t.phase.Published?)
    ensures t.request.sink.value in s.meaning && s.meaning[t.request.sink.value] == t.phase.state
  {
  }

  lemma PublishKeeps<S>(a: Adapter<S>, s: Sys<S>, id: nat)
    requires Inv(a, s)
    ensures Inv(a, DoPublish(a, s, id))
  {
    hide ClientMeans, AttemptMeans, Base;
    var s' := DoPublish(a, s, id);
    if id in s.attempts && s.attempts[id].phase.Inferred? && s.attempts[id].request.sink.Some? {
      var t := s.attempts[id];
      StoresMeaning(a, s, t);
      PhaseKnown(a, s, t);
      PhaseMoves(a, s, t, s'.attempts[id].phase);
      AttemptMoves(a, s, s', id);
    }
  }

  lemma KeepHotKeeps<S>(a: Adapter<S>, s: Sys<S>, id: nat)
    requires Inv(a, s)
    ensures Inv(a, DoKeepHot(s, id))
  {
    hide ClientMeans, AttemptMeans, Base;
    var s' := DoKeepHot(s, id);
    if id in s.attempts && s.attempts[id].phase.Published? && s.attempts[id].request.sink.Some? {
      var t := s.attempts[id];
      StoresMeaning(a, s, t);
      PhaseKnown(a, s, t);
      PhaseMoves(a, s, t, s'.attempts[id].phase);
      AttemptMoves(a, s, s', id);
    }
  }

  /** What an answered push or flush means for the session. */
  lemma AnswerRight<S>(a: Adapter<S>, meaning: map<Ref, S>, sid: Sid, c: Client, text: string)
    requires ClientMeans(a, meaning, sid, c) && c.waiting.Some?
    requires text == Reply(a, Base(a, meaning, c.waiting.value.ref), c.waiting.value)
    ensures ClientMeans(a, meaning, sid, Settled(c, c.waiting.value, text))
  {
    hide Served, Faithful;
    var request := c.waiting.value;
    CallSnoc(a, c.log, if request.sink.None? then Flushed(text)
                       else Pushed(request.sink.value.version, request.audio, text));
  }

  /** A finished attempt at the outstanding call holds its right answer. */
  lemma FinishedRight<S>(a: Adapter<S>, s: Sys<S>, t: Attempt<S>)
    requires AttemptMeans(a, s.meaning, s.clients, t) && t.phase.Finished?
    ensures t.sid in s.clients
    ensures var c := s.clients[t.sid];
            c.call == t.call && c.waiting.Some? ==>
              && c.waiting.value == t.request
              && t.phase.text == Reply(a, Base(a, s.meaning, t.request.ref), t.request)
  {
    hide Sensible;
  }

  lemma AnsweredMeans<S>(a: Adapter<S>, s: Sys<S>, id: nat)
    requires ClientsMean(a, s) && id in s.attempts && s.attempts[id].phase.Finished?
    requires AttemptMeans(a, s.meaning, s.clients, s.attempts[id])
    ensures var sid := s.attempts[id].sid;
            sid in s.clients && ClientMeans(a, s.meaning, sid, DoAnswer(s, id).clients[sid])
  {
    hide Reply, AttemptMeans, ClientMeans, Base, Settled;
    var t := s.attempts[id];
    FinishedRight(a, s, t);
    var c := s.clients[t.sid];
    if c.call == t.call && c.waiting.Some? {
      AnswerRight(a, s.meaning, t.sid, c, t.phase.text);
    }
  }

  lemma AnswerKeeps<S>(a: Adapter<S>, s: Sys<S>, id: nat)
    requires Inv(a, s)
    ensures Inv(a, DoAnswer(s, id))
  {
    hide ClientMeans, AttemptMeans, TierMeans, HotMeans, Settled;
    var s' := DoAnswer(s, id);
    if id in s.attempts && s.attempts[id].phase.Finished? {
      AnsweredMeans(a, s, id);
      hide AttemptsMean, ClientsMean;
      ClientMoves(a, s, s', s.attempts[id].sid);
      AttemptsSurvive(a, s, s');
      StoresStay(a, s, s');
    }
  }

  lemma StoresStay<S>(a: Adapter<S>, s: Sys<S>, s': Sys<S>)
    requires TierMeans(a, s) && HotMeans(s) && s'.meaning == s.meaning && s'.tier == s.tier && s'.hot == s.hot
    ensures TierMeans(a, s') && HotMeans(s')
  {
  }

  lemma AttemptsSurvive<S>(a: Adapter<S>, s: Sys<S>, s': Sys<S>)
    requires AttemptsMean(a, s) && s'.meaning == s.meaning && s.clients.Keys <= s'.clients.Keys
    requires forall x | x in s'.attempts :: x in s.attempts && s'.attempts[x] == s.attempts[x]
    requires forall x | x in s.clients :: s'.clients[x].call == s.clients[x].call
                                       && (s'.clients[x].waiting == s.clients[x].waiting || s'.clients[x].waiting.None?)
    ensures AttemptsMean(a, s')
  {
    hide Sensible, PhaseMeans;
    forall x | x in s'.attempts ensures AttemptMeans(a, s'.meaning, s'.clients, s'.attempts[x]) {
      assert AttemptMeans(a, s.meaning, s.clients, s.attempts[x]);
    }
  }

  lemma GiveUpRight<S>(a: Adapter<S>, meaning: map<Ref, S>, sid: Sid, c: Client)
    requires ClientMeans(a, meaning, sid, c)
    ensures ClientMeans(a, meaning, sid, c.(waiting := None))
  {
    hide Faithful, Served, Sensible;
  }

  lemma GiveUpKeeps<S>(a: Adapter<S>, s: Sys<S>, sid: Sid)
    requires Inv(a, s)
    ensures Inv(a, DoGiveUp(s, sid))
  {
    if sid in s.clients {
      GiveUpRight(a, s.meaning, sid, s.clients[sid]);
      ReplaceKeeps(a, s, sid, s.clients[sid].(waiting := None));
    }
  }

  /** Failures of the other kinds only take things away. */
  lemma LossKeeps<S>(a: Adapter<S>, s: Sys<S>, step: Step)
    requires Inv(a, s)
    requires step.Abandon? || step.Forget? || step.Lose? || step.Close? || step.Crash?
    ensures Inv(a, Next(a, s, step))
  {
    hide ClientMeans, AttemptMeans;
  }

  lemma StepKeeps<S(!new)>(a: Adapter<S>, s: Sys<S>, step: Step)
    requires RoundTrips(a) && Inv(a, s)
    ensures Inv(a, Next(a, s, step))
  {
    match step
    case Open(sid) => OpenKeeps(a, s, sid);
    case Push(sid, seqEnd, audio) =>
      if sid in s.clients && s.clients[sid].waiting.None? {
        var c := s.clients[sid];
        if seqEnd <= c.applied {
          ReplayKeeps(a, s, sid, seqEnd, audio);
        } else if MayWrite(c, Request(CurrentRef(sid, c), Some(Ref(sid, seqEnd)), audio), seqEnd) {
          WriteKeeps(a, s, sid, seqEnd, audio);
        }
      }
    case Flush(sid) => FlushKeeps(a, s, sid);
    case Start(id, worker, sid) => StartKeeps(a, s, id, worker, sid);
    case Load(id) => LoadKeeps(a, s, id);
    case Infer(id) => InferKeeps(a, s, id);
    case Publish(id) => PublishKeeps(a, s, id);
    case KeepHot(id) => KeepHotKeeps(a, s, id);
    case Answer(id) => AnswerKeeps(a, s, id);
    case GiveUp(sid) => GiveUpKeeps(a, s, sid);
    case _ => LossKeeps(a, s, step);
  }

  lemma {:induction false} RunKeeps<S(!new)>(a: Adapter<S>, steps: seq<Step>)
    requires RoundTrips(a)
    ensures Inv(a, Run(a, steps))
  {
    if steps != [] {
      hide Inv, Next;
      RunKeeps(a, steps[..|steps|-1]);
      StepKeeps(a, Run(a, steps[..|steps|-1]), steps[|steps|-1]);
    }
  }

  /** Placement independence: whatever the schedule of attempts, workers,
      evictions, crashes and closes, every answer a session ever got is the one
      a single stateful worker would have given to the same calls. */
  lemma PlacementIndependence<S(!new)>(a: Adapter<S>, steps: seq<Step>, sid: Sid)
    requires RoundTrips(a)
    requires sid in Run(a, steps).clients
    ensures Faithful(a, Run(a, steps).clients[sid].log)
  {
    hide Run, Faithful;
    RunKeeps(a, steps);
    var s := Run(a, steps);
    assert ClientMeans(a, s.meaning, sid, s.clients[sid]);
  }

  /** A version found neither hot nor in the tier ends the attempt; it never
      runs on any other state. */
  lemma LostVersionRefused<S>(a: Adapter<S>, s: Sys<S>, id: nat)
    requires id in s.attempts && s.attempts[id].phase.Waiting? && s.attempts[id].request.ref.Some?
    ensures var ref := s.attempts[id].request.ref.value;
            ref !in s.tier && Place(s.attempts[id].worker, ref) !in s.hot
            ==> id !in DoLoad(a, s, id).attempts && DoLoad(a, s, id).clients == s.clients
  {
  }

  // ---- the live objects ----

  /** Steps that are not this session's own calls. */
  predicate Elsewhere(step: Step, sid: Sid) {
    !(step.Open? && step.sid == sid) && !(step.Push? && step.sid == sid) && !(step.Flush? && step.sid == sid)
    && !(step.GiveUp? && step.sid == sid)
  }

  /** Whether this step delivers the session's outstanding answer. */
  predicate Delivers<S>(s: Sys<S>, step: Step, sid: Sid) {
    && step.Answer? && step.id in s.attempts && s.attempts[step.id].phase.Finished?
    && s.attempts[step.id].sid == sid && sid in s.clients
    && s.clients[sid].call == s.attempts[step.id].call && s.clients[sid].waiting.Some?
  }

  lemma ElsewhereLeaves<S>(a: Adapter<S>, s: Sys<S>, step: Step, sid: Sid)
    requires sid in s.clients && Elsewhere(step, sid) && !Delivers(s, step, sid)
    ensures sid in Next(a, s, step).clients && Next(a, s, step).clients[sid] == s.clients[sid]
  {
    hide Settled, DoStart, DoLoad, DoInfer, DoPublish, DoKeepHot;
    if step.Answer? {
      AnswersOther(s, step.id, sid);
      hide DoAnswer;
    }
  }

  lemma AnswersOther<S>(s: Sys<S>, id: nat, sid: Sid)
    requires sid in s.clients && !Delivers(s, Answer(id), sid)
    ensures sid in DoAnswer(s, id).clients && DoAnswer(s, id).clients[sid] == s.clients[sid]
  {
    hide Settled;
  }

  lemma DeliveredRight<S>(a: Adapter<S>, s: Sys<S>, step: Step, sid: Sid)
    requires Inv(a, s) && Delivers(s, step, sid)
    ensures sid in Next(a, s, step).clients
    ensures Next(a, s, step).clients[sid]
         == Settled(s.clients[sid], s.clients[sid].waiting.value, s.attempts[step.id].phase.text)
  {
    hide Settled;
    FinishedRight(a, s, s.attempts[step.id]);
  }

  /** The cohort behind Bifrost. While a call is outstanding anything may
      happen to it, and any other session may run. */
  class Fleet<S(!new)> {
    const a: Adapter<S>
    var s: Sys<S>

    constructor (a: Adapter<S>)
      ensures this.a == a && s == Empty()
    {
      this.a, s := a, Empty();
    }

    method Call(sid: Sid) returns (text: Option<string>)
      requires RoundTrips(a) && Inv(a, s)
      requires sid in s.clients && s.clients[sid].waiting.Some?
      modifies this
      ensures Inv(a, s) && sid in s.clients
      ensures s.clients[sid] == match text
                                case None => old(s).clients[sid].(waiting := None)
                                case Some(t) => Settled(old(s).clients[sid], old(s).clients[sid].waiting.value, t)
    {
      hide Inv, Next, DoGiveUp, Settled, Delivers;
      text := None;
      var budget: nat := *;
      while budget > 0 && text.None?
        invariant Inv(a, s) && sid in s.clients
        invariant s.clients[sid] == match text
                                    case None => old(s).clients[sid]
                                    case Some(t) => Settled(old(s).clients[sid], old(s).clients[sid].waiting.value, t)
      {
        var step: Step := *;
        if Elsewhere(step, sid) {
          StepKeeps(a, s, step);
          if Delivers(s, step, sid) {
            DeliveredRight(a, s, step, sid);
            text := TextOf(s, step, sid);
          } else {
            ElsewhereLeaves(a, s, step, sid);
          }
          s := Next(a, s, step);
        }
        budget := budget - 1;
      }
      if text.None? {
        GiveUpKeeps(a, s, sid);
        GivesUp(s, sid);
        s := DoGiveUp(s, sid);
      }
    }
  }

  function TextOf<S>(s: Sys<S>, step: Step, sid: Sid): (r: Option<string>)
    requires Delivers(s, step, sid)
    ensures r == Some(s.attempts[step.id].phase.text)
  {
    Some(s.attempts[step.id].phase.text)
  }

  lemma GivesUp<S>(s: Sys<S>, sid: Sid)
    requires sid in s.clients
    ensures DoGiveUp(s, sid).clients[sid] == s.clients[sid].(waiting := None)
    ensures sid in DoGiveUp(s, sid).clients
  {
  }

  /** internal/backend/stateless.go's client: it remembers only the version it
      last published and the answer that came with it. */
  class StatelessClient<S(!new)> {
    const fleet: Fleet<S>
    const handle: Sid
    var lastApplied: nat
    var lastText: string

    ghost predicate Valid()
      reads this, fleet
    {
      && RoundTrips(fleet.a) && Inv(fleet.a, fleet.s)
      && handle in fleet.s.clients
      && fleet.s.clients[handle].waiting.None?
      && fleet.s.clients[handle].applied == lastApplied && fleet.s.clients[handle].text == lastText
    }

    /** The worker this client passes for. */
    ghost function View(): Local<S>
      reads this, fleet
      requires Valid()
    {
      Served(fleet.a, fleet.s.clients[handle].log)
    }

    ghost function Marked(): Mark
      reads this, fleet
      requires Valid()
    {
      Mark(lastApplied, fleet.s.clients[handle].highest)
    }

    /** Chunks arrive in order, or are repeated exactly. */
    ghost predicate InOrder(seqEnd: nat, audio: Bytes)
      reads this, fleet
      requires Valid()
    {
      var c := fleet.s.clients[handle];
      MayWrite(c, Request(CurrentRef(handle, c), Some(Ref(handle, seqEnd)), audio), seqEnd)
    }

    constructor (fleet: Fleet<S>, handle: Sid)
      requires RoundTrips(fleet.a) && Inv(fleet.a, fleet.s)
      requires handle in fleet.s.clients ==> fleet.s.clients[handle].waiting.None?
      modifies fleet
      ensures this.fleet == fleet && this.handle == handle
      ensures Valid() && View() == Local(fleet.a.initial, 0, "")
      ensures Marked() == Mark(0, if handle in old(fleet.s).clients then old(fleet.s).clients[handle].highest else 0)
    {
      this.fleet, this.handle := fleet, handle;
      lastApplied, lastText := 0, "";
      new;
      OpenKeeps(fleet.a, fleet.s, handle);
      OpensFresh(fleet.a, fleet.s, handle);
      fleet.s := DoOpen(fleet.s, handle);
    }

    method Open()
      requires Valid()
      modifies this, fleet
      ensures Valid() && View() == Local(fleet.a.initial, 0, "")
      ensures Marked() == Mark(0, old(Marked()).highest)
    {
      hide Inv;
      OpenKeeps(fleet.a, fleet.s, handle);
      OpensFresh(fleet.a, fleet.s, handle);
      fleet.s := DoOpen(fleet.s, handle);
      lastApplied, lastText := 0, "";
    }

    /** Either the answer the single worker would have given, or an error that
        leaves the session where it was. */
    method Push(seqEnd: nat, audio: Bytes) returns (text: Option<string>)
      requires Valid() && (seqEnd > lastApplied ==> InOrder(seqEnd, audio))
      modifies this, fleet
      ensures Valid()
      ensures text.None? ==> View() == old(View())
      ensures text.Some? ==> Right(fleet.a, old(View()), Pushed(seqEnd, audio, text.value))
      ensures text.Some? ==> View() == Serve(fleet.a, old(View()), Pushed(seqEnd, audio, text.value))
      ensures seqEnd <= old(lastApplied) ==> text == Some(old(lastText))
      ensures text.Some? ==> Marked() == Named(old(Marked()), seqEnd)
      ensures text.None? ==> Marked() == Mark(old(Marked()).applied, Named(old(Marked()), seqEnd).highest)
    {
      hide Inv, Served, DoPush;
      ghost var before := fleet.s.clients[handle];
      ClientFaithful(fleet.a, fleet.s, handle);
      if seqEnd <= lastApplied {
        ReplayKeeps(fleet.a, fleet.s, handle, seqEnd, audio);
        PushesOld(fleet.a, fleet.s, handle, seqEnd, audio);
        CallSnoc(fleet.a, before.log, Pushed(seqEnd, audio, lastText));
        fleet.s := DoPush(fleet.a, fleet.s, handle, seqEnd, audio);
        return Some(lastText);
      }
      WriteKeeps(fleet.a, fleet.s, handle, seqEnd, audio);
      PushesNew(fleet.a, fleet.s, handle, seqEnd, audio);
      fleet.s := DoPush(fleet.a, fleet.s, handle, seqEnd, audio);
      text := fleet.Call(handle);
      if text.Some? {
        lastApplied, lastText := seqEnd, text.value;
        CallSnoc(fleet.a, before.log, Pushed(seqEnd, audio, text.value));
      }
      ClientFaithful(fleet.a, fleet.s, handle);
    }

    method Flush() returns (text: Option<string>)
      requires Valid()
      modifies this, fleet
      ensures Valid() && View() == old(View()) && Marked() == old(Marked())
      ensures text.Some? ==> Right(fleet.a, old(View()), Flushed(text.value))
    {
      hide Inv, Served;
      ghost var before := fleet.s.clients[handle];
      ClientFaithful(fleet.a, fleet.s, handle);
      FlushKeeps(fleet.a, fleet.s, handle);
      fleet.s := DoFlush(fleet.s, handle);
      text := fleet.Call(handle);
      if text.Some? {
        CallSnoc(fleet.a, before.log, Flushed(text.value));
      }
      ClientFaithful(fleet.a, fleet.s, handle);
    }

    /** Best effort: all of the session's versions go, or all stay until they expire;
        nobody else's do. */
    method Close()
      requires Valid()
      modifies fleet
      ensures Valid() && View() == old(View()) && Marked() == old(Marked())
      ensures fleet.s.(tier := old(fleet.s).tier) == old(fleet.s)
      ensures forall r | r in fleet.s.tier :: r in old(fleet.s).tier && fleet.s.tier[r] == old(fleet.s).tier[r]
      ensures forall r | r in old(fleet.s).tier && r.sid != handle :: r in fleet.s.tier
      ensures fleet.s.tier == old(fleet.s).tier || forall r | r in fleet.s.tier :: r.sid != handle
    {
      var reached: bool := *;
      if reached {
        LossKeeps(fleet.a, fleet.s, Step.Close(handle));
        fleet.s := Next(fleet.a, fleet.s, Step.Close(handle));
      }
    }
  }

  lemma OpensFresh<S>(a: Adapter<S>, s: Sys<S>, sid: Sid)
    requires sid in s.clients ==> s.clients[sid].waiting.None?
    ensures var s' := DoOpen(s, sid);
            && sid in s'.clients
            && s'.clients[sid].waiting.None? && s'.clients[sid].applied == 0 && s'.clients[sid].text == ""
            && s'.clients[sid].highest == (if sid in s.clients then s.clients[sid].highest else 0)
            && Served(a, s'.clients[sid].log) == Local(a.initial, 0, "")
  {
    CallSnoc(a, if sid in s.clients then s.clients[sid].log else [], Opened);
    assert [] + [Opened] == [Opened];
  }

  lemma ClientFaithful<S>(a: Adapter<S>, s: Sys<S>, sid: Sid)
    requires Inv(a, s) && sid in s.clients
    ensures Faithful(a, s.clients[sid].log)
    ensures Served(a, s.clients[sid].log).applied == s.clients[sid].applied
    ensures Served(a, s.clients[sid].log).text == s.clients[sid].text
  {
    hide Served, Faithful, Sensible;
    assert ClientMeans(a, s.meaning, sid, s.clients[sid]);
  }

  lemma PushesOld<S>(a: Adapter<S>, s: Sys<S>, sid: Sid, seqEnd: nat, audio: Bytes)
    requires sid in s.clients && s.clients[sid].waiting.None? && seqEnd <= s.clients[sid].applied
    ensures var c := s.clients[sid];
            DoPush(a, s, sid, seqEnd, audio)
            == s.(clients := s.clients[sid := c.(log := c.log + [Pushed(seqEnd, audio, c.text)])])
  {
  }

  lemma PushesNew<S>(a: Adapter<S>, s: Sys<S>, sid: Sid, seqEnd: nat, audio: Bytes)
    requires sid in s.clients && s.clients[sid].waiting.None? && seqEnd > s.clients[sid].applied
    requires var c := s.clients[sid];
             MayWrite(c, Request(CurrentRef(sid, c), Some(Ref(sid, seqEnd)), audio), seqEnd)
    ensures sid in DoPush(a, s, sid, seqEnd, audio).clients
    ensures var c, c' := s.clients[sid], DoPush(a, s, sid, seqEnd, audio).clients[sid];
            && c'.waiting == Some(Request(CurrentRef(sid, c), Some(Ref(sid, seqEnd)), audio))
            && c'.call > c.call && c'.applied == c.applied && c'.text == c.text && c'.log == c.log
            && c'.highest == (if seqEnd > c.highest then seqEnd else c.highest)
  {
  }
}

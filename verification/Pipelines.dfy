/** The two audio pipelines a session may run, behind one interface:
    internal/audio/pipeline.go. */
module Pipelines {
  import opened Wrappers
  import opened Audio
  import Vad
  import VadPipeline

  datatype Pipeline = Passthrough(plain: PassthroughPipeline) | Gated(vad: VadPipeline.Pipeline)

  /** A pipeline's cutting state. */
  datatype Cutter = Plain(limit: nat, held: Pending) | Hysteresis(config: Vad.Config, machine: Vad.Machine)

  function Next(c: Cutter, r: Record): Cutter {
    match c
    case Plain(limit, held) => Plain(limit, FeedState(limit, held, r))
    case Hysteresis(config, machine) => Hysteresis(config, Vad.Step(config, machine, r))
  }

  function Emits(c: Cutter, r: Record): seq<Piece> {
    match c
    case Plain(limit, held) => FeedOut(limit, held, r)
    case Hysteresis(config, machine) => Vad.StepOut(config, machine, r)
  }

  function Signals(c: Cutter, r: Record): seq<Vad.Event> {
    match c
    case Plain(_, _) => []
    case Hysteresis(config, machine) => Vad.StepEvents(config, machine, r)
  }

  /** What Flush cuts off, and what it leaves. */
  function Tail(c: Cutter): seq<Piece> {
    match c
    case Plain(_, held) => ForceCut(held)
    case Hysteresis(_, machine) => ForceCut(machine.held)
  }

  function Flushed(c: Cutter): Cutter {
    match c
    case Plain(limit, _) => Plain(limit, NoPending)
    case Hysteresis(config, machine) => Hysteresis(config, Vad.Flushed(machine))
  }

  function Retention(c: Cutter): Option<nat> {
    match c
    case Plain(_, _) => None
    case Hysteresis(_, machine) => Vad.RetentionStart(machine)
  }

  /** What a fresh pipeline of the same kind cuts the records into. */
  function RecutOf(p: Pipeline, records: seq<Record>): seq<Piece> {
    match p
    case Passthrough(plain) => Audio.Recut(plain.live.chunkSamples, records)
    case Gated(vad) => Vad.Recut(vad.config, records)
  }

  function Fresh(p: Pipeline): Cutter {
    match p
    case Passthrough(plain) => Plain(plain.live.chunkSamples, NoPending)
    case Gated(vad) => Hysteresis(vad.config, Vad.Fresh)
  }

  function Parts(p: Pipeline): set<object> {
    match p
    case Passthrough(plain) => {plain, plain.live}
    case Gated(vad) => {vad, vad.live}
  }

  ghost predicate Valid(p: Pipeline)
    reads Parts(p)
  {
    match p
    case Passthrough(plain) => plain.Valid()
    case Gated(vad) => vad.Valid()
  }

  ghost function View(p: Pipeline): Cutter
    reads Parts(p)
  {
    match p
    case Passthrough(plain) => Plain(plain.live.chunkSamples, plain.live.View())
    case Gated(vad) => Hysteresis(vad.config, vad.View())
  }

  ghost function Queue(p: Pipeline): seq<Piece>
    reads Parts(p)
  {
    match p
    case Passthrough(plain) => Pieces(plain.ready)
    case Gated(vad) => Pieces(vad.ready)
  }

  ghost function Boundaries(p: Pipeline): seq<Vad.Event>
    reads Parts(p)
  {
    match p
    case Passthrough(_) => []
    case Gated(vad) => vad.boundaries
  }

  /** voiced is the detector's decision; the pass-through pipeline has none. */
  method Ingest(p: Pipeline, seqNo: nat, samples: nat, voiced: bool, payload: Bytes) returns (r: Record)
    requires Valid(p)
    modifies Parts(p)
    ensures Valid(p)
    ensures r == Record(seqNo, samples, voiced || p.Passthrough?, payload)
    ensures View(p) == Next(old(View(p)), r)
    ensures Queue(p) == old(Queue(p)) + Emits(old(View(p)), r)
    ensures Boundaries(p) == old(Boundaries(p)) + Signals(old(View(p)), r)
  {
    hide Vad.Step, Vad.StepOut, Vad.StepEvents, FeedState, FeedOut;
    match p {
      case Passthrough(plain) =>
        r := plain.Ingest(seqNo, samples, payload);
      case Gated(vad) =>
        r := Record(seqNo, samples, voiced, payload);
        vad.ApplyHysteresis(r);
    }
  }

  method Ready(p: Pipeline) returns (out: seq<Chunk>)
    requires Valid(p)
    modifies Parts(p)
    ensures Valid(p) && View(p) == old(View(p)) && Boundaries(p) == old(Boundaries(p))
    ensures Pieces(out) == old(Queue(p)) && Queue(p) == []
  {
    match p {
      case Passthrough(plain) => out := plain.Ready();
      case Gated(vad) => out := vad.Ready();
    }
  }

  method Boundary(p: Pipeline) returns (ev: Option<Vad.Event>)
    requires Valid(p)
    modifies Parts(p)
    ensures Valid(p) && View(p) == old(View(p)) && Queue(p) == old(Queue(p))
    ensures ev == if old(Boundaries(p)) == [] then None else Some(old(Boundaries(p))[0])
    ensures Boundaries(p) == if old(Boundaries(p)) == [] then [] else old(Boundaries(p))[1..]
  {
    match p {
      case Passthrough(_) => ev := None;
      case Gated(vad) => ev := vad.Boundary();
    }
  }

  /** Poll until no boundary is left. */
  method Drain(p: Pipeline) returns (events: seq<Vad.Event>)
    requires Valid(p)
    modifies Parts(p)
    ensures Valid(p) && View(p) == old(View(p)) && Queue(p) == old(Queue(p))
    ensures events == old(Boundaries(p)) && Boundaries(p) == []
  {
    hide View, Queue, Valid;
    events := [];
    var more := true;
    while more
      invariant Valid(p) && View(p) == old(View(p)) && Queue(p) == old(Queue(p))
      invariant events + Boundaries(p) == old(Boundaries(p))
      invariant !more ==> Boundaries(p) == []
      decreases |Boundaries(p)|, more
    {
      var ev := Boundary(p);
      if ev.Some? {
        events := events + [ev.value];
      }
      more := ev.Some?;
    }
  }

  method Flush(p: Pipeline) returns (out: seq<Chunk>)
    requires Valid(p)
    modifies Parts(p)
    ensures Valid(p) && Queue(p) == old(Queue(p)) && Boundaries(p) == old(Boundaries(p))
    ensures Pieces(out) == Tail(old(View(p))) && View(p) == Flushed(old(View(p)))
  {
    match p {
      case Passthrough(plain) => out := plain.Flush();
      case Gated(vad) => out := vad.Flush();
    }
  }

  method RetentionStart(p: Pipeline) returns (start: Option<nat>)
    requires Valid(p)
    ensures start == Retention(View(p))
  {
    match p {
      case Passthrough(_) => start := None;
      case Gated(vad) => start := vad.OldestNeeded();
    }
  }

  method RecutRecords(p: Pipeline, records: seq<Record>) returns (out: seq<Chunk>)
    ensures Pieces(out) == RecutOf(p, records)
  {
    match p {
      case Passthrough(plain) => out := plain.RecutRecords(records);
      case Gated(vad) => out := vad.RecutRecords(records);
    }
  }
}

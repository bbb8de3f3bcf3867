/** The workers as the gateway reaches them (internal/backend/client.go): every
    call may be refused, lost on the way there or on the way back, and any
    worker may have died since the last one. */
module Network {
  import opened Wrappers
  import opened Audio
  import opened Adapters
  import opened Backend
  import opened Router

  /** Handles are opaque within a worker: two workers may issue the same one. */
  datatype Addr = Addr(worker: string, handle: nat)

  function At(w: Worker, handle: nat): Addr { Addr(w.id, handle) }

  /** Apart from the listed records, what is still there is unchanged. */
  ghost predicate Survives<S(!new)>(before: map<Addr, Rec<S>>, after: map<Addr, Rec<S>>, except: set<Addr>) {
    forall x | x in after && x !in except :: x in before && after[x] == before[x]
  }

  class Network<S(!new)> {
    const model: string -> Adapter<S>    // by compatibility key
    var records: map<Addr, Rec<S>>
    var issued: map<string, nat>
    ghost var given: set<Addr>          // handles the gateway was given
    ghost var closed: set<Addr>          // handles it has asked to close

    ghost predicate Valid()
      reads this
    {
      && (forall x | x in records || x in given :: x.worker in issued && x.handle < issued[x.worker])
      && closed <= given
    }

    constructor (model: string -> Adapter<S>)
      ensures Valid() && this.model == model && records == map[] && given == {} && closed == {}
    {
      this.model, records, issued, given, closed := model, map[], map[], {}, {};
    }

    /** Processes die and take their records with them. */
    method Crash()
      requires Valid()
      modifies this`records
      ensures Valid() && Survives(old(records), records, {})
    {
      var gone: set<Addr> := *;
      records := records - gone;
    }

    method Issue(w: Worker, rec: Rec<S>) returns (handle: nat)
      requires Valid()
      modifies this`records, this`issued
      ensures Valid()
      ensures At(w, handle) !in old(records) && At(w, handle) !in given
      ensures records == old(records)[At(w, handle) := rec]
      ensures w.id in issued && handle < issued[w.id]
    {
      handle := if w.id in issued then issued[w.id] else 0;
      issued := issued[w.id := handle + 1];
      records := records[At(w, handle) := rec];
    }

    /** A fresh record, if the answer arrives. */
    method Open(w: Worker) returns (handle: Option<nat>)
      requires Valid()
      modifies this`records, this`issued, this`given
      ensures Valid()
      ensures handle.Some? ==>
                var x := At(w, handle.value);
                && x !in old(given) && given == old(given) + {x}
                && x in records && records[x] == FreshRec(model(w.key))
                && Survives(old(records), records, {x})
      ensures handle.None? ==> given == old(given)
      ensures handle.None? ==>
                forall x | x in given && x in records :: x in old(records) && records[x] == old(records)[x]
    {
      Crash();
      var arrives: bool := *;
      if !arrives {
        return None;
      }
      var h := Issue(w, FreshRec(model(w.key)));
      var answered: bool := *;
      if !answered {
        return None;
      }
      given := given + {At(w, h)};
      handle := Some(h);
    }

    method Restore(w: Worker, blob: Bytes, lastSeq: nat) returns (handle: Option<nat>)
      requires Valid()
      modifies this`records, this`issued, this`given
      ensures Valid()
      ensures handle.Some? ==>
                var x := At(w, handle.value);
                && x !in old(given) && given == old(given) + {x}
                && w.serializable && model(w.key).deserialize(blob).Some?
                && x in records && records[x] == Rec(0, lastSeq, "", model(w.key).deserialize(blob).value)
                && Survives(old(records), records, {x})
      ensures handle.None? ==> given == old(given)
      ensures handle.None? ==>
                forall x | x in given && x in records :: x in old(records) && records[x] == old(records)[x]
    {
      Crash();
      var arrives: bool := *;
      if !arrives || !w.serializable || model(w.key).deserialize(blob).None? {
        return None;
      }
      var h := Issue(w, Rec(0, lastSeq, "", model(w.key).deserialize(blob).value));
      var answered: bool := *;
      if !answered {
        return None;
      }
      given := given + {At(w, h)};
      handle := Some(h);
    }

    /** An answer means the push was served; no answer means nothing at all. */
    method Push(w: Worker, handle: nat, seqEnd: nat, expected: nat, audio: Bytes) returns (reply: PushReply)
      requires Valid() && At(w, handle) in given
      modifies this`records
      ensures Valid()
      ensures Survives(old(records), records, {At(w, handle)})
      ensures At(w, handle) in records ==> At(w, handle) in old(records)
      ensures reply.Applied? || reply.Stale? ==>
                var x, a := At(w, handle), model(w.key);
                && x in old(records) && x in records
                && reply == PushAnswer(a, old(records)[x], seqEnd, expected, audio)
                && records[x] == AfterPush(a, old(records)[x], seqEnd, expected, audio)
    {
      var x := At(w, handle);
      var refused: bool, arrives: bool, answered: bool := *, *, *;
      Crash();
      if refused {
        var retryAfter: real := *;
        return RateLimited(retryAfter);
      }
      if !arrives || x !in records {
        return Failed;
      }
      var rec := records[x];
      records := records[x := AfterPush(model(w.key), rec, seqEnd, expected, audio)];
      reply := if answered then PushAnswer(model(w.key), rec, seqEnd, expected, audio) else Failed;
    }

    method Flush(w: Worker, handle: nat) returns (text: Option<string>)
      requires Valid() && At(w, handle) in given
      modifies this`records
      ensures Valid()
      ensures Survives(old(records), records, {At(w, handle)})
      ensures text.Some? ==> At(w, handle) in old(records)
      ensures text.Some? ==> text.value == model(w.key).finalize(old(records)[At(w, handle)].state)
    {
      var x := At(w, handle);
      var arrives: bool, answered: bool := *, *;
      Crash();
      if !arrives || x !in records {
        return None;
      }
      var rec := records[x];
      records := records[x := rec.(state := model(w.key).reset(rec.state))];
      text := if answered then Some(model(w.key).finalize(rec.state)) else None;
    }

    /** The blob is the record's state, or what a faulty worker made of it. */
    method TakeCheckpoint(w: Worker, handle: nat) returns (reply: Option<CheckpointReply>)
      requires Valid() && At(w, handle) in given
      modifies this`records
      ensures Valid() && Survives(old(records), records, {})
      ensures reply.Some? ==>
                var x, a := At(w, handle), model(w.key);
                && w.serializable && x in records
                && reply.value.generation == records[x].generation && reply.value.lastSeq == records[x].lastSeq
                && (reply.value.blob == a.serialize(records[x].state)
                    || reply.value.blob == Flip(a.serialize(records[x].state)))
    {
      var x := At(w, handle);
      var answered: bool, corrupting: bool := *, *;
      Crash();
      if !answered || !w.serializable || x !in records {
        return None;
      }
      var rec := records[x];
      var blob := model(w.key).serialize(rec.state);
      reply := Some(CheckpointReply(if corrupting then Flip(blob) else blob, rec.generation, rec.lastSeq));
    }

    /** Best effort, but asked for. */
    method Close(w: Worker, handle: nat) returns (ok: bool)
      requires Valid()
      modifies this`records, this`closed
      ensures Valid() && closed == old(closed) + if At(w, handle) in given then {At(w, handle)} else {}
      ensures Survives(old(records), records, {At(w, handle)})
    {
      var arrives: bool := *;
      Crash();
      if arrives {
        records := records - {At(w, handle)};
      }
      closed := closed + if At(w, handle) in given then {At(w, handle)} else {};
      ok := arrives;
    }
  }
}

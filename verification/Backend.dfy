/** A worker's sessions: worker/state.py and the stream handlers of
    worker/server.py, and the same workers as the gateway reaches them. */
module Backend {
  import opened Wrappers
  import opened Audio
  import opened Adapters

  /** A SessionRecord. */
  datatype Rec<S> = Rec(generation: nat, lastSeq: nat, lastText: string, state: S)

  function FreshRec<S>(a: Adapter<S>): Rec<S> { Rec(0, 0, "", a.initial) }

  datatype PushReply =
    | Applied(text: string, lastSeq: nat, generation: nat)
    | Stale
    | RateLimited(retryAfter: real)
    | Failed

  predicate Absorbs<S>(rec: Rec<S>, seqEnd: nat) { seqEnd <= rec.lastSeq }

  /** The record after a push. A stale push is refused, but only after infer has
      already changed the state in place. */
  function AfterPush<S>(a: Adapter<S>, rec: Rec<S>, seqEnd: nat, expected: nat, audio: Bytes): Rec<S> {
    if Absorbs(rec, seqEnd) then rec
    else if rec.generation != expected then rec.(state := a.infer(rec.state, audio))
    else Rec(rec.generation + 1, seqEnd, a.delta(rec.state, audio), a.infer(rec.state, audio))
  }

  function PushAnswer<S>(a: Adapter<S>, rec: Rec<S>, seqEnd: nat, expected: nat, audio: Bytes): PushReply {
    if !Absorbs(rec, seqEnd) && rec.generation != expected then Stale
    else
      var r := AfterPush(a, rec, seqEnd, expected, audio);
      Applied(r.lastText, r.lastSeq, r.generation)
  }

  // ---- what a serial client gets ----

  /** A push by the record's only writer. */
  function PushOne<S>(a: Adapter<S>, rec: Rec<S>, p: Piece): Rec<S> {
    AfterPush(a, rec, p.seqEnd, rec.generation, p.bytes)
  }

  function PushAll<S>(a: Adapter<S>, rec: Rec<S>, ps: seq<Piece>): Rec<S> {
    if ps == [] then rec else PushOne(a, PushAll(a, rec, ps[..|ps|-1]), ps[|ps|-1])
  }

  /** Nothing told apart but the generation and the text of the last answer. */
  predicate Same<S(==)>(r: Rec<S>, q: Rec<S>) { r.state == q.state && r.lastSeq == q.lastSeq }

  /** The record's only writer is always answered. */
  lemma OwnPush<S>(a: Adapter<S>, rec: Rec<S>, p: Piece)
    ensures PushAnswer(a, rec, p.seqEnd, rec.generation, p.bytes)
         == Applied(PushOne(a, rec, p).lastText, PushOne(a, rec, p).lastSeq, PushOne(a, rec, p).generation)
    ensures AfterPush(a, rec, p.seqEnd, rec.generation, p.bytes) == PushOne(a, rec, p)
  {
  }

  lemma PushSnoc<S>(a: Adapter<S>, rec: Rec<S>, ps: seq<Piece>, p: Piece)
    ensures PushAll(a, rec, ps + [p]) == PushOne(a, PushAll(a, rec, ps), p)
  {
    assert (ps + [p])[..|ps|] == ps;
  }

  lemma {:induction false} PushConcat<S>(a: Adapter<S>, rec: Rec<S>, xs: seq<Piece>, ys: seq<Piece>)
    ensures PushAll(a, rec, xs + ys) == PushAll(a, PushAll(a, rec, xs), ys)
  {
    if ys == [] {
      assert xs + ys == xs;
    } else {
      PushConcat(a, rec, xs, ys[..|ys|-1]);
      assert (xs + ys)[..|xs + ys|-1] == xs + ys[..|ys|-1];
    }
  }

  lemma {:induction false} PushSame<S>(a: Adapter<S>, r: Rec<S>, q: Rec<S>, ps: seq<Piece>)
    requires Same(r, q)
    ensures Same(PushAll(a, r, ps), PushAll(a, q, ps))
  {
    if ps != [] {
      PushSame(a, r, q, ps[..|ps|-1]);
    }
  }

  /** Chunks at or below what is applied change nothing. */
  lemma {:induction false} PushAbsorbed<S>(a: Adapter<S>, rec: Rec<S>, ps: seq<Piece>)
    requires forall i | 0 <= i < |ps| :: ps[i].seqEnd <= rec.lastSeq
    ensures PushAll(a, rec, ps) == rec
  {
    if ps != [] {
      PushAbsorbed(a, rec, ps[..|ps|-1]);
    }
  }

  // ---- lists of chunks that come to the same ----

  function MaxEnd(ps: seq<Piece>): nat {
    if ps == [] then 0
    else
      var m, e := MaxEnd(ps[..|ps|-1]), ps[|ps|-1].seqEnd;
      if e > m then e else m
  }

  /** The chunks a fresh record does not absorb. */
  function Effective(ps: seq<Piece>): seq<Piece> {
    if ps == [] then []
    else
      var init, p := ps[..|ps|-1], ps[|ps|-1];
      Effective(init) + if p.seqEnd <= MaxEnd(init) then [] else [p]
  }

  predicate Alike(xs: seq<Piece>, ys: seq<Piece>) { Effective(xs) == Effective(ys) }

  lemma EffectiveSnoc(ps: seq<Piece>, p: Piece)
    ensures Effective(ps + [p]) == Effective(ps) + (if p.seqEnd <= MaxEnd(ps) then [] else [p])
    ensures MaxEnd(ps + [p]) == if p.seqEnd > MaxEnd(ps) then p.seqEnd else MaxEnd(ps)
  {
    assert (ps + [p])[..|ps|] == ps;
  }

  lemma {:induction false} EffectiveEnd(ps: seq<Piece>)
    ensures MaxEnd(ps) == LastEnd(Effective(ps), 0)
  {
    if ps != [] {
      EffectiveEnd(ps[..|ps|-1]);
    }
  }

  /** A record is determined by the chunks that had an effect on it. */
  lemma {:induction false} EffectivePush<S>(a: Adapter<S>, ps: seq<Piece>)
    ensures PushAll(a, FreshRec(a), ps) == PushAll(a, FreshRec(a), Effective(ps))
    ensures PushAll(a, FreshRec(a), ps).lastSeq == MaxEnd(ps)
  {
    if ps != [] {
      var init, p := ps[..|ps|-1], ps[|ps|-1];
      EffectivePush(a, init);
      PushSnoc(a, FreshRec(a), Effective(init), p);
      if p.seqEnd <= MaxEnd(init) {
        assert Effective(ps) == Effective(init);
      }
    }
  }

  lemma AlikePush<S>(a: Adapter<S>, xs: seq<Piece>, ys: seq<Piece>)
    requires Alike(xs, ys)
    ensures PushAll(a, FreshRec(a), xs) == PushAll(a, FreshRec(a), ys)
  {
    EffectivePush(a, xs);
    EffectivePush(a, ys);
  }

  lemma AlikeSnoc(xs: seq<Piece>, ys: seq<Piece>, p: Piece)
    requires Alike(xs, ys)
    ensures Alike(xs + [p], ys + [p])
  {
    EffectiveSnoc(xs, p);
    EffectiveSnoc(ys, p);
    EffectiveEnd(xs);
    EffectiveEnd(ys);
  }

  lemma {:induction false} AlikeConcat(xs: seq<Piece>, ys: seq<Piece>, zs: seq<Piece>)
    requires Alike(xs, ys)
    ensures Alike(xs + zs, ys + zs)
  {
    if zs == [] {
      assert xs + zs == xs && ys + zs == ys;
    } else {
      hide Alike;
      var init, z := zs[..|zs|-1], zs[|zs|-1];
      AlikeConcat(xs, ys, init);
      AlikeSnoc(xs + init, ys + init, z);
      assert xs + zs == (xs + init) + [z] && ys + zs == (ys + init) + [z];
    }
  }

  lemma AlikeEnd(xs: seq<Piece>, ys: seq<Piece>)
    requires Alike(xs, ys)
    ensures MaxEnd(xs) == MaxEnd(ys)
  {
    EffectiveEnd(xs);
    EffectiveEnd(ys);
  }

  lemma {:induction false} MaxEndCovers(ps: seq<Piece>, k: nat)
    requires k < |ps|
    ensures ps[k].seqEnd <= MaxEnd(ps)
  {
    if k < |ps| - 1 {
      MaxEndCovers(ps[..|ps|-1], k);
    }
  }

  /** A chunk that is already there is absorbed when pushed again. */
  lemma AlikeAgain(xs: seq<Piece>, ys: seq<Piece>, k: nat)
    requires Alike(xs, ys) && k < |ys|
    ensures Alike(xs + [ys[k]], ys)
  {
    EffectiveSnoc(xs, ys[k]);
    EffectiveEnd(xs);
    EffectiveEnd(ys);
    MaxEndCovers(ys, k);
  }

  function Sounds(ps: seq<Piece>): (bs: seq<Bytes>)
    ensures |bs| == |ps|
  {
    if ps == [] then [] else Sounds(ps[..|ps|-1]) + [ps[|ps|-1].bytes]
  }

  /** Chunks with increasing spans are each applied exactly once, in order. */
  lemma {:induction false} AppliedOnce<S>(a: Adapter<S>, rec: Rec<S>, ps: seq<Piece>)
    requires SpansIncrease(ps, rec.lastSeq)
    ensures var r := PushAll(a, rec, ps);
            && r.state == Fold(a, rec.state, Sounds(ps))
            && r.lastSeq == LastEnd(ps, rec.lastSeq)
            && r.generation == rec.generation + |ps|
            && (ps != [] ==> r.lastText == a.delta(Fold(a, rec.state, Sounds(ps[..|ps|-1])), ps[|ps|-1].bytes))
  {
    if ps != [] {
      var init, p := ps[..|ps|-1], ps[|ps|-1];
      AppliedOnce(a, rec, init);
      assert Sounds(ps)[..|Sounds(ps)|-1] == Sounds(init);
    }
  }

  /** A push with the wrong generation is refused and yet not without effect:
      the state moves on while the number it answers for does not. */
  lemma StalePushMoves<S>(a: Adapter<S>, rec: Rec<S>, seqEnd: nat, expected: nat, audio: Bytes)
    ensures PushAnswer(a, rec, seqEnd, expected, audio) == Stale
            <==> seqEnd > rec.lastSeq && expected != rec.generation
    ensures PushAnswer(a, rec, seqEnd, expected, audio) == Stale ==>
              && AfterPush(a, rec, seqEnd, expected, audio).lastSeq == rec.lastSeq
              && AfterPush(a, rec, seqEnd, expected, audio).generation == rec.generation
              && (AfterPush(a, rec, seqEnd, expected, audio) == rec <==> a.infer(rec.state, audio) == rec.state)
  {
  }

  // ---- one worker process ----

  datatype CheckpointReply = CheckpointReply(blob: Bytes, generation: nat, lastSeq: nat)

  /** Every byte inverted, as the corruption fault does. */
  function Flip(blob: Bytes): (r: Bytes)
    ensures |r| == |blob|
  {
    seq(|blob|, i requires 0 <= i < |blob| => 255 - blob[i])
  }

  class StateStore<S(!new)> {
    const a: Adapter<S>
    const serializable: bool
    var records: map<nat, Rec<S>>
    var nextHandle: nat      // handles are never issued twice
    var corrupting: bool

    ghost predicate Valid()
      reads this
    {
      forall h | h in records :: h < nextHandle
    }

    constructor (a: Adapter<S>, serializable: bool)
      ensures this.a == a && this.serializable == serializable && Valid() && records == map[]
    {
      this.a, this.serializable := a, serializable;
      records, nextHandle, corrupting := map[], 0, false;
    }

    method Open(state: S, lastSeq: nat) returns (handle: nat)
      requires Valid()
      modifies this
      ensures Valid() && handle !in old(records)
      ensures records == old(records)[handle := Rec(0, lastSeq, "", state)]
      ensures corrupting == old(corrupting)
    {
      handle := nextHandle;
      nextHandle := nextHandle + 1;
      records := records[handle := Rec(0, lastSeq, "", state)];
    }

    /** Commits only over the generation the caller has seen. */
    method CompareAndCommit(handle: nat, expected: nat, lastSeq: nat, state: S,
                            text: string) returns (rec: Option<Rec<S>>)
      requires Valid() && handle in records
      modifies this`records
      ensures Valid()
      ensures rec.Some? <==> old(records[handle].generation) == expected
      ensures rec.Some? ==> rec.value == Rec(expected + 1, lastSeq, text, state)
      ensures records == if rec.Some? then old(records)[handle := rec.value] else old(records)
    {
      if records[handle].generation != expected {
        return None;
      }
      rec := Some(Rec(expected + 1, lastSeq, text, state));
      records := records[handle := rec.value];
    }

    method StreamPush(handle: nat, seqEnd: nat, expected: nat, audio: Bytes) returns (reply: PushReply)
      requires Valid()
      modifies this`records
      ensures Valid()
      ensures handle !in old(records) ==> reply == Failed && records == old(records)
      ensures handle in old(records) ==>
                && reply == PushAnswer(a, old(records[handle]), seqEnd, expected, audio)
                && records == old(records)[handle := AfterPush(a, old(records[handle]), seqEnd, expected, audio)]
    {
      if handle !in records {
        return Failed;
      }
      var rec := records[handle];
      if seqEnd <= rec.lastSeq {
        assert records == records[handle := rec];
        return Applied(rec.lastText, rec.lastSeq, rec.generation);
      }
      var text := a.delta(rec.state, audio);
      var next := a.infer(rec.state, audio);
      records := records[handle := rec.(state := next)];
      var committed := CompareAndCommit(handle, expected, seqEnd, next, text);
      if committed.None? {
        return Stale;
      }
      reply := Applied(committed.value.lastText, committed.value.lastSeq, committed.value.generation);
    }

    /** Finalizing leaves the record open, with whatever state it leaves behind. */
    method StreamFlush(handle: nat) returns (text: Option<string>)
      requires Valid()
      modifies this`records
      ensures Valid()
      ensures text == if handle in old(records) then Some(a.finalize(old(records[handle].state))) else None
      ensures records == if handle in old(records)
                         then old(records)[handle := old(records[handle]).(
                                              state := a.reset(old(records[handle].state)))]
                         else old(records)
    {
      if handle !in records {
        return None;
      }
      var rec := records[handle];
      text := Some(a.finalize(rec.state));
      records := records[handle := rec.(state := a.reset(rec.state))];
    }

    /** An unreadable blob is refused before any record exists. */
    method StreamRestore(blob: Bytes, lastSeq: nat) returns (handle: Option<nat>)
      requires Valid()
      modifies this
      ensures Valid() && corrupting == old(corrupting)
      ensures handle.Some? <==> serializable && a.deserialize(blob).Some?
      ensures handle.Some? ==> handle.value !in old(records)
      ensures handle.Some? ==>
                records == old(records)[handle.value := Rec(0, lastSeq, "", a.deserialize(blob).value)]
      ensures handle.None? ==> records == old(records)
    {
      if !serializable || a.deserialize(blob).None? {
        return None;
      }
      var h := Open(a.deserialize(blob).value, lastSeq);
      handle := Some(h);
    }

    method StreamCheckpoint(handle: nat) returns (reply: Option<CheckpointReply>)
      requires Valid()
      ensures reply.Some? <==> serializable && handle in records
      ensures reply.Some? ==>
                var rec := records[handle];
                && reply.value.generation == rec.generation && reply.value.lastSeq == rec.lastSeq
                && reply.value.blob == if corrupting then Flip(a.serialize(rec.state)) else a.serialize(rec.state)
    {
      if !serializable || handle !in records {
        return None;
      }
      var rec := records[handle];
      var blob := a.serialize(rec.state);
      if corrupting {
        blob := Flip(blob);
      }
      reply := Some(CheckpointReply(blob, rec.generation, rec.lastSeq));
    }
  }

  /** Serializing, restoring and replaying the rest equals never having stopped. */
  method RestoreElsewhere<S(!new)>(from: StateStore<S>, to: StateStore<S>, handle: nat, rest: seq<Piece>)
      returns (restored: Option<nat>)
    requires from != to && from.Valid() && to.Valid() && to.a == from.a && RoundTrips(from.a)
    requires handle in from.records && !from.corrupting && from.serializable && to.serializable
    modifies to
    ensures to.Valid() && restored.Some? && restored.value in to.records
    ensures Same(to.records[restored.value], PushAll(from.a, from.records[handle], rest))
  {
    var checkpoint := from.StreamCheckpoint(handle);
    restored := to.StreamRestore(checkpoint.value.blob, checkpoint.value.lastSeq);
    ghost var start := to.records[restored.value];
    for i := 0 to |rest|
      invariant to.Valid() && restored.value in to.records
      invariant to.records[restored.value] == PushAll(from.a, start, rest[..i])
    {
      PushSnoc(from.a, start, rest[..i], rest[i]);
      assert rest[..i+1] == rest[..i] + [rest[i]];
      var rec := to.records[restored.value];
      var reply := to.StreamPush(restored.value, rest[i].seqEnd, rec.generation, rest[i].bytes);
    }
    assert rest[..|rest|] == rest;
    PushSame(from.a, start, from.records[handle], rest);
  }
}

/** The loop that owns a session from its first frame to its cleanup: sessionLoop
    and handleControl in cmd/gateway/conn.go. */
module SessionLoop {
  import opened Wrappers
  import opened Audio
  import opened Session
  import opened Network
  import opened Failover
  import opened Finals
  import opened Gateway
  import opened History
  import opened Pipelines
  import Admission
  import Backend
  import Router

  /** What arrives: a frame that cannot be read, a control message, or audio. */
  datatype Inbound = Unreadable | Control(seqNo: nat, message: Message) | Sound(frame: Frame)

  datatype Message = Start(mode: string) | End | Unexpected

  function SeqOf(msg: Inbound): nat
    requires !msg.Unreadable?
  {
    if msg.Control? then msg.seqNo else msg.frame.seqNo
  }

  /** The frame number expected next. */
  function Expecting(msgs: seq<Inbound>): nat {
    if msgs == [] then 0 else AfterOne(Expecting(msgs[..|msgs|-1]), msgs[|msgs|-1])
  }

  function AfterOne(expected: nat, msg: Inbound): nat {
    if msg.Unreadable? || SeqOf(msg) < expected then expected else SeqOf(msg) + 1
  }

  /** The audio among the messages, frames seen before left out. */
  function AudioOf(p: Pipeline, msgs: seq<Inbound>): seq<Record> {
    if msgs == [] then []
    else
      var init := msgs[..|msgs|-1];
      With(p, AudioOf(p, init), Expecting(init), msgs[|msgs|-1])
  }

  function With(p: Pipeline, log: seq<Record>, expected: nat, msg: Inbound): seq<Record> {
    if msg.Sound? && expected <= msg.frame.seqNo then log + [RecordOf(p, msg.frame)] else log
  }

  lemma AudioNone(p: Pipeline, msgs: seq<Inbound>)
    ensures AudioOf(p, msgs[..0]) == [] && Expecting(msgs[..0]) == 0
  {
  }

  lemma AudioSnoc(p: Pipeline, msgs: seq<Inbound>, i: nat)
    requires i < |msgs|
    ensures AudioOf(p, msgs[..i+1]) == With(p, AudioOf(p, msgs[..i]), Expecting(msgs[..i]), msgs[i])
    ensures Expecting(msgs[..i+1]) == AfterOne(Expecting(msgs[..i]), msgs[i])
  {
    assert msgs[..i+1][..i] == msgs[..i];
  }

  class Loop<S(!new)> {
    const rec: Recovery<S>
    const admission: Admission.Controller
    const seqs: SeqValidator
    var conn: Option<Connection<S>>
    var admitted: bool
    ghost const base: seq<int>       // every worker's binds before this session
    ghost const slots: int           // sessions admitted before this one
    const id: string

    constructor (rec: Recovery<S>, admission: Admission.Controller)
      requires Prepared(rec) && Legal(rec.pipeline) && admission.admitted >= 0
      ensures this.rec == rec && this.admission == admission && fresh(seqs)
      ensures conn == None && !admitted && Intact(true) && Counted() && Ordered()
      ensures seqs.expected == 0 && rec.journal.log == []
      ensures base == rec.router.Binds() && slots == admission.admitted && id == rec.state.s.sessionId
    {
      hide Prepared, Router.Router.Valid, Router.Router.Binds, Network.Valid;
      this.rec, this.admission, conn, admitted := rec, admission, None, false;
      base, slots, id := rec.router.Binds(), admission.admitted, rec.state.s.sessionId;
      PreparedWell(rec);
      seqs := new SeqValidator();
      new;
      LoopApart();
    }

    ghost function Mine(): set<object>
      reads this
    {
      if conn.Some? then {conn.value} else {}
    }

    /** A session holds one admission slot from its start to its end. */
    ghost predicate Counted()
      reads this, admission
    {
      slots >= 0 && admission.admitted == slots + if admitted then 1 else 0
    }

    /** Frames let through come in strictly increasing order. */
    ghost predicate Ordered()
      reads this, seqs, rec.journal
    {
      && Increasing(rec.journal.log, 0) && (rec.journal.log != [] ==> LastSeq(rec.journal.log, 0) < seqs.expected)
      && (conn.Some? ==> seqs.expected > 0)
    }

    /** Whatever has happened, the session owes the fleet one bind if it started and
        none if it did not, and what it told the client is on record; while it goes
        on, it is ready for the next frame. */
    ghost predicate Intact(going: bool)
      reads this, rec.state, rec.net, rec.checkpoints, rec.journal, rec.journal.records, rec.metrics
      reads rec.router, rec.router.budgets, rec.router.fleet, Parts(rec.pipeline), Mine()
    {
      && |base| == |rec.router.workers| && rec.state.s.sessionId == id && Legal(rec.pipeline)
      && match conn
         case None =>
           && rec.net.Valid() && rec.router.Valid() && rec.router.Binds() == base
           && (going ==> Prepared(rec) && !admitted)
         case Some(c) =>
           && c.rec == rec && c.Over() && c.Past() && c.base.state.sessionId == id
           && c.base.binds == Router.AddBind(base, Router.Ids(rec.router.workers), c.base.state.workerId, 1)
           && (going ==> c.Chronicle())
    }

    /** session.start: admission, a worker, a bind, and the acknowledgement. */
    method Begin(mode: string) returns (going: bool)
      requires Intact(true) && Counted() && Ordered() && conn.None? && seqs.expected > 0
      modifies this, admission, rec.state, rec.net, rec.router.fleet, rec.router.budgets
      ensures Intact(going) && Counted() && Ordered()
      ensures conn.Some? ==> fresh(conn.value)
    {
      LoopApart();
      hide Prepared, Router.Router.Valid, Router.Router.Binds, Network.Valid, Connection.Chronicle, Connection.Over,
           Connection.Past, Increasing, Router.AddBind;
      var refused := admission.Admit();
      if refused {
        return false;
      }
      admitted := true;
      conn := StartSession(rec, mode);
      if conn.None? {
        return false;
      }
      Started();
      going := *;   // the acknowledgement
    }

    lemma Started()
      requires conn.Some? && conn.value.Chronicle()
      ensures conn.value.Over() && conn.value.Past()
    {
      hide Connection.Over, Connection.Past, Connection.Present;
    }

    lemma LoopApart()
      ensures this as object !in Parts(rec.pipeline) && admission as object !in Parts(rec.pipeline)
      ensures seqs as object !in Parts(rec.pipeline) && admission as object !in Mine()
      ensures forall w | w in rec.router.fleet :: w as object != admission
      ensures forall b | b in rec.router.budgets :: b as object != admission
    {
      PartsApart(rec);
      match rec.pipeline
      case Passthrough(plain) =>
      case Gated(vad) =>
    }

    /** Audio before session.start ends the session. */
    method Listen(f: Frame) returns (going: bool)
      requires Intact(true) && Counted() && Ordered() && f.seqNo < seqs.expected && (conn.Some? ==> 0 < f.seqNo)
      requires rec.journal.log != [] ==> LastSeq(rec.journal.log, 0) < f.seqNo
      modifies Mine(), rec.state, rec.metrics, rec.net, rec.checkpoints, rec.router.fleet, rec.router.budgets
      modifies Parts(rec.pipeline), rec.journal, rec.journal.records, rec.emitter
      ensures Intact(going) && Counted() && Ordered()
      ensures rec.journal.log == old(rec.journal.log) + if conn.Some? then [RecordOf(rec.pipeline, f)] else []
      ensures going ==> conn.Some?
    {
      LoopApart();
      hide Prepared, Router.Router.Valid, Router.Router.Binds, Network.Valid, Connection.Chronicle, Connection.Over,
           Connection.Past, Increasing, Router.AddBind;
      if conn.None? {
        return false;
      }
      Admits(rec.journal.log, RecordOf(rec.pipeline, f));
      going := conn.value.HandleAudio(f);
      Same(conn.value);
    }

    lemma Same(c: Connection<S>)
      requires c.rec == rec && c.Over()
      ensures rec.state.s.sessionId == c.base.state.sessionId && WellFormed(c.log) && rec.router.Valid()
      ensures rec.net.Valid() && FinalsIn(c.log) == |c.spoken|
      ensures |c.base.binds| == |rec.router.workers|
      ensures rec.router.Binds() == Router.TransferBind(c.base.binds, Router.Ids(rec.router.workers),
                                                        rec.state.s.workerId,
                                                        c.base.state.workerId)
    {
      hide FinalsIn, Router.Router.Valid, Router.Router.Binds, Network.Valid, WellFormed, Router.TransferBind;
    }

    /** Only audio and session.end go on once the session has started. */
    method Finish()
      requires Intact(true) && Counted() && Ordered()
      modifies Mine(), rec.state, rec.metrics, rec.net, rec.checkpoints, rec.router.fleet, rec.router.budgets
      modifies Parts(rec.pipeline), rec.emitter, rec.journal`committedSeq, rec.journal`haveCommitted
      ensures Intact(false) && Counted() && Ordered()
    {
      LoopApart();
      hide Prepared, Router.Router.Valid, Router.Router.Binds, Network.Valid, Connection.Chronicle, Connection.Over,
           Connection.Past, Increasing, Router.AddBind;
      if conn.Some? {
        var told := conn.value.Finish();
        Same(conn.value);
      } else {
        PreparedWell(rec);
      }
    }

    ghost predicate Running(going: bool)
      reads this, rec.state, rec.net, rec.checkpoints, rec.journal, rec.journal.records, rec.metrics, seqs, admission
      reads rec.router, rec.router.budgets, rec.router.fleet, Parts(rec.pipeline), Mine()
    {
      Intact(going) && Counted() && Ordered()
    }

    /** One message. Whatever the detector, the workers and the client do, the next
        message finds the session in order, or it is over. */
    method Handle(msg: Inbound) returns (going: bool)
      requires Running(true)
      modifies this, Mine(), seqs, admission
      modifies rec.state, rec.metrics, rec.net, rec.checkpoints, rec.router.fleet, rec.router.budgets
      modifies Parts(rec.pipeline), rec.journal, rec.journal.records, rec.emitter
      ensures Running(going)
      ensures var more := With(rec.pipeline, old(rec.journal.log), old(seqs.expected), msg);
              if going then rec.journal.log == more && seqs.expected == AfterOne(old(seqs.expected), msg)
              else rec.journal.log == more || rec.journal.log == old(rec.journal.log)
      ensures conn == old(conn) || (old(conn).None? && conn.Some? && fresh(conn.value))
    {
      hide Intact, Counted, Ordered;
      var isNew := false;
      going := false;
      if msg.Unreadable? {
        IntactEnds();
      } else {
        isNew, going := Screen(SeqOf(msg));
        if isNew {
          going := Act(msg);
        } else if !going {
          IntactEnds();
        }
      }
    }

    /** Frame numbering: a replayed frame is skipped, a gap is reported. */
    method Screen(n: nat) returns (isNew: bool, going: bool)
      requires Intact(true) && Counted() && Ordered()
      modifies seqs
      ensures Intact(true) && Counted() && Ordered() && (isNew ==> going && n < seqs.expected && (conn.Some? ==> 0 < n))
      ensures isNew == (going && old(seqs.expected) <= n)
      ensures going ==> seqs.expected == if n < old(seqs.expected) then old(seqs.expected) else n + 1
      ensures isNew ==> (rec.journal.log != [] ==> LastSeq(rec.journal.log, 0) < n)
    {
      LoopApart();
      hide Intact, Increasing;
      var outcome := seqs.Validate(n);
      if outcome == Duplicate {
        return false, true;
      }
      going := true;
      if outcome.Gap? {
        going := *;   // the discontinuity
      }
      isNew := going;
    }

    /** A message that is not a replay of an earlier one. */
    method Act(msg: Inbound) returns (going: bool)
      requires !msg.Unreadable? && Intact(true) && Counted() && Ordered() && SeqOf(msg) < seqs.expected
      requires rec.journal.log != [] ==> LastSeq(rec.journal.log, 0) < SeqOf(msg)
      requires conn.Some? ==> 0 < SeqOf(msg)
      modifies this, Mine(), admission
      modifies rec.state, rec.metrics, rec.net, rec.checkpoints, rec.router.fleet, rec.router.budgets
      modifies Parts(rec.pipeline), rec.journal, rec.journal.records, rec.emitter
      ensures Intact(going) && Counted() && Ordered()
      ensures rec.journal.log == old(rec.journal.log)
           || (msg.Sound? && rec.journal.log == old(rec.journal.log) + [RecordOf(rec.pipeline, msg.frame)])
      ensures going && msg.Sound? ==> rec.journal.log != old(rec.journal.log)
      ensures conn == old(conn) || (old(conn).None? && conn.Some? && fresh(conn.value))
    {
      hide Intact, Counted, Ordered;
      IntactEnds();
      match msg
      case Control(_, Start(mode)) =>
        if conn.Some? {
          return false;
        }
        going := Begin(mode);
      case Control(_, End) =>
        Finish();
        going := false;
      case Control(_, Unexpected) =>
        going := false;
      case Sound(f) =>
        going := Listen(f);
    }

    /** The whole session: messages until one ends it or no more come, then the
        cleanup. However it went, the client saw a well-formed transcript whose finals
        are all on record against the frames heard, those frames are the audio of the
        messages it got to, in order and without repeats, and the session leaves nothing
        behind: no bind on any worker, no admission slot, no checkpoint. */
    method Run(msgs: seq<Inbound>) returns (ghost got: nat)
      requires Running(true) && conn.None? && seqs.expected == 0 && rec.journal.log == []
      modifies this, seqs, admission
      modifies rec.state, rec.metrics, rec.net, rec.checkpoints, rec.router.fleet, rec.router.budgets
      modifies Parts(rec.pipeline), rec.journal, rec.journal.records, rec.emitter
      ensures rec.router.Valid() && rec.router.Binds() == base
      ensures admission.admitted == slots
      ensures id !in rec.checkpoints.entries
      ensures got <= |msgs| && rec.journal.log == AudioOf(rec.pipeline, msgs[..got])
      ensures Increasing(rec.journal.log, 0)
      ensures conn.Some? ==> conn.value.rec == rec && WellFormed(conn.value.log) && conn.value.Past()
      ensures conn.Some? ==> FinalsIn(conn.value.log) == |conn.value.spoken|
    {
      hide FinalsIn, With, AfterOne, AudioOf, Expecting, Running, Increasing, WellFormed, Router.Router.Binds,
           Router.Router.Valid;
      var going, i := true, 0;
      got := 0;
      AudioNone(rec.pipeline, msgs);
      while i < |msgs| && going
        invariant Running(going) && (conn.Some? ==> fresh(conn.value))
        invariant got <= i <= |msgs| && rec.journal.log == AudioOf(rec.pipeline, msgs[..got])
        invariant going ==> got == i && seqs.expected == Expecting(msgs[..i])
        decreases |msgs| - i
      {
        AudioSnoc(rec.pipeline, msgs, i);
        ghost var before := rec.journal.log;
        going := Handle(msgs[i]);
        i := i + 1;
        if going || rec.journal.log != before {
          got := i;
        }
      }
      RunningEnds(going);
      CleanUp();
    }

    /** What Run's record of the finals comes to. If nothing failed over during the i-th
        utterance, or if the failover was covered (no checkpoint restored under the gated
        pipeline, the final before ended with its utterance's last voiced frame, a clean
        onset, and room in the ring), then the i-th final is the text a model of the fleet
        gives for the i-th utterance's chunks, each pushed once, without the flushed one
        exactly if pushing that one failed over. Utterances that saw a failover are no
        more than the failovers. */
    lemma Transcript(i: nat)
      requires conn.Some? && conn.value.rec == rec && conn.value.Past() && i < |conn.value.spoken|
      requires Trusty(rec.pipeline, rec.journal.log, rec.journal.records.Length, conn.value.spoken, i,
                      conn.value.base.counts)
      ensures i < |AllUttered(rec.pipeline, rec.journal.log)|
      ensures var c := conn.value;
              var t, u := c.spoken[i], AllUttered(rec.pipeline, rec.journal.log)[i];
              && t.at < |c.log| && c.log[t.at].Final? && c.log[t.at].utterance == i + 1
              && c.log[t.at].seqEnd == t.applied
              && c.log[t.at].text == TextOf(rec.net.model(t.key), if Lost(t) then u.chunks else u.chunks + u.tail)
              && (Lost(t) ==> u.tail != [])
              && exists w :: w in rec.router.workers && w.key == t.key
      ensures Upset(conn.value.spoken, conn.value.base.counts)
           <= Troubles(rec.metrics.n) - Troubles(conn.value.base.counts)
    {
      hide Trusty, AllUttered, TextOf, Upset, Lost;
      var c := conn.value;
      FinalsSay(rec.net.model, c.log, rec.pipeline, rec.journal.log, rec.journal.records.Length, c.spoken,
                c.base.counts, rec.metrics.n, i);
      assert c.Serves(c.spoken[i].key);
    }

    /** The client was told no other finals, and each utterance's once. */
    lemma NoOthers(j: nat)
      requires conn.Some? && conn.value.rec == rec && conn.value.Past()
      requires FinalsIn(conn.value.log) == |conn.value.spoken| && j < |conn.value.log| && conn.value.log[j].Final?
      ensures var c := conn.value;
              1 <= c.log[j].utterance <= |c.spoken| && c.spoken[c.log[j].utterance - 1].at == j
    {
      hide FinalsIn, Truthful;
      OnlyThese(rec.net.model, conn.value.log, conn.value.spoken, j);
    }

    lemma RunningEnds(going: bool)
      requires Running(going)
      ensures Running(false)
    {
      if going {
        IntactEnds();
      }
    }

    /** The deferred cleanup. */
    method CleanUp()
      requires Running(false)
      modifies admission, rec.net, rec.checkpoints, rec.router.fleet
      ensures rec.router.Valid() && rec.router.Binds() == base
      ensures admission.admitted == slots
      ensures id !in rec.checkpoints.entries
      ensures Increasing(rec.journal.log, 0)
      ensures conn.Some? ==> conn.value.rec == rec && WellFormed(conn.value.log) && conn.value.Past()
      ensures conn.Some? ==> FinalsIn(conn.value.log) == |conn.value.spoken|
    {
      LoopApart();
      hide FinalsIn, Intact, Router.Router.Valid, Router.Router.Binds, Increasing, WellFormed;
      if admitted {
        admission.Release();
      }
      GiveBack();
      rec.checkpoints.Delete(id);
    }

    /** Close the handle and give up the bind, if there is one. */
    method GiveBack()
      requires Intact(false)
      modifies rec.net, rec.router.fleet
      ensures rec.router.Valid() && rec.router.Binds() == base
      ensures conn.Some? ==> conn.value.rec == rec && WellFormed(conn.value.log) && conn.value.Past()
      ensures conn.Some? ==> FinalsIn(conn.value.log) == |conn.value.spoken|
    {
      hide FinalsIn, Prepared, Router.Router.Valid, Router.Router.Binds, Network.Valid, WellFormed,
           Connection.Chronicle, Connection.Over, Connection.Past, Router.AddBind, Router.TransferBind, Router.Ids;
      if conn.Some? {
        Same(conn.value);
        var closed := rec.net.Close(conn.value.client, rec.state.s.handle);
        rec.router.UnbindFrom(rec.state.s.workerId);
        Router.BindBalances(base, Router.Ids(rec.router.workers), conn.value.base.state.workerId, rec.state.s.workerId);
      }
    }

    lemma IntactEnds()
      requires Intact(true)
      ensures Intact(false)
    {
      hide Prepared, Router.Router.Valid, Router.Router.Binds, Network.Valid, Connection.Chronicle, Connection.Over,
           Connection.Past, Router.AddBind;
      if conn.None? {
        PreparedWell(rec);
      }
    }
  }

  lemma Admits(log: seq<Record>, r: Record)
    requires Increasing(log, 0) && r.seqNo > 0 && (log != [] ==> LastSeq(log, 0) < r.seqNo)
    ensures Increasing(log + [r], 0) && LastSeq(log + [r], 0) == r.seqNo
  {
    assert (log + [r])[..|log|] == log;
  }

  lemma PreparedWell<S(!new)>(rec: Recovery<S>)
    requires Prepared(rec)
    ensures rec.net.Valid() && rec.router.Valid() && rec.journal.log == []
  {
  }
}

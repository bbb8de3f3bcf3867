/** internal/audio/vad.go's vadPipeline, updated in place. */
module VadPipeline {
  import opened Audio
  import opened Vad
  import opened Wrappers

  class Pipeline {
    const config: Config
    const live: Accumulator
    var ready: seq<Chunk>
    var boundaries: seq<Event>
    var active: bool
    var voiceMs: nat
    var silenceMs: nat
    var preRoll: seq<Record>
    var preRollSamples: nat

    ghost predicate Valid()
      reads this, live
    {
      && live.Valid()
      && live.chunkSamples == config.chunkSamples
      && preRollSamples == Total(preRoll)
    }

    ghost function View(): Machine
      reads this, live
    {
      Machine(active, voiceMs, silenceMs, preRoll, live.View())
    }

    constructor (config: Config)
      ensures Valid() && fresh(live) && this.config == config
      ensures View() == Fresh && ready == [] && boundaries == []
    {
      this.config := config;
      live := new Accumulator(config.chunkSamples);
      ready, boundaries := [], [];
      active, voiceMs, silenceMs, preRoll, preRollSamples := false, 0, 0, [], 0;
    }

    method KeepPreRoll(r: Record)
      requires Valid()
      modifies this`preRoll, this`preRollSamples
      ensures Valid()
      ensures preRoll == Keep(config, old(preRoll), r)
    {
      preRoll := preRoll + [Kept(r)];
      preRollSamples := preRollSamples + r.samples;
      TotalSnoc(old(preRoll), Kept(r));
      while preRollSamples > config.preRollMs * SAMPLES_PER_MS && |preRoll| > 0
        invariant preRollSamples == Total(preRoll)
        invariant Trim(PreRollLimit(config), preRoll) == Keep(config, old(preRoll), r)
      {
        DropHead(preRoll);
        preRollSamples := preRollSamples - preRoll[0].samples;
        preRoll := preRoll[1..];
      }
    }

    method ApplyHysteresis(r: Record)
      requires Valid()
      modifies this, live
      ensures Valid()
      ensures View() == Step(config, old(View()), r)
      ensures Pieces(ready) == old(Pieces(ready)) + StepOut(config, old(View()), r)
      ensures boundaries == old(boundaries) + StepEvents(config, old(View()), r)
    {
      hide Keep, Total;
      if !active {
        KeepPreRoll(r);
        if r.voiced {
          voiceMs := voiceMs + r.samples / SAMPLES_PER_MS;
        } else {
          voiceMs := 0;
        }
        if voiceMs < config.startSpeechMs {
          return;
        }
        StartSpeech(r.seqNo);
        return;
      }
      if r.voiced {
        silenceMs := 0;
        preRoll, preRollSamples := [], 0;
        TotalNone();
        var cut := live.FeedRecord(r);
        ready := ready + cut;
        return;
      }
      KeepPreRoll(r);
      silenceMs := silenceMs + r.samples / SAMPLES_PER_MS;
      if silenceMs < config.endSilenceMs {
        return;
      }
      active := false;
      silenceMs := 0;
      boundaries := boundaries + [Endpoint(r.seqNo)];
      KeepPreRoll(r);
    }

    /** The branch taken once enough voice has been heard. */
    method StartSpeech(seqNo: nat)
      requires Valid()
      modifies this, live
      ensures Valid()
      ensures View() == Machine(true, 0, 0, [], CutState(config.chunkSamples, old(live.View()), old(preRoll)))
      ensures Pieces(ready) == old(Pieces(ready)) + CutOut(config.chunkSamples, old(live.View()), old(preRoll))
      ensures boundaries == old(boundaries) + [SpeechStart(seqNo)]
    {
      hide Total, CutState, CutOut, FeedState, FeedOut;
      active := true;
      voiceMs := 0;
      silenceMs := 0;
      boundaries := boundaries + [SpeechStart(seqNo)];
      FeedAll();
      preRoll, preRollSamples := [], 0;
      TotalNone();
    }

    method FeedAll()
      requires Valid()
      modifies this`ready, live
      ensures Valid()
      ensures live.View() == CutState(config.chunkSamples, old(live.View()), preRoll)
      ensures Pieces(ready) == old(Pieces(ready)) + CutOut(config.chunkSamples, old(live.View()), preRoll)
    {
      hide Total, FeedState, FeedOut;
      ghost var limit, p := config.chunkSamples, live.View();
      for i := 0 to |preRoll|
        invariant live.Valid() && live.chunkSamples == limit
        invariant live.View() == CutState(limit, p, preRoll[..i])
        invariant Pieces(ready) == old(Pieces(ready)) + CutOut(limit, p, preRoll[..i])
      {
        assert preRoll[..i+1] == preRoll[..i] + [preRoll[i]];
        CutSnoc(limit, p, preRoll[..i], preRoll[i]);
        var cut := live.FeedRecord(preRoll[i]);
        ready := ready + cut;
      }
      assert preRoll[..|preRoll|] == preRoll;
    }

    method Ready() returns (out: seq<Chunk>)
      requires Valid()
      modifies this`ready
      ensures Valid() && View() == old(View())
      ensures out == old(ready) && ready == []
    {
      out := ready;
      ready := [];
    }

    method Boundary() returns (ev: Option<Event>)
      requires Valid()
      modifies this`boundaries
      ensures Valid() && View() == old(View())
      ensures ev == (if old(boundaries) == [] then None else Some(old(boundaries)[0]))
      ensures boundaries == if old(boundaries) == [] then [] else old(boundaries)[1..]
    {
      if |boundaries| == 0 {
        return None;
      }
      ev := Some(boundaries[0]);
      boundaries := boundaries[1..];
    }

    method OldestNeeded() returns (start: Option<nat>)
      requires Valid()
      ensures start == RetentionStart(View())
    {
      if |preRoll| == 0 {
        return None;
      }
      start := Some(preRoll[0].seqNo);
    }

    method Flush() returns (out: seq<Chunk>)
      requires Valid()
      modifies live
      ensures Valid()
      ensures Pieces(out) == ForceCut(old(live.View()))
      ensures View() == Flushed(old(View()))
    {
      out := live.ForceCutPending();
    }

    /** Replays the recorded decisions through a fresh pipeline. */
    method RecutRecords(records: seq<Record>) returns (out: seq<Chunk>)
      ensures Pieces(out) == Vad.Recut(config, records)
    {
      hide Step, StepOut;
      var replay := new Pipeline(config);
      out := [];
      for i := 0 to |records|
        invariant fresh(replay) && fresh(replay.live) && replay.Valid() && replay.config == config
        invariant replay.View() == Run(config, Fresh, records[..i]) && replay.ready == []
        invariant Pieces(out) == Vad.Recut(config, records[..i])
      {
        assert records[..i+1] == records[..i] + [records[i]];
        RunSnoc(config, Fresh, records[..i], records[i]);
        replay.ApplyHysteresis(records[i]);
        var cut := replay.Ready();
        out := out + cut;
      }
      assert records[..|records|] == records;
    }
  }

  lemma TotalNone()
    ensures Total([]) == 0
  {
  }

  lemma DropHead(rs: seq<Record>)
    requires rs != []
    ensures Total(rs) == rs[0].samples + Total(rs[1..])
  {
    TotalConcat([rs[0]], rs[1..]);
    TotalOne(rs[0]);
    assert rs == [rs[0]] + rs[1..];
  }
}

# ASR serving: a verified model

Dafny proofs about a fault-tolerant speech recognition service: a gateway cuts
a client's audio into chunks and pushes them to worker processes that hold
model state, moves a session to another worker when one fails, and promises
that the transcript does not show it. The model covers the two ways the
service keeps that promise, the machines both rely on, and what each machine
owes the others.

* Pinned sessions. `Audio`, `Vad`, `VadPipeline`, `Pipelines` and `Journal` cut and
  keep the audio; `Replay`, `Resume` and `History` compare, over whole sessions, what a
  recovery would replay with what was cut live; `Backend` and `Network` are the
  workers; `Checkpoint` and `Failover` are the recovery; `Finals` is what a session's
  finals say of what it heard; `Gateway` is its dispatching, endpoints and finals;
  `SessionLoop` runs a session from its first message to its cleanup. `Instances`
  holds small sessions that reach the conditions of the general results.
* Stateless sessions. `Stateless` is the step system of clients, attempts, hot
  caches and the tier; `HotCache` is a worker's cache of mutable objects on the
  heap, and `Mirror` shows that what it does are steps of that system; `KvTier` is the
  byte-bounded tier, `StateRefs` its names; `Versions` streams a session through it.
* The fleet. `Router`, `Health` and `Bucket` choose and judge workers; `Ledger` counts
  their sessions; `Admission` bounds how many there are.
* The transcript and the models. `Session` is the event stream and the frame
  numbering; `Ctc` is window splitting and greedy decoding; `Quant` is the state
  codec. `Adapters` says what a model is: a state, a step, a text and a codec.

Code that changes things step by step is a class or a loop, proved against a
function of its old state; what the service promises is then proved of that
function, over every run. Durations are counted in samples, 16 to the
millisecond, since a session is only started at 16000 Hz
(internal/wire/frame.go:124-128). Failures of workers and of the network, losses
of answers, evictions, the detector's decisions, the clock and the client's
disappearance are nondeterministic: they may happen at any call.

Two hypotheses are made about models: a codec that serializes gives back the
state it was given (`RoundTrips`), and a blob with every byte flipped is not
readable (`Trustworthy`). The checksum is any function that never yields the
mark of a corrupted checkpoint.

Words used in the table. An onset is *clean* when the endpoint frame, which
pre-roll keeps twice (internal/audio/vad.go:193 and 201), has left pre-roll, or its
second copy has and the frame before it too; a first utterance's onset always
is. An utterance's *tail* is the chunk Flush forces out at its end. An utterance is
*calm* when nothing failed over while it was open. Its failovers are *covered* when
frame numbers increase, its own onset was clean, the final before it had applied its
utterance's last voiced frame, the ring still held what a replay of it needs, and,
under the gated pipeline, no checkpoint was restored meanwhile. All of these are
read at the end of that utterance.

## Model

| member | source | states |
|---|---|---|
| SessionLoop.Loop.Run | cmd/gateway/conn.go:255-339 | For every list of messages, however the detector, the workers and the client behave: the frames journaled are exactly the audio of the messages got to, duplicates dropped, in increasing order; the client's log is well formed and holds as many finals as are on record; and the session leaves no bind on any worker, no admission slot and no checkpoint behind. |
| SessionLoop.Loop.Transcript | cmd/gateway/conn.go:564-608 | After any such run, for every final whose utterance was calm or whose failovers were covered: its text is what a model of the fleet gives for its utterance's chunks, each pushed once onto a fresh state, without the flushed chunk if and only if pushing that one failed over. Each final is judged by its own utterance and nothing that came later. Finals whose utterance saw a failover are no more than the failovers. |
| SessionLoop.Loop.NoOthers | cmd/gateway/conn.go:778-792 | After any run every final the client was told is the one on record for its utterance: no utterance has two, and none is unaccounted for. |
| SessionLoop.Loop.CleanUp | cmd/gateway/conn.go:285-304 | The deferred cleanup gives back exactly what the session took, whether or not it ever started. |
| SessionLoop.Loop.Screen | cmd/gateway/conn.go:312-321 | A frame number seen before is skipped without ending the session; anything else is let through and raises the number expected next. |
| Finals.FinalsSay | cmd/gateway/conn.go:758-813 | The same of the session's own record of finals, with the counters read before the flush and at the final: the flushed chunk is missing exactly when they show a failover in between. |
| Finals.PlainSays | internal/audio/pipeline.go:171-219 | A pass-through session tells at most one final; its chunks and the flushed tail spell out exactly the voiced payload heard, and the final is what the model makes of them, each fed once and in order, or of all but the tail exactly if pushing that failed over. |
| Finals.OnlyThese | internal/session/events.go:183-199 | A log with as many finals as are on record has no others, so each final is the one of its utterance. |
| Finals.HandedFollows | cmd/gateway/conn.go:766-787 | After a final that can be relied on and did not lose its tail, the journal hands on exactly what the next utterance's recovery should read. So with clean onsets, room in the ring and no restore, only a lost tail makes a later final unreliable. |
| Gateway.Connection.HandleAudio | cmd/gateway/conn.go:564-608 | One audio frame is journaled whatever happens, and keeps the session's chronicle: pipeline, chunks cut, finals told, committed floor and worker record all agree with the frames heard so far. |
| Gateway.Connection.CloseUtterance | cmd/gateway/conn.go:758-813 | The end of an utterance keeps the chronicle: its final joins the record and the next utterance starts on an empty one. |
| Gateway.Connection.Finish | cmd/gateway/conn.go:464-498 | session.end tells at most one more final, and that final is on record like the others. |
| Gateway.Connection.FloorClear | cmd/gateway/conn.go:766-787 | At every moment of a gated session whose endpoint frames fit the pre-roll, every record in live pre-roll and in the chunk in progress lies above the journal's committed floor. |
| Gateway.Connection.DispatchChunk | cmd/gateway/conn.go:827-943 | A pushed chunk extends what the session's record stands for by itself; a failed push ends with the record rebuilt by replay, and then a failure counter has grown. A stale generation never occurs. The log stays well formed and gains no final. |
| Gateway.Connection.DispatchAll | cmd/gateway/conn.go:598-602 | After the loop over the ready chunks the record stands for every chunk cut since the last commit, each once: chunks left over after a recovery are pushed again and absorbed. |
| Gateway.Connection.DispatchTail | cmd/gateway/conn.go:759-763 | The chunk Flush cut off is lost if and only if pushing it failed over: if not, the record has it after all others; if so, and replay repeats the live cuts, the record is the live chunks without it. |
| Gateway.Connection.FinalizeEndpoint | cmd/gateway/conn.go:758-813 | The final told at an endpoint speaks for all chunks of the utterance, or for all but the tail exactly if pushing that failed over; the journal's floor moves to the end of the utterance or below the retained pre-roll; the next utterance starts with fresh state and number. |
| Gateway.Connection.EndSession | cmd/gateway/conn.go:464-498 | The final of session.end speaks for all chunks, or for all but the tail exactly if pushing that failed over. |
| Gateway.Connection.TrimJournal | cmd/gateway/conn.go:769-787 | The committed floor is the applied end, or just below the first retained pre-roll record if that is lower; with that record at 0 nothing is trimmed. |
| Gateway.Connection.TakeCheckpoint | cmd/gateway/conn.go:976-991 | A checkpoint, taken or not, leaves the session alone; one that is taken stands for exactly the chunks applied so far. |
| Gateway.Connection.Recover | cmd/gateway/conn.go:879-898 | A failover tells the client one reset and the regenerated partial, keeps the log well formed, moves the bind, and leaves the session on a record of the replayed chunks. |
| Gateway.RegainedExact | cmd/gateway/conn.go:822-826 | When replay repeats the live cuts, full or from a checkpoint, the rebuilt record has the same effect as the chunks cut since the commit. |
| Gateway.StartSession | cmd/gateway/conn.go:344-462 | session.start either leaves every worker's binds alone or adds one bind, to the worker the state names, and starts the chronicle. |
| Gateway.OpenWithRetry | cmd/gateway/conn.go:512-529 | A worker opened on hands over a new, open handle with a fresh record; no bind is taken by trying. |
| Gateway.Connection.PushChunk | cmd/gateway/conn.go:828-847 | An answered push extends the record by its chunk and moves the session's generation and number to the answer's; any other answer leaves the session's view alone, and a stale one never comes. |
| Gateway.Connection.Reopen | cmd/gateway/conn.go:792-812 | The next utterance gets a new handle with a fresh record, no checkpoint, the next number, and keeps the applied number. |
| Gateway.Connection.LastWord | cmd/gateway/conn.go:481-498 | The last final starts at 0, ends at what was applied, and is on record. |
| Failover.Recovery.HandleBackendFailure | internal/coord/failover.go:173-265 | At most three replacements, pairwise different and none the owner. On failure the whole session state is as before and every handle given was closed; on success exactly one more handle is open, behind it is the fold of the replayed chunks, and the bind has moved. Failovers stay equal to same-model plus cross-model, and restores <= same-model <= restores + degraded. |
| Failover.Recovery.RecoverSameModel | internal/coord/failover.go:82-113 | The record is the checkpoint's state with everything journaled past it, or a full replay; a checkpoint is used only if it is on file with the target's key and an intact checksum; the counters say which it was. |
| Failover.Recovery.RecoverCrossModel | internal/coord/failover.go:131-157 | A fresh record on the target holds everything since the last commit, recut and pushed in order; no state crosses over. |
| Failover.Recovery.ReplayChunks | internal/coord/failover.go:50-68 | If every push is answered, the handle's record is its old one with all chunks pushed in order, and the session's generation, applied number and text mirror it. |
| Failover.Recovery.Attempt | internal/coord/failover.go:192-262 | One attempt on one picked replacement leaves one more open handle or undoes itself. |
| Failover.Recovery.RollBack | internal/coord/failover.go:241-258 | A failed attempt's handle is closed, if it got one, and the whole session state is put back. |
| Checkpoint.CheckpointStore.Store | internal/coord/checkpoint.go:72-80 | A stored checkpoint is the session's latest and may be restored on exactly the workers with its key. |
| Checkpoint.CheckpointStore.Corrupt | internal/coord/checkpoint.go:108-121 | A corrupted checkpoint can be restored nowhere; the others are untouched. |
| Replay.ReplayIsLive | internal/audio/vad.go:244-252 | At every moment of every session whose open utterance began cleanly, whatever earlier ones were like, an idle machine run on what follows the last voiced frame before the last endpoint reaches the live machine's state, up to pre-roll while idle, and has cut the chunks cut since that endpoint. A first utterance is always clean. |
| Replay.ShortNext | cmd/gateway/conn.go:576-603 | The same holds one frame on, with the newest frame journaled and its endpoint not yet committed, which is where a recovery happens, and for any journal that has kept as much as the open utterance needs, however much earlier silence the ring has overwritten. |
| Replay.ShortReplay | internal/journal/journal.go:64-107 | Replaying only the newest records, back to where the open utterance's first chunk or its pre-roll begins, reaches the live machine's state and cuts its chunks too. |
| Replay.RepeatsIff | internal/audio/vad.go:187-202 | From any onset on, a full replay dispatches the live chunks and tail exactly when that onset was clean: when the doubly kept endpoint frame had left pre-roll, or its second copy had and the frame before it too. Otherwise, for every wire-legal continuation of the utterance, it differs. |
| Replay.FedIff | internal/audio/vad.go:204-211 | At an onset the live and the replayed machine feed the same records exactly when the onset is clean. |
| Replay.CommitFloor | cmd/gateway/conn.go:766-787 | When every chunk of an utterance that began cleanly was applied, the committed floor is its last voiced frame, and what the journal then hands a full replay starts right after it. |
| Replay.FloorIff | cmd/gateway/conn.go:766-787 | Whatever was applied of an utterance, the floor a commit leaves is there, and what the journal then hands a full replay starts right after the utterance if and only if its last voiced frame was applied. |
| Replay.FloorStaysBelow | cmd/gateway/conn.go:769-787 | Over any session whose endpoint frames fit the pre-roll, and whatever recoveries did to the applied counter, live pre-roll and the pending chunk stay above the committed floor. |
| Replay.PreRollOfSession | internal/audio/vad.go:204-211 | At every moment of every session, pre-roll is the longest suffix of what was kept that fits in PreRollMs. |
| Replay.OnsetOfSession | internal/audio/vad.go:155-178 | At every onset of every session the whole triggering voiced run is fed exactly when it fits in the pre-roll, and it does fit for whole-millisecond frames with room for StartSpeechMs plus one frame. |
| Resume.RestoreIff | internal/coord/failover.go:83-106 | While an utterance is open and its latest checkpoint stands for its first k chunks, for any k: a recovery reproduces the live cuts for every continuation if and only if it does not restore that checkpoint, or the tail past it has already brought an idle machine to the live one's state and chunks. |
| Resume.GuardIff | internal/coord/failover.go:83-87 | So, before the restore is tried: for every outcome and every continuation the live cuts come back if and only if no checkpoint on file passes the key and checksum guard for the target, or the tail has caught up. |
| Resume.JustTaken | cmd/gateway/conn.go:916-925 | A checkpoint of the newest chunk with nothing journaled past it has not caught up, so restoring it diverges for some continuation. |
| Instances.AllTail | cmd/gateway/conn.go:469-473 | One voiced frame shorter than a chunk, through either pipeline: no chunk is cut before the flush and none by a replay, so if pushing the tail fails over the final is that of a model that heard nothing. |
| Instances.UncleanReached | internal/audio/vad.go:187-202 | A wire-legal session of three frames reaches an onset that is not clean, where a full replay dispatches other chunks than live. |
| Instances.BoundaryReached | internal/coord/failover.go:83-106 | A session of one frame reaches a chunk boundary inside an utterance, and a continuation is given that is cut otherwise after restoring there. |
| Instances.CaughtUpReached | internal/coord/failover.go:83-106 | A checkpoint of the first of two chunks cut at one onset has caught up before the second is pushed. |
| Instances.LostTailAgain | cmd/gateway/conn.go:766-787 | A wire-legal session of four frames: its first utterance is all tail; with that lost the floor stays at 0, and the next utterance's replay cuts the lost frame into its own first chunk where live cut none of it. |
| Vad.FractionalFramesClip | internal/audio/vad.go:155-178 | Without whole milliseconds the default configuration clips an onset: four wire-legal voiced frames, each decidable by a 20 ms detector window, the first three counted 13 ms for 13 15/16. |
| Vad.TrimIsLongest | internal/audio/vad.go:204-211 | The eviction loop leaves the longest suffix that fits, the empty one included. |
| VadPipeline.Pipeline.ApplyHysteresis | internal/audio/vad.go:155-202 | The fields after a record, the chunks added to ready and the events are those of the pure machine's step. |
| VadPipeline.Pipeline.KeepPreRoll | internal/audio/vad.go:204-211 | Append, then evict from the front until the total fits: the longest fitting suffix of the kept copies. |
| VadPipeline.Pipeline.RecutRecords | internal/audio/vad.go:244-252 | A fresh machine run over the records, its ready chunks only: the tail is never forced out, and the live machine is untouched. |
| VadPipeline.Pipeline.Flush | internal/audio/vad.go:235-237 | The chunk in progress comes out; the machine is otherwise as it was. |
| Audio.CutIsGreedy | internal/audio/pipeline.go:134-155 | The chunks and the chunk in progress are those of a greedy partition of the voiced records. |
| Audio.GreedyDetermines | internal/audio/pipeline.go:134-155 | There is only one greedy partition: any one found any way gives the accumulator's chunks. |
| Audio.CutDuration | internal/audio/pipeline.go:146-154 | A threshold cut lasts at least the chunk width and less than the width plus its last record. |
| Audio.CutConservesAudio | internal/audio/pipeline.go:134-169 | Chunks plus the forced tail spell out the concatenated voiced payloads, nothing lost or doubled. |
| Audio.CutSpans | internal/audio/pipeline.go:134-155 | Chunk spans are disjoint, increasing and below the chunk in progress. |
| Audio.CutConcat | internal/audio/pipeline.go:134-155 | Feeding a concatenation leaves the accumulator and the chunks that feeding the two parts in turn leaves. |
| Audio.SplitExact | internal/audio/pipeline.go:212-219 | Recutting a concatenation equals recutting its parts, for every wire-legal continuation in order, if and only if the accumulator is empty after the first part. |
| Audio.TailRecut | internal/audio/pipeline.go:212-219 | Recutting what follows any dispatched chunk gives exactly the chunks after it, which is why a checkpoint at a chunk boundary can be resumed without the detector. |
| Audio.Accumulator.FeedRecord | internal/audio/pipeline.go:134-155 | The fields after a record and the chunk cut are those of the pure accumulator; chunk numbers count up. |
| Audio.Accumulator.ForceCutPending | internal/audio/pipeline.go:159-169 | The chunk in progress comes out whole, and the accumulator is empty. |
| Audio.PassthroughPipeline.RecutRecords | internal/audio/pipeline.go:212-219 | The chunks of a fresh accumulator, without a forced tail, whatever the live one holds. |
| Audio.PassthroughPipeline.Ingest | internal/audio/pipeline.go:188-194 | Every frame counts as voiced and is fed to the accumulator; chunks cut queue up in order. |
| Journal.Ring.Append | internal/journal/journal.go:64-71 | The ring stands for one record more; Valid keeps its slots equal to the newest records, oldest overwritten first. |
| Journal.Ring.ReadAfter | internal/journal/journal.go:88-96 | Exactly the retained records past the number, oldest first. |
| Journal.Ring.ReadFromCommitted | internal/journal/journal.go:102-107 | Everything retained past the committed floor, or everything retained before the first commit. |
| Journal.Ring.TrimBefore | internal/journal/journal.go:120-123 | The floor is the number given, and a full replay then reads exactly the retained records past it. |
| Journal.ReplayComplete | internal/journal/journal.go:75-107 | A full replay misses nothing past the floor if and only if no more records than the capacity have followed it. |
| Backend.AppliedOnce | worker/server.py:299-330 | Chunks with increasing spans are each applied exactly once and in order: the state is the fold over their audio, the generation counts them. |
| Backend.AlikeAgain | worker/server.py:299-304 | Pushing again chunks already applied changes nothing. |
| Backend.StalePushMoves | worker/server.py:315-330 | A push is refused as stale exactly when it is new and its generation wrong, and even so the state has been advanced in place, unnoticed only if inference would not have changed it. |
| Backend.RestoreElsewhere | worker/server.py:526-584 | Checkpoint, restore on another worker and push the rest: the same record as never having stopped. |
| Backend.StateStore.StreamPush | worker/server.py:273-341 | Unknown handles fail; an old number answers the last text; a new one is inferred in place and committed only over the expected generation. |
| Backend.StateStore.CompareAndCommit | worker/state.py:68-87 | Commits exactly over the generation the caller has seen, and raises it by one. |
| Backend.StateStore.StreamRestore | worker/server.py:526-554 | An unreadable blob is refused before any record exists; a readable one gets a new handle at generation 0 and the checkpoint's number. |
| Backend.StateStore.StreamCheckpoint | worker/server.py:557-584 | The handle's state serialized, with its generation and number; flipped in every byte while the corruption fault is on. |
| Backend.StateStore.StreamFlush | worker/server.py:344-356 | The finalized text of the record's state; the record stays open with its number and generation. |
| Stateless.PlacementIndependence | internal/backend/stateless.go:105-225 | Under every schedule of attempts, duplicate attempts, workers, crashes, evictions, expiries, retires and closes, every answer a session got is the one a single stateful worker would have given to the same calls. |
| Stateless.LostVersionRefused | worker/kvtier.py:180-208 | A version neither hot on the worker nor in the tier ends the attempt: no client hears from it, and it never runs on another state. |
| Stateless.Fleet.Call | internal/backend/stateless.go:272-333 | However the call is scheduled, the client's state either settles on one answer or is as if it had not asked. |
| Stateless.StatelessClient.Push | internal/backend/stateless.go:130-182 | Either the single worker's answer, or an error that leaves the session where it was; an old number answers the last text without a call. Counter and newest version move as the numbering says. |
| Stateless.StatelessClient.Flush | internal/backend/stateless.go:202-225 | The finalized text of the session's state, which a flush does not change. |
| Stateless.StatelessClient.Open | internal/backend/stateless.go:105-128 | A new utterance starts from the model's initial state with nothing applied, whatever versions the session has in the tier. |
| Stateless.StatelessClient.Close | internal/backend/stateless.go:238-257 | Best effort: all of the session's versions go or all stay, and nothing else changes. |
| Versions.StreamInOrder | internal/backend/stateless.go:148-170 | At every moment of a session with frames in order, through either pipeline, the gateway's chunks only ever name new versions or are answered without naming one, utterance after utterance. |
| Versions.StreamUtterance | internal/backend/stateless.go:130-225 | Pushing an utterance's chunks and flushing, through the tier: every partial, also of an utterance that an error breaks off, is the one a pinned worker's record would give, and so is the final. |
| Versions.StreamSession | cmd/gateway/conn.go:758-813 | All utterances of any session in order, each opened, pushed chunk by chunk, flushed and closed through one client: every push meets the tier's demand for new versions, and the session is told exactly what a pinned worker without failures would tell it, wholly or up to the first error. |
| Versions.ReuseIff | cmd/kvtier/main.go:149-158 | Were a version named again with other content, what a later push builds on would depend on its placement: the second push's state on the worker that ran it, the first one's where no copy is kept. The two agree exactly when the states do. |
| HotCache.Interleave | worker/kvtier.py:95-127 | With inference mutating its argument on the heap, over any interleaving of any number of inferences, evictions and other workers: every filed object still is the version it is filed under, no running object is filed, and every answer is the one its reference calls for. |
| HotCache.Worker.Load | worker/kvtier.py:180-208 | The hot entry is taken, not shared; a state fetched from the tier enters no cache; a miss starts nothing and leaves the cache as it was. |
| HotCache.Worker.RunStateful | worker/server.py:451-463 | One run alone answers what its reference calls for and leaves the other runs alone. |
| HotCache.Worker.HotTake | worker/kvtier.py:95-121 | The entry handed out has left the cache. |
| HotCache.Worker.HotPut | worker/kvtier.py:123-127 | The object is filed under the version it has become, most recent first, and the coldest entries beyond the limit go. |
| HotCache.Worker.Finish | worker/kvtier.py:210-223 | The state is published under its version before it is filed, and the answer is the one the request's reference calls for; with the publication refused or its answer lost nothing is filed. |
| KvTier.Serve | cmd/kvtier/main.go:301-353 | Over every run of requests and sweeps the tier only forgets: it answers with what was last created under the key, never anything else, and never with an expired entry. |
| KvTier.Tier.PutIfAbsent | cmd/kvtier/main.go:149-158 | A resident version never changes. After a store the contents are the longest most-recent prefix that fits, and the new version is resident exactly when it fits by itself. |
| KvTier.Tier.EvictOver | cmd/kvtier/main.go:110-136 | Eviction from the cold end stops at the longest prefix that fits; map, recency list and byte counter agree throughout. |
| KvTier.LongestFitUnique | cmd/kvtier/main.go:110-136 | There is only one such prefix, so the loop has no choice. |
| KvTier.Tier.Get | cmd/kvtier/main.go:160-180 | A live version comes back and moves to the front; an expired one is dropped and missed. |
| KvTier.Tier.Delete | cmd/kvtier/main.go:189-201 | Exactly the named version goes. |
| KvTier.Tier.DeletePrefix | cmd/kvtier/main.go:205-219 | Exactly the keys with the prefix go, and the count says how many. |
| KvTier.Tier.CloseSession | internal/backend/stateless.go:238-257 | Closing a session removes all of its versions and, for session names without colons, no other session's. |
| KvTier.Tier.Sweep | cmd/kvtier/main.go:221-235 | Exactly the expired versions go. |
| KvTier.Tier.Put | cmd/kvtier/main.go:100-136 | The contents are the longest prefix that fits, the new version first. |
| KvTier.Handle | cmd/kvtier/main.go:301-353 | One request keeps the log honest: a read answers with the last entry created under its key, still live, and a conflict only for a key that has one. |
| StateRefs.StateRefInjective | internal/backend/stateless.go:101-103 | Two versions have the same name only if session and number agree, whatever characters the session's name has. |
| StateRefs.CloseExact | internal/backend/stateless.go:238-246 | The prefix deleted on close matches exactly the closing session's versions when names hold no colon, as newSessionID's do. |
| StateRefs.VersionIsPrefix | internal/backend/stateless.go:184-200 | A version's name is a prefix of later versions' names, so deleting one version by prefix would take others with it. |
| Router.Router.Pick | internal/router/router.go:587-681 | For every visiting order: nobody exactly when the filter is empty; otherwise a worker that passes every filter, a due probe if any qualifies, else one of least score; exactly its bucket pays one token and only it starts a probe. |
| Router.Router.Heal | internal/router/router.go:587-681 | With nothing else happening, every worker owed a probe has been probed within as many picks as there are such workers. |
| Router.Router.Transfer | internal/coord/failover.go:229-238 | The replacement takes one bind and the old owner gives one up, wherever they are in the fleet. |
| Router.Router.Add | internal/router/router.go:400-413 | A worker joins exactly if its id is new and not empty; an id is never replaced. |
| Router.Router.Pool | internal/router/router.go:430-442 | The worker itself, then every other worker of its key in fleet order; empty exactly for an unknown id. |
| Router.Router.PeerBaseline | internal/router/router.go:515-537 | The upper median of the p95s of the subject's comparable peers. |
| Router.MedianRank | internal/router/router.go:515-537 | That baseline is one of the peers' own values, and fewer than half of them exceed it. |
| Router.Worker.Report | internal/router/router.go:324-373 | An outcome settles a probe, is ignored while ejected, and otherwise joins the windows and is judged: the fields follow the health machine. |
| Router.Router.MarkUnhealthy | internal/router/router.go:714-723 | The named worker is ejected and its probe forgotten; the others are untouched. |
| Router.BindBalances | cmd/gateway/conn.go:285-302 | A bind taken, moved and given up leaves every counter as it was. |
| Router.Router.PickNow | internal/coord/failover.go:194-194 | Whoever is picked is in the fleet, not excluded and capable of the mode; picking moves no bind. |
| Router.Router.On429 | internal/router/router.go:687-692 | A refusal empties and blocks the named worker's bucket and no other. |
| Router.Worker.SetDraining | internal/router/router.go:178-182 | The drain event of the health history: nothing but the flag changes. |
| Health.HealthHistory | internal/router/router.go:311-373 | Over every run: only an ejected worker is being probed, the windows are the latest 50 samples accepted since the last successful probe, and the backoff is 10 s doubled per failed probe since then, at most 2 min. |
| Health.P95Rank | internal/router/router.go:271-282 | The p95 is one of the samples, with no more of them above it than its nearest-rank index leaves. |
| Health.P95IsMaximum | internal/router/router.go:83-102 | The nearest-rank index is the maximum's exactly up to 20 samples; the comment says it stops at 20. |
| Health.JudgedBySlowest | internal/router/router.go:102-102 | So a worker with just enough samples to be judged is judged by its slowest call. |
| Health.DrainIsNoSignal | internal/router/router.go:160-182 | Over any run, draining a worker changes nothing but its flag: no outcome, ejection or probe differs from the run in which nobody touched it. |
| Bucket.BoundHoldsIff | internal/router/bucket.go:53-131 | Takes in any run stay below limit*(1-headroom) + limit*d + 1 for every bucket and schedule if and only if limit*headroom >= 1. |
| Bucket.TakesBounded | internal/router/bucket.go:53-131 | Without that condition the bound holds with one slack added per refusal, the slack being what a refusal can hand back. |
| Bucket.NoTakeBeforeDeadline | internal/router/bucket.go:103-131 | No take succeeds before the deadline of the latest refusal, whatever happens in between. |
| Bucket.AsksAreFree | internal/router/bucket.go:86-91 | Availability checks may be inserted anywhere in a run without changing how many takes succeed or what any later moment sees. |
| Bucket.RateBucket.TakeAt | internal/router/bucket.go:103-112 | A token is taken exactly when the refilled bucket is unblocked and has more than its reserve. |
| Bucket.RateBucket.AvailableAt | internal/router/bucket.go:86-91 | True exactly when a take at that moment would succeed; nothing but the refill is recorded. |
| Session.CountsUp | internal/session/events.go:144-177 | In every log a session can leave, each utterance's revisions are 1, 2, 3, ... and the k-th reset carries epoch k. |
| Session.NothingAfterFinal | internal/session/events.go:118-123 | Nothing of an utterance follows its final. |
| Session.Emitter.Partial | internal/session/events.go:144-156 | The next revision of the current utterance, which keeps any log the state tracks well formed. |
| Session.Emitter.PartialReset | internal/session/events.go:166-177 | The next revision with the new epoch, on a log that tracked the state before the epoch moved. |
| Session.Emitter.Final | internal/session/events.go:183-199 | The first call ends the utterance; every later one returns the first final again and changes nothing. |
| Session.ScreenedAlways | internal/session/seq.go:41-53 | Over any stream of frames: what is let through strictly increases, a frame is turned away exactly when one at least as high came before, the next number is one past the highest frame, and every number below it was either let through or reported missing, never both. |
| Session.ValidateAll | internal/session/seq.go:41-53 | The validator, asked frame by frame, gives exactly those answers, lets exactly those frames through and ends on that next number. |
| Session.Emitter.SpeechStart | internal/session/events.go:133-142 | The event carries the current utterance and keeps any log the state tracks well formed. |
| Session.SeqValidator.Validate | internal/session/seq.go:41-53 | Expected, duplicate or gap by comparison with the next number, which only a duplicate leaves alone; a gap names exactly the numbers missed. |
| Ledger.LedgerBalances | internal/coord/failover.go:174-258 | However any number of sessions interleave starts, failovers step by step, rollbacks and teardowns: each worker's counter is what the sessions owe it, so never negative, the number of sessions that name it between transfers, and zero once none is left. |
| Ledger.FailedRecovery | internal/coord/failover.go:205-238 | A recovery that installs any candidate, fails and rolls back is no step of the ledger at all. |
| Ledger.TransferSteps | internal/router/router.go:190-194 | The take and the drop done back to back are the transfer the router's counters see. |
| Admission.CeilingHolds | internal/admission/admission.go:102-140 | With any number of threads interleaving at load, compare-and-swap and decrement: the counter equals the holders, never passes the ceiling, and the high-water mark ends as the true peak. |
| Admission.RefusedWhenFull | internal/admission/admission.go:102-130 | A caller is refused only while every slot is held, and Release's clamp is never reached. |
| Admission.Controller.DegradesFirst | internal/admission/admission.go:83-91 | At the ceiling chunks are already widened if and only if the soft threshold is below it; set equal to it, widening never happens. |
| Admission.Alone | internal/admission/admission.go:102-130 | The controller's Admit and Release are the threads' instructions run without interruption. |
| Admission.Controller.Admit | internal/admission/admission.go:102-118 | Refused exactly at the ceiling; otherwise one more session, and the mark is never below it. |
| Ctc.AnySplit | worker/adapters/conformer_ctc_kv.py:155-163 | However a frame sequence is divided into pushes, the session encodes the windows of the whole, holds back the same seam, has consumed as much, and has emitted what collapse-then-drop-blanks gives for the whole id sequence. |
| Ctc.GreedyIsCtc | worker/adapters/conformer_ctc_kv.py:232-247 | Greedy decoding with a carried last token is collapse repeats, then drop blanks. |
| Ctc.PushSplit | worker/adapters/conformer_ctc_kv.py:155-163 | From any state, two pushes are one push of both. |
| Ctc.SeamAt | worker/adapters/conformer_ctc_kv.py:155-163 | What is held back is the rest after the consumed frames, shorter than one window. |
| Ctc.Conformer.Infer | worker/adapters/conformer_ctc_kv.py:155-163 | The window loop leaves the fields the pure push leaves. |
| Ctc.Conformer.Decode | worker/adapters/conformer_ctc_kv.py:232-247 | One token per run of equal ids, none for blanks, the last id carried over. |
| Ctc.Zipformer.Consume | worker/adapters/zipformer_kv.py:257-269 | Exactly the whole windows are encoded, in order, and the rest is the seam. |
| Ctc.Conformer.Finalize | worker/adapters/conformer_ctc_kv.py:165-182 | A seam is padded to one window and encoded, the transcript is handed over and cleared, and the acoustic cache is kept. |
| Quant.TransferBlurs | worker/kvcache/quant.py:50-87 | Over the reals, one int8 transfer moves no value of a tensor by more than half its scale step. |
| Quant.TransferSettles | worker/kvcache/quant.py:50-87 | Every later transfer without new inference changes nothing: quantize, dequantize, quantize is quantize, scale included. |
| Quant.QuantizeBank | worker/kvcache/quant.py:40-66 | Every tensor is encoded by the rule for its type and the dtype, none dropped or added; only an unsupported dtype or an empty tensor is refused. |
| Quant.DequantizeBank | worker/kvcache/quant.py:69-87 | Every tensor comes back by the rule for its code, none dropped or added. |
| Mirror.Execute | worker/server.py:451-463 | However a heap worker's loads, inferences, stores, errors and evictions interleave with the steps of everyone else, what is left on its heap is what a run of the step system leaves, so every session it served was answered as by a single worker. |
| Mirror.MirrorsAgree | worker/kvtier.py:95-127 | Wherever the keys and stages agree the values do: every filed object, every object being worked on and every text about to be answered are the step system's. |
| Mirror.FinishMove | worker/kvtier.py:210-223 | Publishing, filing, making room and answering are publish, keep-hot and forget steps; a store that failed, whether or not it landed, is the end of the attempt. |
| Mirror.BeginMove | worker/kvtier.py:180-208 | Taking or fetching a state is the attempt's load step, and finding none its end. |

## Findings

Properties the code's documentation states or suggests, and what holds instead.
The code is modelled as it is.

| where | what happens | member |
|---|---|---|
| cmd/gateway/conn.go:822-826 | The comment says replay covers the chunk whose push failed. It covers the chunks of Ready. The chunk of Flush (469-473, 759-763) is never forced out by a replay: the final is told without it if and only if pushing it failed over. A session of one frame loses all its audio that way. | Gateway.Connection.DispatchTail, SessionLoop.Loop.Transcript, Instances.AllTail |
| cmd/gateway/conn.go:769-787 | After such a lost tail the committed floor lies below the end of the utterance, and the journal hands a recovery in the next utterance what it should read if and only if the last voiced frame was applied. Otherwise a failover there may put audio of the one utterance into the final of the next. A calm utterance in between sets it right. | Replay.FloorIff, Finals.HandedFollows, Instances.LostTailAgain |
| internal/coord/failover.go:83-106 | Under the gated pipeline, restoring a checkpoint inside an utterance and replaying the tail cuts other chunks than live, since the replay starts idle. It is exact for every continuation if and only if the checkpoint is not restored or the tail has already caught up, which it never has right after the checkpoint. | Resume.RestoreIff, Resume.GuardIff, Resume.JustTaken, Instances.BoundaryReached, Instances.CaughtUpReached |
| internal/audio/vad.go:193, 201 | The endpoint frame enters pre-roll twice, and the replayed machine keeps it at most once. A full replay after a commit repeats the live cuts if and only if the onset is clean. | Replay.RepeatsIff, Replay.FedIff, Instances.UncleanReached |
| internal/audio/vad.go:159 | Voice is counted in truncated milliseconds. With frames that are not whole milliseconds, PreRollMs of StartSpeechMs plus a frame does not keep the onset whole. | Vad.FractionalFramesClip |
| internal/router/router.go:99-101 | 20 is said to be the smallest window whose p95 is not the maximum. It is 21; at 20 a worker is still judged by its slowest call. | Health.P95IsMaximum, Health.JudgedBySlowest |
| internal/router/bucket.go:125-131 | A refusal sets the tokens to zero, which gives back what takes had overdrawn when the reserve is under one token. The bound holds as documented if and only if limit * headroom >= 1. | Bucket.BoundHoldsIff |
| worker/server.py:315-330 | A stale push is refused after inference has moved the state in place. The gateway never sends one. | Backend.StalePushMoves, Gateway.Connection.DispatchChunk |
| cmd/kvtier/main.go:110-136 | A blob larger than the ceiling is reported stored and evicts itself and everything else at once. | KvTier.Tier.PutIfAbsent |
| internal/admission/admission.go:83-91 | With the soft threshold equal to the ceiling, chunks are never widened before callers are refused. | Admission.Controller.DegradesFirst |
| internal/backend/stateless.go:238-246 | Deleting by the prefix of a session's name is exact for names without colons, which the gateway's are; a name that continues another's after a colon would lose its versions with it. | KvTier.Tier.CloseSession, StateRefs.CloseExact |

## Left out

- Floating point: durations are integers of samples and rates, tokens, latencies and tensor values are reals; rounding is not modelled.
- The detector and the reframing of audio into its windows (internal/audio/vad.go:132-153): each record's decision is an input. Vad.FractionalFramesClip checks that its input completes a window in each voiced frame.
- WebSocket, HTTP, JSON and WAV layers, Docker and the fleet manager, dashboards, load and chaos tools, resource telemetry.
- Bifrost: in the stateless protocol it is any scheduler of attempts; the separate final pass it can be asked for (cmd/gateway/conn.go:728-752) is not part of this model, so a session's final is the worker's flush.
- Gateway models pinned sessions. A stateless session that a whole cohort fails ends with an error (cmd/gateway/conn.go:867-877) and has no failover to prove.
- Gateway.Connection.TakeCheckpoint: is one step, so a checkpoint that arrives after its utterance was committed, or that overlaps an inference, is not modelled.
- Router.Router.Pick: is one step, so two picks that share one probe are not modelled; and a probe that never reports is not claimed to resolve.
- Replay.RepeatsIff: is stated for an endpoint frame that holds samples.
- Sequence numbers, generations and counters are unbounded; the wrap at 2^64 - 1 is not modelled.
- Branches the proofs show dead (a stale generation for the only writer, a second final of an utterance) are `assert false` and not given a behaviour.
- The gateway's error, acknowledgement and discontinuity events are not in the modelled log; they carry no transcript. The send that fails ends the session as in the code.
- Stateless keeps which state a version stands for in a history variable; Fleet and SharedTier are values and maps where the code has processes and a network. Mirror has one worker on the heap and the others as steps.
- Network flattens the workers' stores into one map by worker and handle; Backend.StateStore is the store itself.
- Quant.QuantizeBank: the 16-bit cast is any function, and nothing is proved of its precision.
- The codec hypothesis is not checked of the real adapters; the CTC adapter does not restore its text (worker/adapters/conformer_ctc_kv.py:208-214).
- The transducer's search, tokenizer text, feature extraction and the acoustic models are abstract functions.
- Liveness: that a worker answers, that a failover finds a worker, or that a final is ever sent.

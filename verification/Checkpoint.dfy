/** The gateway's copy of a worker's state: internal/coord/checkpoint.go. The
    checksum is any function that never yields the mark of a corrupted entry. */
module Checkpoint {
  import opened Wrappers
  import opened Audio
  import opened Backend

  const CORRUPTED := "corrupted-by-chaos-scenario"

  datatype CacheCheckpoint = CacheCheckpoint(sessionId: string, key: string, generation: nat, seqNo: nat,
                                             blob: Bytes, checksum: string)

  ghost predicate Hashes(sum: Bytes -> string) {
    forall blob :: sum(blob) != CORRUPTED
  }

  /** Same key, and the bytes are the ones that were stored. */
  predicate CanRestore(sum: Bytes -> string, cp: CacheCheckpoint, targetKey: string) {
    cp.key == targetKey && cp.checksum == sum(cp.blob)
  }

  /** RecoverSameModel's guard: there is a checkpoint, and it may be restored on a worker
      with this key. */
  predicate MayRestore(sum: Bytes -> string, cp: Option<CacheCheckpoint>, targetKey: string) {
    cp.Some? && CanRestore(sum, cp.value, targetKey)
  }

  class CheckpointStore {
    const sum: Bytes -> string
    var entries: map<string, CacheCheckpoint>

    constructor (sum: Bytes -> string)
      ensures this.sum == sum && entries == map[]
    {
      this.sum, entries := sum, map[];
    }

    method Store(sessionId: string, key: string, reply: CheckpointReply)
      modifies this
      ensures sessionId in entries && entries == old(entries)[sessionId := entries[sessionId]]
      ensures var cp := entries[sessionId];
              && cp.sessionId == sessionId && cp.key == key && cp.seqNo == reply.lastSeq && cp.blob == reply.blob
              && cp.generation == reply.generation
              && forall target :: CanRestore(sum, cp, target) <==> target == key
    {
      entries := entries[sessionId := CacheCheckpoint(sessionId, key, reply.generation, reply.lastSeq,
                                                      reply.blob, sum(reply.blob))];
    }

    method Latest(sessionId: string) returns (cp: Option<CacheCheckpoint>)
      ensures cp == if sessionId in entries then Some(entries[sessionId]) else None
    {
      cp := if sessionId in entries then Some(entries[sessionId]) else None;
    }

    /** A damaged entry can be restored nowhere. */
    method Corrupt(sessionId: string) returns (found: bool)
      requires Hashes(sum)
      modifies this
      ensures found == (sessionId in old(entries))
      ensures entries.Keys == old(entries.Keys)
      ensures forall x | x in entries && x != sessionId :: entries[x] == old(entries)[x]
      ensures found ==> forall target :: !CanRestore(sum, entries[sessionId], target)
    {
      if sessionId !in entries {
        return false;
      }
      entries := entries[sessionId := entries[sessionId].(checksum := CORRUPTED)];
      found := true;
    }

    method Delete(sessionId: string)
      modifies this
      ensures entries == old(entries) - {sessionId}
    {
      entries := entries - {sessionId};
    }
  }
}

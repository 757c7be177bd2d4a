/** transfer-engine/src/resume.ts: the resume point, and the two stores with their time limit. */
module Resume {
  import opened Basics

  const RESUME_TTL_MS: int := 60 * 60 * 1000

  datatype ResumeState = ResumeState(received: set<nat>, hashes: map<nat, string>, updatedAt: int)

  function GapFrom(s: set<nat>, i: nat): (k: nat)
    ensures k >= i && k !in s
    ensures forall j: nat :: i <= j < k ==> j in s
    decreases |s - Below(i)|
  {
    if i !in s then i
    else
      Shrinks(s, i);
      GapFrom(s, i + 1)
  }

  lemma Shrinks(s: set<nat>, i: nat)
    requires i in s
    ensures |s - Below(i + 1)| < |s - Below(i)|
  {
    assert s - Below(i + 1) == s - Below(i) - {i};
    assert i in s - Below(i);
  }

  /** The least index that is not in s. */
  function ResumePoint(s: set<nat>): (k: nat)
    ensures k !in s && forall j: nat :: j < k ==> j in s
  {
    GapFrom(s, 0)
  }

  /** Being the least missing index determines the resume point. */
  lemma ResumePointUnique(s: set<nat>, k: nat)
    requires k !in s && forall j: nat :: j < k ==> j in s
    ensures ResumePoint(s) == k
  {
    var p := ResumePoint(s);
    assert !(p < k) && !(k < p);
  }

  method ResumeFromChunk(receivedChunkIndices: seq<nat>) returns (i: nat)
    ensures i !in receivedChunkIndices
    ensures forall j: nat {:trigger j in receivedChunkIndices} :: j < i ==> j in receivedChunkIndices
    ensures i == ResumePoint(set x | x in receivedChunkIndices)
  {
    var s := set x | x in receivedChunkIndices;
    i := 0;
    while i in s
      invariant forall j: nat {:trigger j in receivedChunkIndices} :: j < i ==> j in receivedChunkIndices
      decreases |s - Below(i)|
    {
      Shrinks(s, i);
      i := i + 1;
    }
    forall j: nat | j < i ensures j in s {
      assert j in receivedChunkIndices;
    }
    ResumePointUnique(s, i);
  }

  /** load(): an entry is served while it is at most an hour old, and deleted once it is found older. */
  function Live(saved: Option<ResumeState>, now: int): Option<ResumeState> {
    if saved.Some? && now - saved.value.updatedAt <= RESUME_TTL_MS then saved else None
  }

  function Lookup(states: map<string, ResumeState>, key: string): Option<ResumeState> {
    if key in states then Some(states[key]) else None
  }

  /** The chunkHashes object of a session, which goes on growing after it has been handed to the store. */
  class ChunkHashes {
    var digests: map<nat, string>

    constructor (digests: map<nat, string>)
      ensures this.digests == digests
    {
      this.digests := digests;
    }

    method Record(index: nat, digest: string)
      modifies this
      ensures digests == old(digests)[index := digest]
    {
      digests := digests[index := digest];
    }
  }

  /** An entry of MemoryResumeStore: the list of indices is a copy, the digests are the session's own object. */
  datatype Entry = Entry(received: set<nat>, hashes: ChunkHashes, updatedAt: int)

  /** What load() would hand out for the entry as things stand. */
  function Current(e: Entry): ResumeState
    reads e.hashes
  {
    ResumeState(e.received, e.hashes.digests, e.updatedAt)
  }

  predicate Expired(e: Entry, now: int) {
    now - e.updatedAt > RESUME_TTL_MS
  }

  /** MemoryResumeStore. */
  class MemoryResumeStore {
    var states: map<string, Entry>

    constructor ()
      ensures states == map[]
    {
      states := map[];
    }

    /** Hands out the entry itself, so that the next session shares its digests too. */
    method Load(fileId: string, now: int) returns (r: Option<Entry>)
      modifies this
      ensures r.Some? <==> fileId in old(states) && !Expired(old(states)[fileId], now)
      ensures r.Some? ==> r.value == old(states)[fileId] && states == old(states)
      ensures r.None? ==> states == old(states) - {fileId}
      ensures fileId in old(states) ==>
                (if r.Some? then Some(old(Current(states[fileId]))) else None)
                == Live(Some(old(Current(states[fileId]))), now)
    {
      if fileId !in states {
        assert states - {fileId} == states;
        return None;
      }
      var state := states[fileId];
      if now - state.updatedAt > RESUME_TTL_MS {
        states := states - {fileId};
        return None;
      }
      return Some(state);
    }

    method Save(fileId: string, received: set<nat>, hashes: ChunkHashes, now: int)
      modifies this
      ensures states == old(states)[fileId := Entry(received, hashes, now)]
    {
      states := states[fileId := Entry(received, hashes, now)];
    }

    method Clear(fileId: string)
      modifies this
      ensures states == old(states) - {fileId}
    {
      states := states - {fileId};
    }

    /** A digest recorded after a checkpoint is in the entry at once, though its index is not. */
    method SaveThenRecord(fileId: string, received: set<nat>, hashes: ChunkHashes, now: int, index: nat, digest: string)
      modifies this, hashes
      ensures fileId in states
      ensures Current(states[fileId]) == ResumeState(received, old(hashes.digests)[index := digest], now)
      ensures states - {fileId} == old(states) - {fileId}
    {
      Save(fileId, received, hashes, now);
      hashes.Record(index, digest);
    }
  }

  const STORAGE_PREFIX: string := "anydrop:resume:"

  /** LocalStorageResumeStore: the same contract under prefixed keys of a shared storage. */
  class LocalStorageResumeStore {
    var storage: map<string, ResumeState>

    constructor (storage: map<string, ResumeState>)
      ensures this.storage == storage
    {
      this.storage := storage;
    }

    method Load(fileId: string, now: int) returns (r: Option<ResumeState>)
      modifies this
      ensures r == Live(Lookup(old(storage), STORAGE_PREFIX + fileId), now)
      ensures Lookup(storage, STORAGE_PREFIX + fileId) == r
      ensures storage - {STORAGE_PREFIX + fileId} == old(storage) - {STORAGE_PREFIX + fileId}
    {
      var key := STORAGE_PREFIX + fileId;
      if key !in storage {
        return None;
      }
      var state := storage[key];
      if now - state.updatedAt > RESUME_TTL_MS {
        storage := storage - {key};
        return None;
      }
      return Some(state);
    }

    method Save(fileId: string, state: ResumeState, now: int)
      modifies this
      ensures storage == old(storage)[STORAGE_PREFIX + fileId := state.(updatedAt := now)]
    {
      storage := storage[STORAGE_PREFIX + fileId := state.(updatedAt := now)];
    }

    method Clear(fileId: string)
      modifies this
      ensures storage == old(storage) - {STORAGE_PREFIX + fileId}
    {
      storage := storage - {STORAGE_PREFIX + fileId};
    }
  }
}

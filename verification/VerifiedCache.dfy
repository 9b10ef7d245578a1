/** The verified read-through checkpoint cache: a compare-and-swap commit pointer, a
    content-addressed durable store, and a cache that is trusted with nothing. */
module VerifiedCache {
  import opened Prelude

  // -------------------------------------------------------------- data model

  datatype Contract = Contract(namespace: string, checkpointHash: string, precisionHash: string, datasetCommit: string, manifestDigest: string) {
    predicate Valid() {
      namespace != "" && datasetCommit != "" && IsSha(checkpointHash) && IsSha(precisionHash) && IsSha(manifestDigest)
    }
  }

  datatype Descriptor = Descriptor(component: string, shardId: string, sha256: string, byteCount: int) {
    predicate Valid() {
      component != "" && shardId != "" && byteCount >= 0 && IsSha(sha256)
    }
  }

  datatype Manifest = Manifest(contract: Contract, shards: seq<Descriptor>, createdNs: int) {
    predicate Valid() {
      && contract.Valid() && shards != []
      && (forall i :: 0 <= i < |shards| ==> shards[i].Valid())
      && |ToSet(MapSeq(CacheKey, shards))| == |shards|
    }
  }

  datatype Pointer = Pointer(revision: int, checkpointHash: string, manifestDigest: string, committedStep: int)

  datatype Entry = Entry(payload: Bytes, expiresNs: int)

  datatype Source = FromCache | FromDurable

  datatype CacheError =
    | InvalidManifest | InvalidDescriptor | NoPointer | NegativeStep | RevisionChanged
    | PayloadMismatch | DurableMissing | NotCommittedManifest | NotDeclared | IntegrityFailed

  datatype Hashes = Hashes(bytes: Bytes -> string, manifest: Manifest -> string)

  type Key = (string, string)

  const SHA_LENGTH := 64

  /** A lowercase hexadecimal SHA-256. */
  predicate IsSha(s: string) {
    |s| == SHA_LENGTH && forall i :: 0 <= i < |s| ==> s[i] in "0123456789abcdef"
  }

  /** `ShardDescriptor.cache_key` */
  function CacheKey(d: Descriptor): string {
    d.component + ":" + d.shardId + ":" + d.sha256
  }

  /** `VerifiedReadThroughCache._key` */
  function EntryKey(c: Contract, d: Descriptor): Key {
    (c.namespace + ":" + c.precisionHash + ":" + c.checkpointHash, CacheKey(d))
  }

  /** `_verify_payload` does not raise. */
  predicate Verifies(h: Hashes, d: Descriptor, payload: Bytes) {
    |payload| == d.byteCount && h.bytes(payload) == d.sha256
  }

  // --------------------------------------------------------------- operations

  function Revision(pointers: map<string, Pointer>, runKey: string): int {
    if runKey in pointers then pointers[runKey].revision else 0
  }

  function CompareAndSwap(h: Hashes, pointers: map<string, Pointer>, runKey: string, expected: int, manifest: Manifest, step: int)
    : (Result<Pointer, CacheError>, map<string, Pointer>)
  {
    if !manifest.Valid() then (Err(InvalidManifest), pointers)
    else if step < 0 then (Err(NegativeStep), pointers)
    else if Revision(pointers, runKey) != expected then (Err(RevisionChanged), pointers)
    else
      var pointer := Pointer(expected + 1, manifest.contract.checkpointHash, h.manifest(manifest), step);
      (Ok(pointer), pointers[runKey := pointer])
  }

  function Put(h: Hashes, durable: map<string, Bytes>, d: Descriptor, payload: Bytes): (Result<(), CacheError>, map<string, Bytes>) {
    if !d.Valid() then (Err(InvalidDescriptor), durable)
    else if !Verifies(h, d, payload) then (Err(PayloadMismatch), durable)
    else (Ok(()), durable[CacheKey(d) := payload])
  }

  /** The checks `fetch_verified` makes before it looks at any bytes. */
  function FetchRefusal(h: Hashes, pointer: Pointer, manifest: Manifest, d: Descriptor): Option<CacheError> {
    if !manifest.Valid() then Some(InvalidManifest)
    else if pointer.checkpointHash != manifest.contract.checkpointHash || pointer.manifestDigest != h.manifest(manifest) then
      Some(NotCommittedManifest)
    else if d !in manifest.shards then Some(NotDeclared)
    else None
  }

  /** The cached entry may be returned: present, fresh, and the declared bytes. */
  predicate Hit(h: Hashes, entries: map<Key, Entry>, key: Key, d: Descriptor, now: int) {
    key in entries && entries[key].expiresNs >= now && Verifies(h, d, entries[key].payload)
  }

  /** `fetch_verified`: the outcome and the cache it leaves. An entry that is no hit is
      evicted even when the durable read then fails. */
  function Fetch(h: Hashes, ttl: int, entries: map<Key, Entry>, durable: map<string, Bytes>,
                 pointer: Pointer, manifest: Manifest, d: Descriptor, now: int)
    : (Result<(Bytes, Source), CacheError>, map<Key, Entry>)
  {
    var refusal := FetchRefusal(h, pointer, manifest, d);
    var key := EntryKey(manifest.contract, d);
    if refusal.Some? then (Err(refusal.value), entries)
    else if Hit(h, entries, key, d, now) then (Ok((entries[key].payload, FromCache)), entries)
    else if CacheKey(d) !in durable then (Err(DurableMissing), entries - {key})
    else if !Verifies(h, d, durable[CacheKey(d)]) then (Err(IntegrityFailed), entries - {key})
    else (Ok((durable[CacheKey(d)], FromDurable)), (entries - {key})[key := Entry(durable[CacheKey(d)], now + ttl)])
  }

  // ----------------------------------------------------------------- classes

  /** `InMemoryStrongCommitKV` */
  class StrongCommitKv {
    const hashes: Hashes
    var pointers: map<string, Pointer>

    constructor (hashes: Hashes)
      ensures this.hashes == hashes && pointers == map[]
    {
      this.hashes, pointers := hashes, map[];
    }

    method GetLinearizable(runKey: string) returns (r: Result<Pointer, CacheError>)
      ensures r == if runKey in pointers then Ok(pointers[runKey]) else Err(NoPointer)
    {
      r := if runKey in pointers then Ok(pointers[runKey]) else Err(NoPointer);
    }

    method Swap(runKey: string, expected: int, manifest: Manifest, step: int) returns (r: Result<Pointer, CacheError>)
      modifies this`pointers
      ensures (r, pointers) == CompareAndSwap(hashes, old(pointers), runKey, expected, manifest, step)
    {
      if !manifest.Valid() {
        return Err(InvalidManifest);
      }
      if step < 0 {
        return Err(NegativeStep);
      }
      var actual := 0;
      if runKey in pointers {
        actual := pointers[runKey].revision;
      }
      if actual != expected {
        return Err(RevisionChanged);
      }
      var pointer := Pointer(actual + 1, manifest.contract.checkpointHash, hashes.manifest(manifest), step);
      pointers := pointers[runKey := pointer];
      r := Ok(pointer);
    }
  }

  /** `DurableShardStore` */
  class DurableShardStore {
    const hashes: Hashes
    var data: map<string, Bytes>

    constructor (hashes: Hashes)
      ensures this.hashes == hashes && data == map[]
    {
      this.hashes, data := hashes, map[];
    }

    method PutShard(d: Descriptor, payload: Bytes) returns (r: Result<(), CacheError>)
      modifies this`data
      ensures (r, data) == Put(hashes, old(data), d, payload)
    {
      if !d.Valid() {
        return Err(InvalidDescriptor);
      }
      if !Verifies(hashes, d, payload) {
        return Err(PayloadMismatch);
      }
      data := data[CacheKey(d) := payload];
      r := Ok(());
    }

    method Get(d: Descriptor) returns (r: Result<Bytes, CacheError>)
      ensures r == if CacheKey(d) in data then Ok(data[CacheKey(d)]) else Err(DurableMissing)
    {
      r := if CacheKey(d) in data then Ok(data[CacheKey(d)]) else Err(DurableMissing);
    }
  }

  /** `VerifiedReadThroughCache` */
  class VerifiedReadThroughCache {
    const hashes: Hashes
    const ttl: int
    var entries: map<Key, Entry>

    constructor (hashes: Hashes, ttl: int)
      ensures this.hashes == hashes && this.ttl == ttl && entries == map[]
    {
      this.hashes, this.ttl, entries := hashes, ttl, map[];
    }

    method PutVerified(contract: Contract, d: Descriptor, payload: Bytes, now: int) returns (r: Result<(), CacheError>)
      modifies this`entries
      ensures r == if !Verifies(hashes, d, payload) then Err(IntegrityFailed)
                   else if !contract.Valid() || !d.Valid() then Err(InvalidDescriptor)
                   else Ok(())
      ensures entries == if r.Ok? then old(entries)[EntryKey(contract, d) := Entry(payload, now + ttl)] else old(entries)
    {
      if !Verifies(hashes, d, payload) {
        return Err(IntegrityFailed);
      }
      if !contract.Valid() || !d.Valid() {
        return Err(InvalidDescriptor);
      }
      entries := entries[EntryKey(contract, d) := Entry(payload, now + ttl)];
      r := Ok(());
    }

    method FetchVerified(pointer: Pointer, manifest: Manifest, d: Descriptor, durable: DurableShardStore, now: int)
      returns (r: Result<(Bytes, Source), CacheError>)
      modifies this`entries
      ensures (r, entries) == Fetch(hashes, ttl, old(entries), durable.data, pointer, manifest, d, now)
    {
      var refusal := FetchRefusal(hashes, pointer, manifest, d);
      if refusal.Some? {
        return Err(refusal.value);
      }
      var key := EntryKey(manifest.contract, d);
      if key in entries {
        var entry := entries[key];
        if entry.expiresNs < now {
          entries := entries - {key};
        } else if Verifies(hashes, d, entry.payload) {
          return Ok((entry.payload, FromCache));
        } else {
          entries := entries - {key};
        }
      }
      assert entries == old(entries) - {key};
      var read := durable.Get(d);
      if read.Err? {
        return Err(read.error);
      }
      if !Verifies(hashes, d, read.value) {
        return Err(IntegrityFailed);
      }
      DeclaredIsValid(manifest, d);
      var stored := PutVerified(manifest.contract, d, read.value, now);
      r := Ok((read.value, FromDurable));
    }
  }

  lemma DeclaredIsValid(manifest: Manifest, d: Descriptor)
    requires manifest.Valid() && d in manifest.shards
    ensures d.Valid() && manifest.contract.Valid()
  {
  }
}

/** What the read-through cache answers, for any contents of the cache tier: which bytes,
    when, and what the answer leaves behind. */
module CacheAnswers {
  import opened CacheRuns
  import opened Prelude
  import opened VerifiedCache

  /** A manifest is valid exactly when its contract and shards are, it has one, and no two
      of them share a cache key. */
  lemma ValidManifestIff(m: Manifest)
    ensures m.Valid() <==>
            m.contract.Valid() && |m.shards| > 0 && (forall d :: d in m.shards ==> d.Valid())
            && (forall i, j :: 0 <= i < j < |m.shards| ==> CacheKey(m.shards[i]) != CacheKey(m.shards[j]))
  {
    hide Descriptor.Valid, Contract.Valid, CacheKey;
    var keys := MapSeq(CacheKey, m.shards);
    ToSetSize(keys);
    assert Distinct(keys) <==> forall i, j :: 0 <= i < j < |m.shards| ==> CacheKey(m.shards[i]) != CacheKey(m.shards[j]) by {
      if Distinct(keys) {
        forall i, j | 0 <= i < j < |m.shards| ensures CacheKey(m.shards[i]) != CacheKey(m.shards[j]) { assert keys[i] != keys[j]; }
      }
    }
    assert m.shards != [] ==> |m.shards| > 0;
  }

  /** The bytes have the declared length and digest. */
  predicate Declared(h: Hashes, d: Descriptor, bytes: Bytes) {
    |bytes| == d.byteCount && h.bytes(bytes) == d.sha256
  }

  /** The pointer commits to this valid manifest, which lists the shard. */
  predicate CommitsTo(h: Hashes, pointer: Pointer, manifest: Manifest, d: Descriptor) {
    && manifest.Valid() && d in manifest.shards
    && h.manifest(manifest) == pointer.manifestDigest && manifest.contract.checkpointHash == pointer.checkpointHash
  }

  /** A cached entry is served up to and including its expiry. */
  predicate Serves(h: Hashes, entries: map<Key, Entry>, key: Key, d: Descriptor, now: int) {
    key in entries && now <= entries[key].expiresNs && Declared(h, d, entries[key].payload)
  }

  /** Exactly what a read does: it answers only for the committed manifest; from the cache if
      the slot serves, which then stays as it is; else the slot is emptied, and refilled
      for `ttl` if the stored bytes are the declared ones. No other slot is touched. */
  lemma ReadAnswers(c: Config, w: World, pointer: Pointer, manifest: Manifest, d: Descriptor, now: int)
    ensures var (r, entries) := Fetch(c.hashes, c.ttl, w.entries, w.durable, pointer, manifest, d, now);
            var slot, name := EntryKey(manifest.contract, d), CacheKey(d);
            if !CommitsTo(c.hashes, pointer, manifest, d) then r.Err? && entries == w.entries
            else if Serves(c.hashes, w.entries, slot, d, now) then r == Ok((w.entries[slot].payload, FromCache)) && entries == w.entries
            else if name in w.durable && Declared(c.hashes, d, w.durable[name]) then
              && r == Ok((w.durable[name], FromDurable))
              && entries == w.entries[slot := Entry(w.durable[name], now + c.ttl)]
            else r.Err? && entries == w.entries - {slot}
  {
    hide Manifest.Valid, CacheKey, EntryKey;
    var slot := EntryKey(manifest.contract, d);
    assert forall bytes :: Verifies(c.hashes, d, bytes) <==> Declared(c.hashes, d, bytes);
    if CacheKey(d) in w.durable {
      var e := Entry(w.durable[CacheKey(d)], now + c.ttl);
      assert (w.entries - {slot})[slot := e] == w.entries[slot := e];
    }
  }

  /** Whatever the cache tier holds, bytes that are returned are the ones the committed
      manifest declares. */
  lemma ReadReturnsDeclaredBytes(c: Config, w: World, pointer: Pointer, manifest: Manifest, d: Descriptor, now: int)
    requires Fetch(c.hashes, c.ttl, w.entries, w.durable, pointer, manifest, d, now).0.Ok?
    ensures CommitsTo(c.hashes, pointer, manifest, d)
    ensures Declared(c.hashes, d, Fetch(c.hashes, c.ttl, w.entries, w.durable, pointer, manifest, d, now).0.value.0)
  {
    ReadAnswers(c, w, pointer, manifest, d, now);
    hide Fetch;
  }

  /** A shard read from the store is served from the cache for exactly `ttl`: when the store
      has lost it, a later read succeeds if and only if no more than `ttl` has passed. */
  lemma CachedReadSucceedsIff(c: Config, w: World, pointer: Pointer, manifest: Manifest, d: Descriptor, now: int, later: int,
                              durable: map<string, Bytes>)
    requires var (r, _) := Fetch(c.hashes, c.ttl, w.entries, w.durable, pointer, manifest, d, now);
             r.Ok? && r.value.1 == FromDurable
    requires CacheKey(d) !in durable
    ensures var (r, entries) := Fetch(c.hashes, c.ttl, w.entries, w.durable, pointer, manifest, d, now);
            var s := Fetch(c.hashes, c.ttl, entries, durable, pointer, manifest, d, later).0;
            && (s.Ok? <==> later <= now + c.ttl)
            && (s.Ok? ==> s.value == (r.value.0, FromCache))
  {
    var (r, entries) := Fetch(c.hashes, c.ttl, w.entries, w.durable, pointer, manifest, d, now);
    ReadAnswers(c, w, pointer, manifest, d, now);
    ReadAnswers(c, World(w.pointers, durable, entries), pointer, manifest, d, later);
    hide Fetch, CommitsTo, EntryKey, CacheKey;
  }

  /** `put`: stored exactly when the shard is well formed and the bytes are the declared
      ones; nothing else changes. */
  lemma PutDecides(h: Hashes, durable: map<string, Bytes>, d: Descriptor, payload: Bytes)
    ensures var (r, after) := Put(h, durable, d, payload);
            && (r.Ok? <==> d.Valid() && Declared(h, d, payload))
            && after == if r.Ok? then durable[CacheKey(d) := payload] else durable
  {
    hide Descriptor.Valid, CacheKey;
  }

  /** `compare_and_swap`: accepted exactly for a valid manifest, a step that is not negative,
      and the revision the run is at, 0 before the first; the next revision names the
      manifest, for this run only. */
  lemma SwapDecides(h: Hashes, pointers: map<string, Pointer>, runKey: string, expected: int, manifest: Manifest, step: int)
    ensures var (r, after) := CompareAndSwap(h, pointers, runKey, expected, manifest, step);
            && (r.Ok? <==> && manifest.Valid() && step >= 0
                           && expected == if runKey in pointers then pointers[runKey].revision else 0)
            && (r.Ok? ==>
                  && r.value == Pointer(expected + 1, manifest.contract.checkpointHash, h.manifest(manifest), step)
                  && after == pointers[runKey := r.value])
            && (r.Err? ==> after == pointers)
  {
    hide Manifest.Valid;
  }
}

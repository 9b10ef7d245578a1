/** What the cache guarantees: keys never mix payloads, reads return the durable bytes
    whatever the cache holds, and the commit pointer has one winner per revision. */
module CacheRuns {
  import opened Prelude
  import opened VerifiedCache

  // ------------------------------------------------------------------- keys

  lemma SplitAtSuffix(a: string, b: string, x: string, y: string)
    requires |x| == |y|
    ensures a + x == b + y <==> a == b && x == y
  {
    if a + x == b + y {
      assert |a| == |b|;
      assert a == (a + x)[..|a|] == (b + y)[..|b|] == b;
      assert x == (a + x)[|a|..] == (b + y)[|b|..] == y;
    }
  }

  /** Two shards share a cache key exactly when their contents hash alike and their
      component and shard names run together to the same text. */
  lemma CacheKeysEqualIff(d: Descriptor, e: Descriptor)
    requires d.Valid() && e.Valid()
    ensures CacheKey(d) == CacheKey(e) <==>
            d.component + ":" + d.shardId == e.component + ":" + e.shardId && d.sha256 == e.sha256
  {
    assert CacheKey(d) == (d.component + ":" + d.shardId) + (":" + d.sha256);
    assert CacheKey(e) == (e.component + ":" + e.shardId) + (":" + e.sha256);
    SplitAtSuffix(d.component + ":" + d.shardId, e.component + ":" + e.shardId, ":" + d.sha256, ":" + e.sha256);
    assert (":" + d.sha256)[1..] == d.sha256 && (":" + e.sha256)[1..] == e.sha256;
  }

  lemma {:induction false} NoColonSplits(a: string, b: string, x: string, y: string)
    requires ':' !in a && ':' !in b && a + ":" + x == b + ":" + y
    ensures a == b && x == y
  {
    var s, t := a + ":" + x, b + ":" + y;
    assert s[|a|] == ':' && t[|b|] == ':' && a == s[..|a|] && b == t[..|b|];
    assert |a| == |b|;
    SplitAtSuffix(a, b, ":" + x, ":" + y);
    assert a + (":" + x) == s && b + (":" + y) == t;
    assert (":" + x)[1..] == x && (":" + y)[1..] == y;
  }

  /** Component names without a colon, as all documented ones are, make the key name the
      shard. */
  lemma PlainComponentsNameTheShard(d: Descriptor, e: Descriptor)
    requires d.Valid() && e.Valid() && ':' !in d.component && ':' !in e.component
    ensures CacheKey(d) == CacheKey(e) <==> d.component == e.component && d.shardId == e.shardId && d.sha256 == e.sha256
  {
    CacheKeysEqualIff(d, e);
    if CacheKey(d) == CacheKey(e) {
      NoColonSplits(d.component, e.component, d.shardId, e.shardId);
    }
  }

  /** With a colon in a component, two different shards of equal content share a key. */
  lemma ColonsShareAKey(sha: string, size: nat)
    requires IsSha(sha)
    ensures var d, e := Descriptor("a:b", "c", sha, size), Descriptor("a", "b:c", sha, size);
            d.Valid() && e.Valid() && d != e && CacheKey(d) == CacheKey(e)
  {
    var d, e := Descriptor("a:b", "c", sha, size), Descriptor("a", "b:c", sha, size);
    assert d.component + ":" + d.shardId == "a:b:c" == e.component + ":" + e.shardId;
    CacheKeysEqualIff(d, e);
  }

  /** A cache slot is never shared across namespaces, precisions, checkpoints or
      contents, whatever characters the namespace contains. */
  lemma SlotsAreSeparate(c: Contract, d: Descriptor, c': Contract, d': Descriptor)
    requires c.Valid() && d.Valid() && c'.Valid() && d'.Valid()
    requires EntryKey(c, d) == EntryKey(c', d')
    ensures c.namespace == c'.namespace && c.precisionHash == c'.precisionHash && c.checkpointHash == c'.checkpointHash
    ensures d.sha256 == d'.sha256
  {
    CacheKeysEqualIff(d, d');
    SplitAtSuffix(c.namespace + ":" + c.precisionHash + ":", c'.namespace + ":" + c'.precisionHash + ":", c.checkpointHash, c'.checkpointHash);
    hide EntryKey, Contract.Valid, Descriptor.Valid;
    JoinSeparates(c.namespace, c.precisionHash, c'.namespace, c'.precisionHash);
  }

  lemma JoinSeparates(a: string, x: string, b: string, y: string)
    requires |x| == |y| && a + ":" + x + ":" == b + ":" + y + ":"
    ensures a == b && x == y
  {
    assert a + ":" + x + ":" == a + (":" + x + ":") && b + ":" + y + ":" == b + (":" + y + ":");
    SplitAtSuffix(a, b, ":" + x + ":", ":" + y + ":");
    assert (":" + x + ":")[1..|x| + 1] == x && (":" + y + ":")[1..|y| + 1] == y;
  }

  // ------------------------------------------------------------------- runs

  datatype World = World(pointers: map<string, Pointer>, durable: map<string, Bytes>, entries: map<Key, Entry>)

  /** `Tamper` replaces the whole cache by anything at all. */
  datatype Op =
    | Swap(runKey: string, expected: int, manifest: Manifest, step: int)
    | PutShard(shard: Descriptor, payload: Bytes)
    | Read(pointer: Pointer, source: Manifest, d: Descriptor, now: int)
    | Tamper(entries: map<Key, Entry>)

  datatype Config = Config(hashes: Hashes, ttl: int)

  function Step(c: Config, w: World, op: Op): World {
    match op
    case Swap(runKey, expected, manifest, step) =>
      w.(pointers := CompareAndSwap(c.hashes, w.pointers, runKey, expected, manifest, step).1)
    case PutShard(d, payload) => w.(durable := Put(c.hashes, w.durable, d, payload).1)
    case Read(pointer, manifest, d, now) =>
      w.(entries := Fetch(c.hashes, c.ttl, w.entries, w.durable, pointer, manifest, d, now).1)
    case Tamper(entries) => w.(entries := entries)
  }

  function Exec(c: Config, w: World, ops: seq<Op>): World
    decreases |ops|
  {
    if ops == [] then w else Exec(c, Step(c, w, ops[0]), ops[1..])
  }

  const EMPTY := World(map[], map[], map[])

  lemma {:induction false} ExecAppends(c: Config, w: World, xs: seq<Op>, ys: seq<Op>)
    ensures Exec(c, w, xs + ys) == Exec(c, Exec(c, w, xs), ys)
    decreases |xs|
  {
    if xs == [] {
      assert xs + ys == ys;
    } else {
      ExecAppends(c, Step(c, w, xs[0]), xs[1..], ys);
      assert (xs + ys)[1..] == xs[1..] + ys;
    }
  }

  // ------------------------------------------------------- durable contents

  /** Everything stored hashes to the digest its key ends in, and was put by the run. */
  ghost predicate DurableSound(c: Config, w: World, seen: set<Bytes>) {
    forall k :: k in w.durable ==>
      w.durable[k] in seen && |k| >= SHA_LENGTH && c.hashes.bytes(w.durable[k]) == k[|k| - SHA_LENGTH..]
  }

  /** Every payload the run puts is in `seen`. */
  ghost predicate PutsIn(ops: seq<Op>, seen: set<Bytes>) {
    forall i :: 0 <= i < |ops| && ops[i].PutShard? ==> ops[i].payload in seen
  }

  lemma KeyEndsInDigest(d: Descriptor)
    requires d.Valid()
    ensures |CacheKey(d)| >= SHA_LENGTH && CacheKey(d)[|CacheKey(d)| - SHA_LENGTH..] == d.sha256
  {
  }

  lemma {:induction false} DurableStaysSound(c: Config, w: World, ops: seq<Op>, seen: set<Bytes>)
    requires DurableSound(c, w, seen) && PutsIn(ops, seen)
    ensures DurableSound(c, Exec(c, w, ops), seen)
    decreases |ops|
  {
    if ops != [] {
      var next := Step(c, w, ops[0]);
      assert DurableSound(c, next, seen) by {
        if ops[0].PutShard? && ops[0].shard.Valid() { KeyEndsInDigest(ops[0].shard); }
      }
      assert PutsIn(ops[1..], seen);
      DurableStaysSound(c, next, ops[1..], seen);
    }
  }

  /** A stored payload is never replaced by another one. */
  lemma {:induction false} DurableNeverChanges(c: Config, w: World, ops: seq<Op>, seen: set<Bytes>, k: string)
    requires DurableSound(c, w, seen) && PutsIn(ops, seen) && CollisionFreeOn(c.hashes.bytes, seen) && k in w.durable
    ensures k in Exec(c, w, ops).durable && Exec(c, w, ops).durable[k] == w.durable[k]
    decreases |ops|
  {
    if ops != [] {
      var next := Step(c, w, ops[0]);
      assert k in next.durable && next.durable[k] == w.durable[k] by {
        if ops[0].PutShard? && ops[0].shard.Valid() { KeyEndsInDigest(ops[0].shard); }
      }
      DurableStaysSound(c, w, [ops[0]], seen) by { assert PutsIn([ops[0]], seen); }
      assert Exec(c, next, [ops[0]][1..]) == next;
      assert PutsIn(ops[1..], seen);
      DurableNeverChanges(c, next, ops[1..], seen, k);
    }
  }

  // ----------------------------------------------------------------- reads

  /** Exactly when a read succeeds, for any cache contents. */
  lemma ReadSucceedsIff(c: Config, w: World, pointer: Pointer, manifest: Manifest, d: Descriptor, now: int)
    ensures Fetch(c.hashes, c.ttl, w.entries, w.durable, pointer, manifest, d, now).0.Ok? <==>
            && FetchRefusal(c.hashes, pointer, manifest, d).None?
            && (Hit(c.hashes, w.entries, EntryKey(manifest.contract, d), d, now)
                || (CacheKey(d) in w.durable && Verifies(c.hashes, d, w.durable[CacheKey(d)])))
  {
  }

  /** Read-through refinement: in any run, with any tampering, a successful read is the
      stored payload whenever the shard is stored. */
  lemma ReadsReturnDurableBytes(c: Config, ops: seq<Op>, seen: set<Bytes>,
                                pointer: Pointer, manifest: Manifest, d: Descriptor, now: int)
    requires PutsIn(ops, seen)
    requires var w := Exec(c, EMPTY, ops);
             var r := Fetch(c.hashes, c.ttl, w.entries, w.durable, pointer, manifest, d, now).0;
             r.Ok? && CacheKey(d) in w.durable && CollisionFreeOn(c.hashes.bytes, seen + {r.value.0})
    ensures var w := Exec(c, EMPTY, ops);
            Fetch(c.hashes, c.ttl, w.entries, w.durable, pointer, manifest, d, now).0.value.0 == w.durable[CacheKey(d)]
  {
    DurableStaysSound(c, EMPTY, ops, seen);
    DeclaredIsValid(manifest, d);
    KeyEndsInDigest(d);
  }

  /** Once put, a shard can always be read back: whatever runs, reads and tampering
      follow, a read under a matching pointer and manifest returns the payload. */
  lemma PutThenReadSucceeds(c: Config, before: seq<Op>, d: Descriptor, payload: Bytes, after: seq<Op>, seen: set<Bytes>,
                            pointer: Pointer, manifest: Manifest, now: int)
    requires d.Valid() && Verifies(c.hashes, d, payload)
    requires PutsIn(before + [PutShard(d, payload)] + after, seen)
    requires FetchRefusal(c.hashes, pointer, manifest, d).None?
    requires var w := Exec(c, EMPTY, before + [PutShard(d, payload)] + after);
             forall k :: k in w.entries ==> w.entries[k].payload in seen
    requires CollisionFreeOn(c.hashes.bytes, seen)
    ensures var w := Exec(c, EMPTY, before + [PutShard(d, payload)] + after);
            var r := Fetch(c.hashes, c.ttl, w.entries, w.durable, pointer, manifest, d, now).0;
            r.Ok? && r.value.0 == payload
  {
    var ops := before + [PutShard(d, payload)];
    assert PutsIn(ops, seen) by {
      forall i | 0 <= i < |ops| && ops[i].PutShard? ensures ops[i].payload in seen {
        assert ops[i] == (ops + after)[i];
      }
    }
    assert PutsIn(before, seen) by {
      forall i | 0 <= i < |before| && before[i].PutShard? ensures before[i].payload in seen {
        assert before[i] == ops[i];
      }
    }
    assert PutsIn(after, seen) by {
      forall i | 0 <= i < |after| && after[i].PutShard? ensures after[i].payload in seen {
        assert after[i] == (ops + after)[|ops| + i];
      }
    }
    ExecAppends(c, EMPTY, before, [PutShard(d, payload)]);
    var put := Step(c, Exec(c, EMPTY, before), PutShard(d, payload));
    assert Exec(c, EMPTY, ops) == Exec(c, put, []) == put;
    DurableStaysSound(c, EMPTY, ops, seen);
    ExecAppends(c, EMPTY, ops, after);
    DurableNeverChanges(c, put, after, seen, CacheKey(d));
    assert payload in seen by { assert (ops + after)[|before|] == PutShard(d, payload); }
  }

  /** Shards that share a key read as the same bytes or do not read at all. */
  lemma SharedKeysReadAlike(c: Config, w: World, d: Descriptor, e: Descriptor, p: Pointer, q: Pointer, m: Manifest, n: Manifest, t: int, u: int)
    requires CacheKey(d) == CacheKey(e)
    requires var r := Fetch(c.hashes, c.ttl, w.entries, w.durable, p, m, d, t).0;
             var s := Fetch(c.hashes, c.ttl, w.entries, w.durable, q, n, e, u).0;
             r.Ok? && s.Ok? && CollisionFreeOn(c.hashes.bytes, {r.value.0, s.value.0})
    ensures Fetch(c.hashes, c.ttl, w.entries, w.durable, p, m, d, t).0.value.0
            == Fetch(c.hashes, c.ttl, w.entries, w.durable, q, n, e, u).0.value.0
  {
    DeclaredIsValid(m, d);
    DeclaredIsValid(n, e);
    CacheKeysEqualIff(d, e);
  }

  /** A successful read leaves an entry that serves the same bytes until it expires. */
  lemma ReadWarmsTheCache(c: Config, w: World, pointer: Pointer, manifest: Manifest, d: Descriptor, now: int, later: int)
    requires var (r, entries) := Fetch(c.hashes, c.ttl, w.entries, w.durable, pointer, manifest, d, now);
             r.Ok? && entries[EntryKey(manifest.contract, d)].expiresNs >= later
    ensures var (r, entries) := Fetch(c.hashes, c.ttl, w.entries, w.durable, pointer, manifest, d, now);
            forall durable ::
              Fetch(c.hashes, c.ttl, entries, durable, pointer, manifest, d, later) == (Ok((r.value.0, FromCache)), entries)
  {
  }

  // -------------------------------------------------------- commit pointer

  predicate Wins(w: World, op: Op) {
    op.Swap? && op.manifest.Valid() && op.step >= 0 && Revision(w.pointers, op.runKey) == op.expected
  }

  /** Successful swaps of one run key. */
  function WinCount(c: Config, w: World, ops: seq<Op>, runKey: string): nat
    decreases |ops|
  {
    if ops == [] then 0
    else (if Wins(w, ops[0]) && ops[0].runKey == runKey then 1 else 0) + WinCount(c, Step(c, w, ops[0]), ops[1..], runKey)
  }

  /** A run key's revision counts its successful swaps; nothing else moves it. */
  lemma {:induction false} RevisionCountsWins(c: Config, w: World, ops: seq<Op>, runKey: string)
    ensures Revision(Exec(c, w, ops).pointers, runKey) == Revision(w.pointers, runKey) + WinCount(c, w, ops, runKey)
    decreases |ops|
  {
    if ops != [] {
      RevisionCountsWins(c, Step(c, w, ops[0]), ops[1..], runKey);
    }
  }

  /** No swap of the run key wins in the run. */
  ghost predicate NoWinIn(c: Config, w: World, ops: seq<Op>, runKey: string)
    decreases |ops|
  {
    ops == [] || ((Wins(w, ops[0]) ==> ops[0].runKey != runKey) && NoWinIn(c, Step(c, w, ops[0]), ops[1..], runKey))
  }

  lemma {:induction false} PointerStaysWithoutWin(c: Config, w: World, ops: seq<Op>, runKey: string)
    requires NoWinIn(c, w, ops, runKey) && runKey in w.pointers
    ensures runKey in Exec(c, w, ops).pointers && Exec(c, w, ops).pointers[runKey] == w.pointers[runKey]
    decreases |ops|
  {
    if ops != [] {
      PointerStaysWithoutWin(c, Step(c, w, ops[0]), ops[1..], runKey);
    }
  }

  /** A linearizable read: the pointer of a run is the one its last winning swap wrote,
      whatever refused swaps, reads, puts and tampering came since. */
  lemma ReadSeesLastWin(c: Config, w: World, win: Op, later: seq<Op>)
    requires Wins(w, win) && NoWinIn(c, Step(c, w, win), later, win.runKey)
    ensures var now := Exec(c, Step(c, w, win), later);
            && win.runKey in now.pointers
            && now.pointers[win.runKey]
               == Pointer(win.expected + 1, win.manifest.contract.checkpointHash, c.hashes.manifest(win.manifest), win.step)
  {
    PointerStaysWithoutWin(c, Step(c, w, win), later, win.runKey);
  }

  /** Of all swaps of a run key that expect the same revision, at most one succeeds, in
      any run: a later winner expects a strictly larger revision. */
  lemma OneWinnerPerRevision(c: Config, w: World, first: Op, between: seq<Op>, second: Op)
    requires Wins(w, first) && Wins(Exec(c, Step(c, w, first), between), second) && first.runKey == second.runKey
    ensures first.expected < second.expected
  {
    RevisionCountsWins(c, Step(c, w, first), between, first.runKey);
  }

  /** A pointer selects one manifest. */
  lemma PointerSelectsOneManifest(c: Config, pointer: Pointer, m: Manifest, n: Manifest, d: Descriptor, e: Descriptor)
    requires FetchRefusal(c.hashes, pointer, m, d).None? && FetchRefusal(c.hashes, pointer, n, e).None?
    requires CollisionFreeOn(c.hashes.manifest, {m, n})
    ensures m == n
  {
  }
}

/** The single-flight gate in front of durable checkpoint shards.

    Every call of `load` is a process with a program counter; each section under a
    lock, each admission decision and each outcome of the loader is one atomic step,
    and steps of different calls interleave freely. The clock is an input of the steps
    that read it, so a lease may expire at any moment. Flights live in a heap keyed by
    their generation, which is what `flights[key] is flight` compares. */
module LoadGate {
  import opened Prelude

  // -------------------------------------------------------------- data model

  /** `leader` and `digest` record which call opened the flight and what it asked for. */
  datatype Flight = Flight(
    key: string, leader: nat, digest: string, deadline: int,
    done: bool, payload: Option<Bytes>, failed: bool)

  datatype Source = Cache | DurableLeader | Follower(generation: nat)

  /** One call of `load` that got past the cache: its request and its flight. */
  datatype Load = Load(key: string, digest: string, generation: nat, deadline: int)

  datatype Pc =
    | Following(load: Load)
    | Admitting(load: Load)
    | Loading(load: Load)                    // holds a token
    | Loaded(load: Load, payload: Bytes)     // holds a token
    | Failing(load: Load, holding: bool)
    | Publishing(load: Load, payload: Bytes)
    | Returned(key: string, digest: string, payload: Bytes, source: Source)
    | Raised

  datatype Gate = Gate(
    cache: map<string, Bytes>,
    flights: map<nat, Flight>,
    registered: map<string, nat>,
    readsEnabled: bool,
    nextGeneration: nat,
    limit: int, inflight: int, maxInflight: int,
    calls: map<nat, Pc>)

  datatype Step =
    | Begin(call: nat, key: string, digest: string, timeout: int, now: int)
    | Wake(call: nat, now: int)
    | Acquire(call: nat, timedOut: bool)
    | LoaderReturns(call: nat, payload: Bytes, now: int)
    | LoaderRaises(call: nat)
    | Release(call: nat)
    | Fail(call: nat)
    | Publish(call: nat)
    | Warm(key: string, payload: Bytes, digest: string)
    | Quarantine
    | Reopen
    | SetLimit(limit: int)
    | Tamper(key: string, payload: Bytes)  // an untrusted cache tier rewrites an entry

  function Initial(limit: int): Gate {
    Gate(map[], map[], map[], true, 0, limit, 0, 0, map[])
  }

  // ------------------------------------------------------------------- steps

  function At(s: Gate, call: nat, pc: Pc): Gate {
    s.(calls := s.calls[call := pc])
  }

  predicate ArgumentsOk(key: string, digest: string, timeout: int) {
    timeout > 0 && key != "" && |digest| == 64
  }

  /** The cache entry the first section looks at, if reads are enabled. */
  function CachedEntry(s: Gate, key: string): Option<Bytes> {
    if s.readsEnabled && key in s.cache then Some(s.cache[key]) else None
  }

  /** A corrupt entry is dropped before the flight map is consulted. */
  function DropCorrupt(sha: Bytes -> string, s: Gate, key: string, digest: string): Gate {
    match CachedEntry(s, key)
    case Some(bytes) => if sha(bytes) != digest then s.(cache := s.cache - {key}) else s
    case None => s
  }

  predicate LeaseExpired(s: Gate, key: string, now: int) {
    && key in s.registered && s.registered[key] in s.flights
    && !s.flights[s.registered[key]].done && now >= s.flights[s.registered[key]].deadline
  }

  function FenceExpired(s: Gate, key: string, now: int): Gate {
    if LeaseExpired(s, key, now) then
      var g := s.registered[key];
      s.(flights := s.flights[g := s.flights[g].(failed := true, done := true)], registered := s.registered - {key})
    else s
  }

  function OpenFlight(s: Gate, call: nat, key: string, digest: string, deadline: int): Gate {
    var g := s.nextGeneration + 1;
    s.(nextGeneration := g,
       flights := s.flights[g := Flight(key, call, digest, deadline, false, None, false)],
       registered := s.registered[key := g],
       calls := s.calls[call := Admitting(Load(key, digest, g, deadline))])
  }

  function JoinOrLead(s: Gate, call: nat, key: string, digest: string, deadline: int): Gate {
    if key in s.registered then At(s, call, Following(Load(key, digest, s.registered[key], deadline)))
    else OpenFlight(s, call, key, digest, deadline)
  }

  /** No verified cache entry: what the first section clears away before it joins or
      opens a flight. */
  function Missed(sha: Bytes -> string, s: Gate, key: string, digest: string, now: int): Gate {
    FenceExpired(DropCorrupt(sha, s, key, digest), key, now)
  }

  function BeginLoad(sha: Bytes -> string, s: Gate, call: nat, key: string, digest: string, timeout: int, now: int): Gate {
    if !ArgumentsOk(key, digest, timeout) then At(s, call, Raised)
    else
      var entry := CachedEntry(s, key);
      if entry.Some? && sha(entry.value) == digest then At(s, call, Returned(key, digest, entry.value, Cache))
      else JoinOrLead(Missed(sha, s, key, digest, now), call, key, digest, now + timeout)
  }

  function WakeFollower(s: Gate, call: nat, pc: Pc, now: int): Gate
    requires pc.Following?
  {
    if pc.load.generation !in s.flights then s
    else
      var flight := s.flights[pc.load.generation];
      if flight.done then
        if flight.failed || flight.payload.None? then At(s, call, Raised)
        else At(s, call, Returned(pc.load.key, pc.load.digest, flight.payload.value, Follower(pc.load.generation)))
      else if now >= pc.load.deadline then At(s, call, Raised)
      else s
  }

  /** One evaluation of the admission loop: a free token is taken, and only a full
      gate can time out. */
  function AcquireToken(s: Gate, call: nat, pc: Pc, timedOut: bool): Gate
    requires pc.Admitting?
  {
    if s.inflight < s.limit then
      At(s, call, Loading(pc.load)).(
        inflight := s.inflight + 1,
        maxInflight := if s.maxInflight < s.inflight + 1 then s.inflight + 1 else s.maxInflight)
    else if timedOut then At(s, call, Failing(pc.load, false))
    else s
  }

  function VerifyLoaded(sha: Bytes -> string, s: Gate, call: nat, pc: Pc, payload: Bytes, now: int): Gate
    requires pc.Loading?
  {
    if sha(payload) != pc.load.digest || now > pc.load.deadline then At(s, call, Failing(pc.load, true))
    else At(s, call, Loaded(pc.load, payload))
  }

  /** The `finally` clause; releasing without a token would raise in its place. */
  function ReleaseToken(s: Gate, call: nat, pc: Pc): Gate
    requires pc.Loaded? || (pc.Failing? && pc.holding)
  {
    if s.inflight <= 0 then At(s, call, Failing(pc.load, false))
    else if pc.Loaded? then At(s, call, Publishing(pc.load, pc.payload)).(inflight := s.inflight - 1)
    else At(s, call, Failing(pc.load, false)).(inflight := s.inflight - 1)
  }

  /** The failure section pops the key without asking whose flight is registered. */
  function RecordFailure(s: Gate, call: nat, pc: Pc): Gate
    requires pc.Failing?
  {
    if pc.load.generation !in s.flights then s
    else At(s, call, Raised).(
      flights := s.flights[pc.load.generation := s.flights[pc.load.generation].(failed := true, done := true)],
      registered := s.registered - {pc.load.key})
  }

  predicate OwnsKey(s: Gate, pc: Pc)
    requires pc.Publishing?
  {
    pc.load.key in s.registered && s.registered[pc.load.key] == pc.load.generation && pc.load.generation in s.flights
  }

  function PublishResult(s: Gate, call: nat, pc: Pc): Gate
    requires pc.Publishing?
  {
    if OwnsKey(s, pc) then
      At(s, call, Returned(pc.load.key, pc.load.digest, pc.payload, DurableLeader)).(
        cache := s.cache[pc.load.key := pc.payload],
        flights := s.flights[pc.load.generation := s.flights[pc.load.generation].(payload := Some(pc.payload), done := true)],
        registered := s.registered - {pc.load.key})
    else At(s, call, Raised)
  }

  /** A step of a call that is not at that point changes nothing. */
  function Apply(sha: Bytes -> string, s: Gate, step: Step): Gate {
    match step
    case Begin(call, key, digest, timeout, now) =>
      if call in s.calls then s else BeginLoad(sha, s, call, key, digest, timeout, now)
    case Wake(call, now) =>
      if call in s.calls && s.calls[call].Following? then WakeFollower(s, call, s.calls[call], now) else s
    case Acquire(call, timedOut) =>
      if call in s.calls && s.calls[call].Admitting? then AcquireToken(s, call, s.calls[call], timedOut) else s
    case LoaderReturns(call, payload, now) =>
      if call in s.calls && s.calls[call].Loading? then VerifyLoaded(sha, s, call, s.calls[call], payload, now) else s
    case LoaderRaises(call) =>
      if call in s.calls && s.calls[call].Loading?
      then At(s, call, Failing(s.calls[call].load, true)) else s
    case Release(call) =>
      if call in s.calls && (s.calls[call].Loaded? || (s.calls[call].Failing? && s.calls[call].holding))
      then ReleaseToken(s, call, s.calls[call]) else s
    case Fail(call) =>
      if call in s.calls && s.calls[call].Failing? && !s.calls[call].holding then RecordFailure(s, call, s.calls[call]) else s
    case Publish(call) =>
      if call in s.calls && s.calls[call].Publishing? then PublishResult(s, call, s.calls[call]) else s
    case Warm(key, payload, digest) =>
      if sha(payload) == digest then s.(cache := s.cache[key := payload]) else s
    case Quarantine => s.(readsEnabled := false)
    case Reopen => s.(readsEnabled := true)
    case SetLimit(limit) => if limit < 1 then s else s.(limit := limit)
    case Tamper(key, payload) => s.(cache := s.cache[key := payload])
  }

  // ---------------------------------------------------- the gate as an object

  /** `ThreadSafeVerifiedShardGate` with its admission budget. A method is what one
      call does between two points at which another call may run. */
  class ShardGate {
    const sha: Bytes -> string
    var cache: map<string, Bytes>
    var flights: map<nat, Flight>
    var registered: map<string, nat>
    var readsEnabled: bool
    var nextGeneration: nat
    var limit: int
    var inflight: int
    var maxInflight: int
    var calls: map<nat, Pc>

    constructor (sha: Bytes -> string, durableLimit: int)
      requires durableLimit >= 1
      ensures this.sha == sha && View() == Initial(durableLimit)
    {
      this.sha := sha;
      cache, flights, registered, calls := map[], map[], map[], map[];
      readsEnabled, nextGeneration := true, 0;
      limit, inflight, maxInflight := durableLimit, 0, 0;
    }

    function View(): Gate
      reads this
    {
      Gate(cache, flights, registered, readsEnabled, nextGeneration, limit, inflight, maxInflight, calls)
    }

    method BeginCall(call: nat, key: string, digest: string, timeout: int, now: int)
      requires call !in calls
      modifies this
      ensures View() == Apply(sha, old(View()), Begin(call, key, digest, timeout, now))
    {
      if timeout <= 0 || key == "" || |digest| != 64 {
        calls := calls[call := Raised];
        return;
      }
      var deadline := now + timeout;
      if readsEnabled && key in cache {
        var cached := cache[key];
        if sha(cached) == digest {
          calls := calls[call := Returned(key, digest, cached, Cache)];
          return;
        }
        cache := cache - {key};
      }
      FenceExpiredLease(key, now);
      JoinOrOpenFlight(call, key, digest, deadline);
    }

    /** Second part of the section of `BeginCall`; the lock is still held. */
    method FenceExpiredLease(key: string, now: int)
      modifies this`flights, this`registered
      ensures View() == FenceExpired(old(View()), key, now)
    {
      if key in registered && registered[key] in flights && !flights[registered[key]].done
         && now >= flights[registered[key]].deadline {
        var g := registered[key];
        flights := flights[g := flights[g].(failed := true, done := true)];
        registered := registered - {key};
      }
    }

    /** Last part of the section of `BeginCall`; the lock is still held. */
    method JoinOrOpenFlight(call: nat, key: string, digest: string, deadline: int)
      modifies this`flights, this`registered, this`nextGeneration, this`calls
      ensures View() == JoinOrLead(old(View()), call, key, digest, deadline)
    {
      if key in registered {
        calls := calls[call := Following(Load(key, digest, registered[key], deadline))];
      } else {
        nextGeneration := nextGeneration + 1;
        flights := flights[nextGeneration := Flight(key, call, digest, deadline, false, None, false)];
        registered := registered[key := nextGeneration];
        calls := calls[call := Admitting(Load(key, digest, nextGeneration, deadline))];
      }
    }

    method WakeCall(call: nat, now: int)
      requires call in calls && calls[call].Following? && calls[call].load.generation in flights
      modifies this`calls
      ensures View() == Apply(sha, old(View()), Wake(call, now))
    {
      var pc := calls[call];
      var flight := flights[pc.load.generation];
      if !flight.done {
        if now >= pc.load.deadline {
          calls := calls[call := Raised];
        }
      } else if flight.failed || flight.payload.None? {
        calls := calls[call := Raised];
      } else {
        calls := calls[call := Returned(pc.load.key, pc.load.digest, flight.payload.value, Follower(pc.load.generation))];
      }
    }

    method AcquireAdmission(call: nat, timedOut: bool)
      requires call in calls && calls[call].Admitting?
      modifies this`calls, this`inflight, this`maxInflight
      ensures View() == Apply(sha, old(View()), Acquire(call, timedOut))
    {
      var pc := calls[call];
      if inflight >= limit {
        if timedOut {
          calls := calls[call := Failing(pc.load, false)];
        }
        return;
      }
      inflight := inflight + 1;
      if maxInflight < inflight { maxInflight := inflight; }
      calls := calls[call := Loading(pc.load)];
    }

    method FinishLoader(call: nat, payload: Bytes, now: int)
      requires call in calls && calls[call].Loading?
      modifies this`calls
      ensures View() == Apply(sha, old(View()), LoaderReturns(call, payload, now))
    {
      var pc := calls[call];
      if sha(payload) != pc.load.digest || now > pc.load.deadline {
        calls := calls[call := Failing(pc.load, true)];
      } else {
        calls := calls[call := Loaded(pc.load, payload)];
      }
    }

    method ReleaseAdmission(call: nat)
      requires call in calls && (calls[call].Loaded? || (calls[call].Failing? && calls[call].holding))
      modifies this`calls, this`inflight
      ensures View() == Apply(sha, old(View()), Release(call))
    {
      var pc := calls[call];
      if inflight <= 0 {
        calls := calls[call := Failing(pc.load, false)];
        return;
      }
      inflight := inflight - 1;
      if pc.Loaded? {
        calls := calls[call := Publishing(pc.load, pc.payload)];
      } else {
        calls := calls[call := Failing(pc.load, false)];
      }
    }

    method FailCall(call: nat)
      requires call in calls && calls[call].Failing? && !calls[call].holding && calls[call].load.generation in flights
      modifies this`calls, this`flights, this`registered
      ensures View() == Apply(sha, old(View()), Fail(call))
    {
      var pc := calls[call];
      flights := flights[pc.load.generation := flights[pc.load.generation].(failed := true, done := true)];
      registered := registered - {pc.load.key};
      calls := calls[call := Raised];
    }

    method PublishCall(call: nat)
      requires call in calls && calls[call].Publishing? && calls[call].load.generation in flights
      modifies this`calls, this`flights, this`registered, this`cache
      ensures View() == Apply(sha, old(View()), Publish(call))
    {
      var pc := calls[call];
      if pc.load.key !in registered || registered[pc.load.key] != pc.load.generation {
        calls := calls[call := Raised];
        return;
      }
      cache := cache[pc.load.key := pc.payload];
      flights := flights[pc.load.generation := flights[pc.load.generation].(payload := Some(pc.payload), done := true)];
      registered := registered - {pc.load.key};
      calls := calls[call := Returned(pc.load.key, pc.load.digest, pc.payload, DurableLeader)];
    }

    method WarmVerified(key: string, payload: Bytes, digest: string) returns (ok: bool)
      modifies this`cache
      ensures ok == (sha(payload) == digest)
      ensures View() == Apply(sha, old(View()), Warm(key, payload, digest))
    {
      ok := sha(payload) == digest;
      if ok { cache := cache[key := payload]; }
    }

    method SetDurableLimit(newLimit: int) returns (ok: bool)
      modifies this`limit
      ensures ok == (newLimit >= 1)
      ensures View() == Apply(sha, old(View()), SetLimit(newLimit))
    {
      ok := newLimit >= 1;
      if ok { limit := newLimit; }
    }

    method SetCacheReads(enabled: bool)
      modifies this`readsEnabled
      ensures View() == Apply(sha, old(View()), if enabled then Reopen else Quarantine)
    {
      readsEnabled := enabled;
    }
  }
}

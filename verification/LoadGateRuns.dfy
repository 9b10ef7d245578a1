/** What holds of the load gate in every interleaving of its callers. */
module LoadGateRuns {
  import opened Prelude
  import opened LoadGate

  function Exec(sha: Bytes -> string, s: Gate, steps: seq<Step>): Gate {
    if steps == [] then s
    else Apply(sha, Exec(sha, s, steps[..|steps| - 1]), steps[|steps| - 1])
  }

  lemma {:induction false} ExecAppend(sha: Bytes -> string, s: Gate, steps: seq<Step>, more: seq<Step>)
    ensures Exec(sha, s, steps + more) == Exec(sha, Exec(sha, s, steps), more)
  {
    if more == [] {
      assert steps + more == steps;
    } else {
      ExecAppend(sha, s, steps, more[..|more| - 1]);
      assert (steps + more)[..|steps + more| - 1] == steps + more[..|more| - 1];
    }
  }

  // --------------------------------------------------------------- invariant

  /** The call has opened a flight and has not finished with it. */
  predicate Leads(pc: Pc) {
    pc.Admitting? || pc.Loading? || pc.Loaded? || pc.Failing? || pc.Publishing?
  }

  predicate HoldsToken(pc: Pc) {
    pc.Loading? || pc.Loaded? || (pc.Failing? && pc.holding)
  }

  /** A finished flight carries exactly one of a payload and an error, an open one
      neither, and a payload has the digest the leader asked for. */
  ghost predicate FlightOk(sha: Bytes -> string, f: Flight) {
    && (f.done ==> (f.payload.Some? <==> !f.failed))
    && (!f.done ==> f.payload.None? && !f.failed)
    && (f.payload.Some? ==> sha(f.payload.value) == f.digest)
  }

  ghost predicate FlightsOk(sha: Bytes -> string, s: Gate) {
    forall g :: g in s.flights ==> g <= s.nextGeneration && FlightOk(sha, s.flights[g])
  }

  /** What is registered is open, and its leader is still at work on it. */
  ghost predicate RegisteredOk(s: Gate) {
    forall k :: k in s.registered ==>
      && s.registered[k] in s.flights
      && var f := s.flights[s.registered[k]];
      && f.key == k && !f.done && f.leader in s.calls && Leads(s.calls[f.leader])
      && s.calls[f.leader].load.generation == s.registered[k]
  }

  ghost predicate CallOk(sha: Bytes -> string, s: Gate, call: nat, pc: Pc) {
    && (Leads(pc) ==>
          && pc.load.generation in s.flights
          && var f := s.flights[pc.load.generation];
          && f.key == pc.load.key && f.digest == pc.load.digest && f.leader == call && f.payload.None?)
    && (pc.Following? ==> pc.load.generation in s.flights && s.flights[pc.load.generation].key == pc.load.key)
    && (pc.Loaded? || pc.Publishing? ==> sha(pc.payload) == pc.load.digest)
    && (pc.Returned? && !pc.source.Follower? ==> sha(pc.payload) == pc.digest)
    && (pc.Returned? && pc.source.Follower? ==>
          && pc.source.generation in s.flights && s.flights[pc.source.generation].key == pc.key
          && sha(pc.payload) == s.flights[pc.source.generation].digest)
  }

  ghost predicate CallsOk(sha: Bytes -> string, s: Gate) {
    forall c :: c in s.calls ==> CallOk(sha, s, c, s.calls[c])
  }

  ghost function Holders(s: Gate): set<nat> {
    set c | c in s.calls && HoldsToken(s.calls[c])
  }

  ghost predicate TokensOk(s: Gate) {
    s.inflight == |Holders(s)| && s.inflight <= s.maxInflight
  }

  ghost predicate Inv(sha: Bytes -> string, s: Gate) {
    FlightsOk(sha, s) && RegisteredOk(s) && CallsOk(sha, s) && TokensOk(s)
  }

  // ---------------------------------------------------- each step keeps them

  /** A call moves to `pc` and nothing else changes: the token count moves with it. */
  lemma MoveKeepsTokens(s: Gate, after: Gate, call: nat, pc: Pc)
    requires TokensOk(s) && after.calls == s.calls[call := pc]
    requires var held := call in s.calls && HoldsToken(s.calls[call]);
             after.inflight == s.inflight + (if HoldsToken(pc) then 1 else 0) - (if held then 1 else 0)
    requires after.inflight <= after.maxInflight
    ensures TokensOk(after)
  {
    if HoldsToken(pc) {
      assert Holders(after) == Holders(s) + {call};
    } else {
      assert Holders(after) == Holders(s) - {call};
    }
  }

  /** One call moves, no flight and no registration changes. */
  lemma MoveKeepsInv(sha: Bytes -> string, s: Gate, after: Gate, call: nat, pc: Pc)
    requires Inv(sha, s) && after.calls == s.calls[call := pc]
    requires after.flights == s.flights && after.registered == s.registered && after.nextGeneration == s.nextGeneration
    requires TokensOk(after) && CallOk(sha, s, call, pc)
    requires call in s.calls && Leads(s.calls[call]) ==>
               (Leads(pc) && pc.load == s.calls[call].load)
               || !(s.calls[call].load.key in s.registered && s.registered[s.calls[call].load.key] == s.calls[call].load.generation)
    ensures Inv(sha, after)
  {
  }

  /** Fencing an expired lease leaves the old leader running, off the books. */
  lemma FenceKeepsInv(sha: Bytes -> string, s: Gate, key: string, now: int)
    requires Inv(sha, s)
    ensures Inv(sha, FenceExpired(s, key, now))
  {
  }

  lemma OpenKeepsFlights(sha: Bytes -> string, s: Gate, call: nat, key: string, digest: string, deadline: int)
    requires FlightsOk(sha, s) && RegisteredOk(s) && call !in s.calls && key !in s.registered
    ensures var after := OpenFlight(s, call, key, digest, deadline);
            FlightsOk(sha, after) && RegisteredOk(after)
  {
    assert s.nextGeneration + 1 !in s.flights;
  }

  lemma OpenKeepsCalls(sha: Bytes -> string, s: Gate, call: nat, key: string, digest: string, deadline: int)
    requires FlightsOk(sha, s) && CallsOk(sha, s) && call !in s.calls
    ensures CallsOk(sha, OpenFlight(s, call, key, digest, deadline))
  {
    assert s.nextGeneration + 1 !in s.flights;
  }

  lemma OpenKeepsInv(sha: Bytes -> string, s: Gate, call: nat, key: string, digest: string, deadline: int)
    requires Inv(sha, s) && call !in s.calls && key !in s.registered
    ensures Inv(sha, OpenFlight(s, call, key, digest, deadline))
  {
    var after := OpenFlight(s, call, key, digest, deadline);
    MoveKeepsTokens(s, after, call, after.calls[call]);
    hide FlightsOk, RegisteredOk, CallsOk, TokensOk, OpenFlight;
    OpenKeepsFlights(sha, s, call, key, digest, deadline);
    OpenKeepsCalls(sha, s, call, key, digest, deadline);
  }

  lemma JoinOrLeadKeepsInv(sha: Bytes -> string, s: Gate, call: nat, key: string, digest: string, deadline: int)
    requires Inv(sha, s) && call !in s.calls
    ensures Inv(sha, JoinOrLead(s, call, key, digest, deadline))
  {
    if key in s.registered {
      var pc := Following(Load(key, digest, s.registered[key], deadline));
      MoveKeepsTokens(s, At(s, call, pc), call, pc);
      MoveKeepsInv(sha, s, At(s, call, pc), call, pc);
    } else {
      OpenKeepsInv(sha, s, call, key, digest, deadline);
    }
  }

  lemma DropKeepsInv(sha: Bytes -> string, s: Gate, cache: map<string, Bytes>)
    requires Inv(sha, s)
    ensures Inv(sha, s.(cache := cache))
  {
  }

  lemma AnswerKeepsInv(sha: Bytes -> string, s: Gate, call: nat, pc: Pc)
    requires Inv(sha, s) && call !in s.calls
    requires pc.Raised? || (pc.Returned? && pc.source.Cache? && sha(pc.payload) == pc.digest)
    ensures Inv(sha, At(s, call, pc))
  {
    MoveKeepsTokens(s, At(s, call, pc), call, pc);
    MoveKeepsInv(sha, s, At(s, call, pc), call, pc);
  }

  lemma MissKeepsInv(sha: Bytes -> string, s: Gate, call: nat, key: string, digest: string, deadline: int, now: int)
    requires Inv(sha, s) && call !in s.calls
    ensures Inv(sha, JoinOrLead(Missed(sha, s, key, digest, now), call, key, digest, deadline))
  {
    var dropped := DropCorrupt(sha, s, key, digest);
    DropKeepsInv(sha, s, dropped.cache);
    assert dropped == s.(cache := dropped.cache);
    FenceKeepsInv(sha, dropped, key, now);
    JoinOrLeadKeepsInv(sha, FenceExpired(dropped, key, now), call, key, digest, deadline);
  }

  lemma SettingsKeepInv(sha: Bytes -> string, s: Gate, readsEnabled: bool, limit: int)
    requires Inv(sha, s)
    ensures Inv(sha, s.(readsEnabled := readsEnabled, limit := limit))
  {
  }

  lemma BeginKeepsInv(sha: Bytes -> string, s: Gate, call: nat, key: string, digest: string, timeout: int, now: int)
    requires Inv(sha, s) && call !in s.calls
    ensures Inv(sha, BeginLoad(sha, s, call, key, digest, timeout, now))
  {
    hide Inv;
    var entry := CachedEntry(s, key);
    if !ArgumentsOk(key, digest, timeout) {
      AnswerKeepsInv(sha, s, call, Raised);
    } else if entry.Some? && sha(entry.value) == digest {
      AnswerKeepsInv(sha, s, call, Returned(key, digest, entry.value, Cache));
    } else {
      MissKeepsInv(sha, s, call, key, digest, now + timeout, now);
    }
  }

  lemma FailKeepsInv(sha: Bytes -> string, s: Gate, call: nat)
    requires Inv(sha, s) && call in s.calls && s.calls[call].Failing? && !s.calls[call].holding
    ensures Inv(sha, RecordFailure(s, call, s.calls[call]))
  {
    var after := RecordFailure(s, call, s.calls[call]);
    MoveKeepsTokens(s, after, call, Raised);
  }

  lemma PayoutKeepsFlights(sha: Bytes -> string, s: Gate, call: nat)
    requires FlightsOk(sha, s) && RegisteredOk(s) && call in s.calls && s.calls[call].Publishing?
    requires CallOk(sha, s, call, s.calls[call]) && OwnsKey(s, s.calls[call])
    ensures var after := PublishResult(s, call, s.calls[call]);
            FlightsOk(sha, after) && RegisteredOk(after)
  {
  }

  lemma PayoutKeepsCalls(sha: Bytes -> string, s: Gate, call: nat)
    requires CallsOk(sha, s) && call in s.calls && s.calls[call].Publishing? && OwnsKey(s, s.calls[call])
    ensures CallsOk(sha, PublishResult(s, call, s.calls[call]))
  {
    assert CallOk(sha, s, call, s.calls[call]);
  }

  lemma PublishKeepsInv(sha: Bytes -> string, s: Gate, call: nat)
    requires Inv(sha, s) && call in s.calls && s.calls[call].Publishing?
    ensures Inv(sha, PublishResult(s, call, s.calls[call]))
  {
    var pc := s.calls[call];
    var after := PublishResult(s, call, pc);
    assert CallOk(sha, s, call, pc);
    MoveKeepsTokens(s, after, call, after.calls[call]);
    if !OwnsKey(s, pc) {
      MoveKeepsInv(sha, s, after, call, Raised);
    } else {
      hide FlightsOk, RegisteredOk, CallsOk, CallOk, TokensOk, PublishResult;
      PayoutKeepsFlights(sha, s, call);
      PayoutKeepsCalls(sha, s, call);
    }
  }

  /** Whoever holds a token is counted, so a release never finds the budget empty. */
  lemma HolderIsCounted(s: Gate, call: nat)
    requires TokensOk(s) && call in s.calls && HoldsToken(s.calls[call])
    ensures s.inflight > 0
  {
    assert call in Holders(s);
  }

  lemma ReleaseKeepsInv(sha: Bytes -> string, s: Gate, call: nat)
    requires Inv(sha, s) && call in s.calls && HoldsToken(s.calls[call]) && !s.calls[call].Loading?
    ensures Inv(sha, ReleaseToken(s, call, s.calls[call]))
  {
    var after := ReleaseToken(s, call, s.calls[call]);
    HolderIsCounted(s, call);
    assert CallOk(sha, s, call, s.calls[call]);
    MoveKeepsTokens(s, after, call, after.calls[call]);
    MoveKeepsInv(sha, s, after, call, after.calls[call]);
  }

  lemma WakeMoves(sha: Bytes -> string, s: Gate, call: nat, now: int)
    requires FlightsOk(sha, s) && call in s.calls && s.calls[call].Following? && CallOk(sha, s, call, s.calls[call])
    ensures var after := WakeFollower(s, call, s.calls[call], now);
            after == s
            || (call in after.calls && after == At(s, call, after.calls[call]) && CallOk(sha, s, call, after.calls[call])
                && !Leads(after.calls[call]) && !HoldsToken(after.calls[call]))
  {
  }

  lemma WakeKeepsInv(sha: Bytes -> string, s: Gate, call: nat, now: int)
    requires Inv(sha, s) && call in s.calls && s.calls[call].Following?
    ensures Inv(sha, WakeFollower(s, call, s.calls[call], now))
  {
    assert CallOk(sha, s, call, s.calls[call]);
    WakeMoves(sha, s, call, now);
    var after := WakeFollower(s, call, s.calls[call], now);
    hide WakeFollower, CallOk, FlightsOk, RegisteredOk;
    if after != s {
      MoveKeepsTokens(s, after, call, after.calls[call]);
      hide Inv, TokensOk;
      MoveKeepsInv(sha, s, after, call, after.calls[call]);
    }
  }

  lemma AcquireKeepsInv(sha: Bytes -> string, s: Gate, call: nat, timedOut: bool)
    requires Inv(sha, s) && call in s.calls && s.calls[call].Admitting?
    ensures Inv(sha, AcquireToken(s, call, s.calls[call], timedOut))
  {
    var after := AcquireToken(s, call, s.calls[call], timedOut);
    if after != s {
      assert CallOk(sha, s, call, s.calls[call]);
      MoveKeepsTokens(s, after, call, after.calls[call]);
      MoveKeepsInv(sha, s, after, call, after.calls[call]);
    }
  }

  /** The loader is done: the bytes were verified, or the call is failing. */
  lemma LoaderKeepsInv(sha: Bytes -> string, s: Gate, call: nat, pc: Pc)
    requires Inv(sha, s) && call in s.calls && s.calls[call].Loading?
    requires (pc.Failing? && pc.holding) || (pc.Loaded? && sha(pc.payload) == pc.load.digest)
    requires pc.load == s.calls[call].load
    ensures Inv(sha, At(s, call, pc))
  {
    assert CallOk(sha, s, call, s.calls[call]);
    MoveKeepsTokens(s, At(s, call, pc), call, pc);
    MoveKeepsInv(sha, s, At(s, call, pc), call, pc);
  }

  lemma StepKeepsInv(sha: Bytes -> string, s: Gate, step: Step)
    requires Inv(sha, s)
    ensures Inv(sha, Apply(sha, s, step))
  {
    hide Inv;
    match step
    case Begin(call, key, digest, timeout, now) =>
      if call !in s.calls { BeginKeepsInv(sha, s, call, key, digest, timeout, now); }
    case Fail(call) =>
      if call in s.calls && s.calls[call].Failing? && !s.calls[call].holding { FailKeepsInv(sha, s, call); }
    case Publish(call) =>
      if call in s.calls && s.calls[call].Publishing? { PublishKeepsInv(sha, s, call); }
    case Wake(call, now) =>
      if call in s.calls && s.calls[call].Following? { WakeKeepsInv(sha, s, call, now); }
    case Acquire(call, timedOut) =>
      if call in s.calls && s.calls[call].Admitting? { AcquireKeepsInv(sha, s, call, timedOut); }
    case LoaderReturns(call, payload, now) =>
      if call in s.calls && s.calls[call].Loading? { LoaderKeepsInv(sha, s, call, Apply(sha, s, step).calls[call]); }
    case LoaderRaises(call) =>
      if call in s.calls && s.calls[call].Loading? { LoaderKeepsInv(sha, s, call, Apply(sha, s, step).calls[call]); }
    case Release(call) =>
      if call in s.calls && HoldsToken(s.calls[call]) && !s.calls[call].Loading? { ReleaseKeepsInv(sha, s, call); }
    case Warm(_, _, _) => DropKeepsInv(sha, s, Apply(sha, s, step).cache);
    case Tamper(_, _) => DropKeepsInv(sha, s, Apply(sha, s, step).cache);
    case Quarantine => SettingsKeepInv(sha, s, false, s.limit);
    case Reopen => SettingsKeepInv(sha, s, true, s.limit);
    case SetLimit(limit) => SettingsKeepInv(sha, s, s.readsEnabled, limit);
  }

  lemma {:induction false} ExecKeepsInv(sha: Bytes -> string, s: Gate, steps: seq<Step>)
    requires Inv(sha, s)
    ensures Inv(sha, Exec(sha, s, steps))
  {
    if steps != [] {
      ExecKeepsInv(sha, s, steps[..|steps| - 1]);
      StepKeepsInv(sha, Exec(sha, s, steps[..|steps| - 1]), steps[|steps| - 1]);
    }
  }

  lemma InitialInv(sha: Bytes -> string, limit: int)
    ensures Inv(sha, Initial(limit))
  {
  }

  // ------------------------------------------------------------ frames of steps

  /** The step finds an expired lease and fences its leader. */
  predicate Fences(sha: Bytes -> string, s: Gate, step: Step) {
    && step.Begin? && step.call !in s.calls && ArgumentsOk(step.key, step.digest, step.timeout)
    && !(CachedEntry(s, step.key).Some? && sha(CachedEntry(s, step.key).value) == step.digest)
    && LeaseExpired(s, step.key, step.now)
  }

  lemma MissedFrame(sha: Bytes -> string, s: Gate, key: string, digest: string, now: int)
    ensures var m := Missed(sha, s, key, digest, now);
            && m.calls == s.calls && m.nextGeneration == s.nextGeneration
            && m.limit == s.limit && m.inflight == s.inflight && m.maxInflight == s.maxInflight
            && (forall k :: k in m.cache ==> k in s.cache && m.cache[k] == s.cache[k])
            && (LeaseExpired(s, key, now) ==>
                  var g := s.registered[key];
                  && m.registered == s.registered - {key}
                  && m.flights == s.flights[g := s.flights[g].(failed := true, done := true)])
            && (!LeaseExpired(s, key, now) ==> m.registered == s.registered && m.flights == s.flights)
  {
  }

  /** A begun call either answers at once or joins or opens a flight after `Missed`. */
  lemma BeginFrame(sha: Bytes -> string, s: Gate, step: Step)
    requires step.Begin? && step.call !in s.calls
    ensures var after := Apply(sha, s, step);
            var answer := if ArgumentsOk(step.key, step.digest, step.timeout) && CachedEntry(s, step.key).Some?
                            then Returned(step.key, step.digest, CachedEntry(s, step.key).value, Cache) else Raised;
            || (after == At(s, step.call, answer) && !Fences(sha, s, step) && (answer.Returned? ==> sha(answer.payload) == step.digest))
            || (after == JoinOrLead(Missed(sha, s, step.key, step.digest, step.now), step.call, step.key, step.digest, step.now + step.timeout)
                && (Fences(sha, s, step) <==> LeaseExpired(s, step.key, step.now)))
  {
  }

  /** The same load, further on; `funded` says that a token is outstanding. */
  ghost predicate Continues(funded: bool, before: Pc, after: Pc) {
    && (funded && before.Loaded? ==> after == before || after == Publishing(before.load, before.payload))
    && (Leads(after) <==> Leads(before))
    && (Leads(after) ==> after.load == before.load)
    && (after.Following? ==> after == before)
    && (after.Returned? && !before.Returned? ==> before.Following? && after.key == before.load.key && after.digest == before.load.digest)
    && (before.Raised? || before.Returned? || before.Publishing? ==> after == before)
  }

  /** Steps between the first section and the last one of a call, and the settings. */
  predicate Quiet(step: Step) {
    !step.Begin? && !step.Fail? && !step.Publish?
  }

  /** A quiet step touches neither flights nor registrations. */
  ghost predicate QuietEffect(sha: Bytes -> string, s: Gate, after: Gate, step: Step) {
    && after.flights == s.flights && after.registered == s.registered && after.nextGeneration == s.nextGeneration
    && (forall c :: c in after.calls ==> c in s.calls)
    && (forall c :: c in s.calls ==> c in after.calls && Continues(s.inflight > 0, s.calls[c], after.calls[c]))
    && (forall k :: k in after.cache && (k !in s.cache || after.cache[k] != s.cache[k]) ==>
          (step.Tamper? || (step.Warm? && sha(after.cache[k]) == step.digest)) && step.key == k)
  }

  lemma MoveIsQuiet(sha: Bytes -> string, s: Gate, after: Gate, step: Step, call: nat, pc: Pc)
    requires call in s.calls && after.calls == s.calls[call := pc] && Continues(s.inflight > 0, s.calls[call], pc)
    requires after.flights == s.flights && after.registered == s.registered && after.nextGeneration == s.nextGeneration
    requires after.cache == s.cache
    ensures QuietEffect(sha, s, after, step)
  {
  }

  lemma WakeIsQuiet(sha: Bytes -> string, s: Gate, step: Step, call: nat, now: int)
    requires call in s.calls && s.calls[call].Following?
    ensures QuietEffect(sha, s, WakeFollower(s, call, s.calls[call], now), step)
  {
    var after := WakeFollower(s, call, s.calls[call], now);
    assert Continues(s.inflight > 0, s.calls[call], after.calls[call]);
    hide QuietEffect, Continues;
    MoveIsQuiet(sha, s, after, step, call, after.calls[call]);
  }

  lemma AcquireIsQuiet(sha: Bytes -> string, s: Gate, step: Step, call: nat, timedOut: bool)
    requires call in s.calls && s.calls[call].Admitting?
    ensures QuietEffect(sha, s, AcquireToken(s, call, s.calls[call], timedOut), step)
  {
    var after := AcquireToken(s, call, s.calls[call], timedOut);
    assert Continues(s.inflight > 0, s.calls[call], after.calls[call]);
    hide QuietEffect, Continues;
    MoveIsQuiet(sha, s, after, step, call, after.calls[call]);
  }

  lemma LoaderIsQuiet(sha: Bytes -> string, s: Gate, step: Step, call: nat, pc: Pc)
    requires call in s.calls && s.calls[call].Loading? && (pc.Failing? || pc.Loaded?) && pc.load == s.calls[call].load
    ensures QuietEffect(sha, s, At(s, call, pc), step)
  {
    assert Continues(s.inflight > 0, s.calls[call], pc);
    hide QuietEffect, Continues;
    MoveIsQuiet(sha, s, At(s, call, pc), step, call, pc);
  }

  lemma ReleaseIsQuiet(sha: Bytes -> string, s: Gate, step: Step, call: nat)
    requires call in s.calls && HoldsToken(s.calls[call]) && !s.calls[call].Loading?
    ensures QuietEffect(sha, s, ReleaseToken(s, call, s.calls[call]), step)
  {
    var after := ReleaseToken(s, call, s.calls[call]);
    assert Continues(s.inflight > 0, s.calls[call], after.calls[call]);
    hide QuietEffect, Continues;
    MoveIsQuiet(sha, s, after, step, call, after.calls[call]);
  }

  lemma QuietCall(sha: Bytes -> string, s: Gate, step: Step)
    requires step.Wake? || step.Acquire? || step.LoaderReturns? || step.LoaderRaises? || step.Release?
    ensures QuietEffect(sha, s, Apply(sha, s, step), step)
  {
    if Apply(sha, s, step) != s {
      hide QuietEffect, BeginLoad, RecordFailure, PublishResult, WakeFollower, AcquireToken, ReleaseToken;
      match step
      case Wake(call, now) => WakeIsQuiet(sha, s, step, call, now);
      case Acquire(call, timedOut) => AcquireIsQuiet(sha, s, step, call, timedOut);
      case LoaderReturns(call, payload, now) => LoaderIsQuiet(sha, s, step, call, VerifyLoaded(sha, s, call, s.calls[call], payload, now).calls[call]);
      case LoaderRaises(call) => LoaderIsQuiet(sha, s, step, call, Failing(s.calls[call].load, true));
      case Release(call) => ReleaseIsQuiet(sha, s, step, call);
    }
  }

  lemma SettingIsQuiet(sha: Bytes -> string, s: Gate, step: Step)
    requires step.Warm? || step.Tamper? || step.Quarantine? || step.Reopen? || step.SetLimit?
    ensures QuietEffect(sha, s, Apply(sha, s, step), step)
  {
  }

  lemma QuietFrame(sha: Bytes -> string, s: Gate, step: Step)
    requires Quiet(step)
    ensures QuietEffect(sha, s, Apply(sha, s, step), step)
  {
    if step.Wake? || step.Acquire? || step.LoaderReturns? || step.LoaderRaises? || step.Release? {
      hide QuietEffect, Apply;
      QuietCall(sha, s, step);
    } else {
      hide QuietEffect, Apply;
      SettingIsQuiet(sha, s, step);
    }
  }

  // ------------------------------------------------------- results and tokens

  /** Whatever a call returned hashes to the digest it asked for; only a follower can
      be handed other bytes, and then exactly when the leader it joined asked for
      another digest of the same key. */
  lemma ReturnedBytesAreVerified(sha: Bytes -> string, limit: int, steps: seq<Step>, call: nat)
    requires var s := Exec(sha, Initial(limit), steps); call in s.calls && s.calls[call].Returned?
    ensures var s := Exec(sha, Initial(limit), steps);
            var pc := s.calls[call];
            if pc.source.Follower? then
              && pc.source.generation in s.flights && s.flights[pc.source.generation].key == pc.key
              && (sha(pc.payload) == pc.digest <==> s.flights[pc.source.generation].digest == pc.digest)
            else sha(pc.payload) == pc.digest
  {
    InitialInv(sha, limit);
    ExecKeepsInv(sha, Initial(limit), steps);
    var s := Exec(sha, Initial(limit), steps);
    assert CallOk(sha, s, call, s.calls[call]);
  }

  /** A follower woken by a finished flight finds an error or a payload, never neither. */
  lemma FinishedFlightHasOneOutcome(sha: Bytes -> string, limit: int, steps: seq<Step>, g: nat)
    requires var s := Exec(sha, Initial(limit), steps); g in s.flights && s.flights[g].done
    ensures var f := Exec(sha, Initial(limit), steps).flights[g]; f.payload.Some? <==> !f.failed
  {
    InitialInv(sha, limit);
    ExecKeepsInv(sha, Initial(limit), steps);
    var s := Exec(sha, Initial(limit), steps);
    assert FlightOk(sha, s.flights[g]);
  }

  /** Tokens are accounted for: the counter is the number of calls between admission
      and release, so no release raises. */
  lemma TokensAreAccounted(sha: Bytes -> string, limit: int, steps: seq<Step>)
    ensures var s := Exec(sha, Initial(limit), steps);
            && s.inflight == |Holders(s)| <= s.maxInflight
            && (forall c :: c in Holders(s) ==> s.inflight > 0)
  {
    InitialInv(sha, limit);
    ExecKeepsInv(sha, Initial(limit), steps);
    var s := Exec(sha, Initial(limit), steps);
    forall c | c in Holders(s) ensures s.inflight > 0 { HolderIsCounted(s, c); }
  }

  /** A step admits only below the limit, and only an accepted `set_limit` changes it. */
  lemma StepRespectsLimit(sha: Bytes -> string, s: Gate, step: Step)
    ensures Apply(sha, s, step).inflight <= s.inflight || Apply(sha, s, step).inflight <= s.limit
    ensures !step.SetLimit? ==> Apply(sha, s, step).limit == s.limit
    ensures step.SetLimit? ==>
              && Apply(sha, s, step).inflight == s.inflight
              && Apply(sha, s, step).limit == if step.limit >= 1 then step.limit else s.limit
  {
    if step.Begin? && step.call !in s.calls {
      hide Missed, LeaseExpired;
      BeginFrame(sha, s, step);
      MissedFrame(sha, s, step.key, step.digest, step.now);
    }
  }

  predicate WithinLimit(s: Gate) {
    s.inflight <= s.limit
  }

  /** An accepted `set_limit` below the number of tokens that are out at that moment. */
  predicate Undercuts(s: Gate, step: Step) {
    step.SetLimit? && 1 <= step.limit < s.inflight
  }

  lemma StepKeepsLimitIff(sha: Bytes -> string, s: Gate, step: Step)
    requires WithinLimit(s)
    ensures WithinLimit(Apply(sha, s, step)) <==> !Undercuts(s, step)
  {
    StepRespectsLimit(sha, s, step);
    hide Apply;
  }

  lemma {:induction false} NoUndercutStaysWithin(sha: Bytes -> string, limit: int, steps: seq<Step>)
    requires limit >= 1 && forall n :: 0 <= n < |steps| ==> !Undercuts(Exec(sha, Initial(limit), steps[..n]), steps[n])
    ensures WithinLimit(Exec(sha, Initial(limit), steps))
  {
    if steps != [] {
      hide Apply, Undercuts, WithinLimit;
      var last := |steps| - 1;
      var before := steps[..last];
      forall n | 0 <= n < last ensures !Undercuts(Exec(sha, Initial(limit), before[..n]), before[n]) {
        assert before[..n] == steps[..n];
      }
      NoUndercutStaysWithin(sha, limit, before);
      assert !Undercuts(Exec(sha, Initial(limit), steps[..last]), steps[last]);
      StepKeepsLimitIff(sha, Exec(sha, Initial(limit), before), steps[last]);
    }
  }

  lemma WithinMeansNoUndercut(sha: Bytes -> string, s: Gate, steps: seq<Step>, n: nat)
    requires n < |steps| && WithinLimit(Exec(sha, s, steps[..n])) && WithinLimit(Exec(sha, s, steps[..n + 1]))
    ensures !Undercuts(Exec(sha, s, steps[..n]), steps[n])
  {
    assert steps[..n + 1][..n] == steps[..n];
    StepKeepsLimitIff(sha, Exec(sha, s, steps[..n]), steps[n]);
    hide Apply, Undercuts, WithinLimit;
  }

  /** Admission stays within the current limit throughout an execution, however often the
      limit is adjusted, if and only if it is never set below the tokens then out. */
  lemma LimitIsRespectedIff(sha: Bytes -> string, limit: int, steps: seq<Step>)
    requires limit >= 1
    ensures (forall n :: 0 <= n <= |steps| ==> WithinLimit(Exec(sha, Initial(limit), steps[..n])))
       <==> (forall n :: 0 <= n < |steps| ==> !Undercuts(Exec(sha, Initial(limit), steps[..n]), steps[n]))
  {
    hide WithinLimit, Undercuts, Exec;
    if forall n :: 0 <= n <= |steps| ==> WithinLimit(Exec(sha, Initial(limit), steps[..n])) {
      forall n | 0 <= n < |steps| ensures !Undercuts(Exec(sha, Initial(limit), steps[..n]), steps[n]) {
        WithinMeansNoUndercut(sha, Initial(limit), steps, n);
      }
    }
    if forall n :: 0 <= n < |steps| ==> !Undercuts(Exec(sha, Initial(limit), steps[..n]), steps[n]) {
      forall n | 0 <= n <= |steps| ensures WithinLimit(Exec(sha, Initial(limit), steps[..n])) {
        assert forall m :: 0 <= m < n ==> steps[..n][..m] == steps[..m];
        NoUndercutStaysWithin(sha, limit, steps[..n]);
      }
    }
  }

  /** In particular, while nobody adjusts the limit. */
  lemma {:induction false} LimitIsRespected(sha: Bytes -> string, limit: int, steps: seq<Step>)
    requires limit >= 1 && forall i :: 0 <= i < |steps| ==> !steps[i].SetLimit?
    ensures Exec(sha, Initial(limit), steps).inflight <= limit == Exec(sha, Initial(limit), steps).limit
  {
    if steps != [] {
      var before := steps[..|steps| - 1];
      LimitIsRespected(sha, limit, before);
      StepRespectsLimit(sha, Exec(sha, Initial(limit), before), steps[|steps| - 1]);
    }
  }

  // ------------------------------------------------------------------- fencing

  ghost predicate Unregistered(s: Gate, g: nat) {
    forall k :: k in s.registered ==> s.registered[k] != g
  }

  /** A key keeps its flight, loses it, or gets one that did not exist before. */
  ghost predicate RegistrationsAdvance(s: Gate, after: Gate) {
    && s.nextGeneration <= after.nextGeneration
    && forall k :: k in after.registered ==>
         (k in s.registered && after.registered[k] == s.registered[k])
         || s.nextGeneration < after.registered[k] <= after.nextGeneration
  }

  lemma StepAdvances(sha: Bytes -> string, s: Gate, step: Step)
    ensures RegistrationsAdvance(s, Apply(sha, s, step))
  {
    if Quiet(step) {
      QuietFrame(sha, s, step);
    } else if step.Begin? && step.call !in s.calls {
      hide Missed, Apply, LeaseExpired, Fences;
      BeginFrame(sha, s, step);
      MissedFrame(sha, s, step.key, step.digest, step.now);
    }
  }

  predicate Publishes(s: Gate, step: Step) {
    step.Publish? && step.call in s.calls && s.calls[step.call].Publishing? && OwnsKey(s, s.calls[step.call])
  }

  /** What `load` wrote to the cache, in order: key and generation. */
  function Publications(sha: Bytes -> string, s: Gate, steps: seq<Step>): seq<(string, nat)> {
    if steps == [] then []
    else
      var before, step := steps[..|steps| - 1], steps[|steps| - 1];
      var at := Exec(sha, s, before);
      var log := Publications(sha, s, before);
      if Publishes(at, step) then log + [(at.calls[step.call].load.key, at.calls[step.call].load.generation)] else log
  }

  /** Only warming, an untrusted tier, or the leader whose flight is registered under
      the key puts bytes into the cache. */
  lemma OnlyTheRegisteredLeaderWrites(sha: Bytes -> string, s: Gate, step: Step, key: string)
    requires key in Apply(sha, s, step).cache
    requires key !in s.cache || Apply(sha, s, step).cache[key] != s.cache[key]
    ensures (step.Warm? && step.key == key && sha(step.payload) == step.digest) || (step.Tamper? && step.key == key)
            || (Publishes(s, step) && s.calls[step.call].load.key == key && s.registered[key] == s.calls[step.call].load.generation
                && Apply(sha, s, step).cache[key] == s.calls[step.call].payload)
  {
    if step.Begin? && step.call !in s.calls {
      hide Missed, LeaseExpired, Fences;
      BeginFrame(sha, s, step);
      MissedFrame(sha, s, step.key, step.digest, step.now);
    }
  }

  /** A flight that is no longer registered never is again, and never publishes. */
  lemma {:induction false} UnregisteredNeverPublishes(sha: Bytes -> string, s: Gate, steps: seq<Step>, g: nat)
    requires g <= s.nextGeneration && Unregistered(s, g)
    ensures g <= Exec(sha, s, steps).nextGeneration && Unregistered(Exec(sha, s, steps), g)
    ensures forall i :: 0 <= i < |Publications(sha, s, steps)| ==> Publications(sha, s, steps)[i].1 != g
  {
    if steps != [] {
      var before, step := steps[..|steps| - 1], steps[|steps| - 1];
      UnregisteredNeverPublishes(sha, s, before, g);
      StepAdvances(sha, Exec(sha, s, before), step);
    }
  }

  lemma FencingUnregisters(sha: Bytes -> string, s: Gate, step: Step)
    requires Inv(sha, s) && Fences(sha, s, step)
    ensures var after := Apply(sha, s, step);
            var g := s.registered[step.key];
            && g <= s.nextGeneration && Unregistered(after, g) && g <= after.nextGeneration
            && after.calls == s.calls[step.call := Admitting(Load(step.key, step.digest, s.nextGeneration + 1, step.now + step.timeout))]
  {
    var g := s.registered[step.key];
    assert g in s.flights;
    forall k | k in s.registered && k != step.key ensures s.registered[k] != g {
      assert s.flights[s.registered[k]].key == k;
    }
    hide Missed, Apply;
    BeginFrame(sha, s, step);
    MissedFrame(sha, s, step.key, step.digest, step.now);
  }

  /** A fenced flight never publishes afterwards, whatever its leader and everybody
      else do: stale leaders that pop newer flights included. */
  lemma FencedFlightNeverPublishes(sha: Bytes -> string, limit: int, steps: seq<Step>, fence: Step, more: seq<Step>)
    requires Fences(sha, Exec(sha, Initial(limit), steps), fence)
    ensures var s := Exec(sha, Initial(limit), steps);
            var published := Publications(sha, Apply(sha, s, fence), more);
            forall i :: 0 <= i < |published| ==> published[i].1 != s.registered[fence.key]
  {
    var s := Exec(sha, Initial(limit), steps);
    InitialInv(sha, limit);
    ExecKeepsInv(sha, Initial(limit), steps);
    FencingUnregisters(sha, s, fence);
    UnregisteredNeverPublishes(sha, Apply(sha, s, fence), more, s.registered[fence.key]);
  }

  ghost predicate PublishedInOrder(s: Gate, log: seq<(string, nat)>) {
    && (forall i :: 0 <= i < |log| ==>
          && log[i].1 <= s.nextGeneration
          && (log[i].0 in s.registered ==> log[i].1 < s.registered[log[i].0]))
    && (forall i, j :: 0 <= i < j < |log| && log[i].0 == log[j].0 ==> log[i].1 < log[j].1)
  }

  lemma StepKeepsOrder(sha: Bytes -> string, s: Gate, step: Step, log: seq<(string, nat)>)
    requires PublishedInOrder(s, log) && RegisteredOk(s) && FlightsOk(sha, s)
    ensures var after := Apply(sha, s, step);
            PublishedInOrder(after, if Publishes(s, step) then log + [(s.calls[step.call].load.key, s.calls[step.call].load.generation)] else log)
  {
    StepAdvances(sha, s, step);
    if Publishes(s, step) {
      var pc := s.calls[step.call];
      assert pc.load.key !in Apply(sha, s, step).registered && pc.load.generation in s.flights;
    }
  }

  /** The generations that publish a key strictly increase. */
  lemma {:induction false} PublishedGenerationsIncrease(sha: Bytes -> string, limit: int, steps: seq<Step>)
    ensures PublishedInOrder(Exec(sha, Initial(limit), steps), Publications(sha, Initial(limit), steps))
  {
    if steps != [] {
      var before := steps[..|steps| - 1];
      PublishedGenerationsIncrease(sha, limit, before);
      InitialInv(sha, limit);
      ExecKeepsInv(sha, Initial(limit), before);
      StepKeepsOrder(sha, Exec(sha, Initial(limit), before), steps[|steps| - 1], Publications(sha, Initial(limit), before));
    }
  }

  // ------------------------------------------------- when single-flight holds

  predicate Leading(s: Gate, key: string, call: nat) {
    call in s.calls && Leads(s.calls[call]) && s.calls[call].load.key == key
  }

  ghost predicate AtMostOneLeader(s: Gate) {
    forall key, c, d :: Leading(s, key, c) && Leading(s, key, d) ==> c == d
  }

  /** Every leader's flight is the registered one. */
  ghost predicate OnTheBooks(s: Gate) {
    forall c :: c in s.calls && Leads(s.calls[c]) ==>
      s.calls[c].load.key in s.registered && s.registered[s.calls[c].load.key] == s.calls[c].load.generation
  }

  lemma OnTheBooksMeansOne(sha: Bytes -> string, s: Gate)
    requires Inv(sha, s) && OnTheBooks(s)
    ensures AtMostOneLeader(s)
  {
  }

  lemma BeginKeepsBooks(sha: Bytes -> string, s: Gate, step: Step)
    requires OnTheBooks(s) && step.Begin? && step.call !in s.calls && !Fences(sha, s, step)
    ensures OnTheBooks(Apply(sha, s, step))
  {
    hide Missed, Apply, LeaseExpired, Fences;
    BeginFrame(sha, s, step);
    MissedFrame(sha, s, step.key, step.digest, step.now);
  }

  /** The last section of a leader on the books releases its own key and no other. */
  lemma FinishKeepsBooks(sha: Bytes -> string, s: Gate, step: Step)
    requires Inv(sha, s) && OnTheBooks(s) && (step.Fail? || step.Publish?)
    ensures OnTheBooks(Apply(sha, s, step))
  {
    var after := Apply(sha, s, step);
    if after != s {
      var pc := s.calls[step.call];
      forall c | c in after.calls && Leads(after.calls[c])
        ensures c != step.call && after.calls[c] == s.calls[c] && s.calls[c].load.key != pc.load.key
      {
        assert CallOk(sha, s, c, s.calls[c]) && CallOk(sha, s, step.call, pc);
      }
    }
  }

  lemma StepKeepsBooks(sha: Bytes -> string, s: Gate, step: Step)
    requires Inv(sha, s) && OnTheBooks(s) && !Fences(sha, s, step)
    ensures OnTheBooks(Apply(sha, s, step))
  {
    if Quiet(step) {
      QuietFrame(sha, s, step);
      hide Apply;
    } else if step.Begin? {
      if step.call !in s.calls { BeginKeepsBooks(sha, s, step); }
    } else {
      FinishKeepsBooks(sha, s, step);
    }
  }

  lemma FencingMakesTwoLeaders(sha: Bytes -> string, s: Gate, step: Step)
    requires Inv(sha, s) && Fences(sha, s, step)
    ensures !AtMostOneLeader(Apply(sha, s, step))
  {
    FencingUnregisters(sha, s, step);
    var after := Apply(sha, s, step);
    var old_ := s.flights[s.registered[step.key]].leader;
    assert CallOk(sha, s, old_, s.calls[old_]);
    assert Leading(after, step.key, old_) && Leading(after, step.key, step.call);
  }

  lemma {:induction false} NoFenceKeepsBooks(sha: Bytes -> string, limit: int, steps: seq<Step>)
    requires forall n :: 0 <= n < |steps| ==> !Fences(sha, Exec(sha, Initial(limit), steps[..n]), steps[n])
    ensures OnTheBooks(Exec(sha, Initial(limit), steps))
  {
    hide Fences, Apply, Inv;
    if steps != [] {
      var last := |steps| - 1;
      var before := steps[..last];
      forall n | 0 <= n < |before| ensures !Fences(sha, Exec(sha, Initial(limit), before[..n]), before[n]) {
        assert before[..n] == steps[..n];
      }
      NoFenceKeepsBooks(sha, limit, before);
      InitialInv(sha, limit);
      ExecKeepsInv(sha, Initial(limit), before);
      assert !Fences(sha, Exec(sha, Initial(limit), steps[..last]), steps[last]);
      StepKeepsBooks(sha, Exec(sha, Initial(limit), before), steps[last]);
    }
  }

  /** "One load in flight per key" holds throughout an execution if and only if no
      caller of it ever finds an expired lease: the takeover of a lease admits a
      second leader beside the first. */
  lemma SingleFlightIffNoTakeover(sha: Bytes -> string, limit: int, steps: seq<Step>)
    ensures (forall n :: 0 <= n <= |steps| ==> AtMostOneLeader(Exec(sha, Initial(limit), steps[..n])))
       <==> (forall n :: 0 <= n < |steps| ==> !Fences(sha, Exec(sha, Initial(limit), steps[..n]), steps[n]))
  {
    hide AtMostOneLeader, Fences, Apply;
    if forall n :: 0 <= n <= |steps| ==> AtMostOneLeader(Exec(sha, Initial(limit), steps[..n])) {
      forall n | 0 <= n < |steps| ensures !Fences(sha, Exec(sha, Initial(limit), steps[..n]), steps[n]) {
        assert AtMostOneLeader(Exec(sha, Initial(limit), steps[..n + 1]));
        if Fences(sha, Exec(sha, Initial(limit), steps[..n]), steps[n]) { TakeoverAdmitsTwo(sha, limit, steps, n); }
      }
    }
    if forall n :: 0 <= n < |steps| ==> !Fences(sha, Exec(sha, Initial(limit), steps[..n]), steps[n]) {
      forall n | 0 <= n <= |steps| ensures AtMostOneLeader(Exec(sha, Initial(limit), steps[..n])) {
        NoTakeoverMeansOne(sha, limit, steps, n);
      }
    }
  }

  lemma TakeoverAdmitsTwo(sha: Bytes -> string, limit: int, steps: seq<Step>, n: nat)
    requires n < |steps| && Fences(sha, Exec(sha, Initial(limit), steps[..n]), steps[n])
    ensures !AtMostOneLeader(Exec(sha, Initial(limit), steps[..n + 1]))
  {
    hide AtMostOneLeader, Fences, Apply, Inv;
    InitialInv(sha, limit);
    ExecKeepsInv(sha, Initial(limit), steps[..n]);
    FencingMakesTwoLeaders(sha, Exec(sha, Initial(limit), steps[..n]), steps[n]);
    assert steps[..n + 1][..n] == steps[..n];
  }

  lemma NoTakeoverMeansOne(sha: Bytes -> string, limit: int, steps: seq<Step>, n: nat)
    requires n <= |steps|
    requires forall m :: 0 <= m < |steps| ==> !Fences(sha, Exec(sha, Initial(limit), steps[..m]), steps[m])
    ensures AtMostOneLeader(Exec(sha, Initial(limit), steps[..n]))
  {
    hide AtMostOneLeader, Fences, Apply, Inv, OnTheBooks;
    forall m | 0 <= m < n ensures !Fences(sha, Exec(sha, Initial(limit), steps[..n][..m]), steps[..n][m]) {
      assert steps[..n][..m] == steps[..m];
    }
    InitialInv(sha, limit);
    NoFenceKeepsBooks(sha, limit, steps[..n]);
    ExecKeepsInv(sha, Initial(limit), steps[..n]);
    OnTheBooksMeansOne(sha, Exec(sha, Initial(limit), steps[..n]));
  }

  // ------------------------------------------------------ the verified cache

  /** All callers ask for one digest per key. */
  predicate AsksDigest(step: Step, digestOf: string -> string) {
    step.Begin? ==> step.digest == digestOf(step.key)
  }

  ghost predicate DigestsAgree(s: Gate, digestOf: string -> string) {
    && (forall c :: c in s.calls && (Leads(s.calls[c]) || s.calls[c].Following?) ==>
          s.calls[c].load.digest == digestOf(s.calls[c].load.key))
    && (forall c :: c in s.calls && s.calls[c].Returned? ==> s.calls[c].digest == digestOf(s.calls[c].key))
    && (forall g :: g in s.flights ==> s.flights[g].digest == digestOf(s.flights[g].key))
  }

  lemma BeginKeepsDigests(sha: Bytes -> string, s: Gate, step: Step, digestOf: string -> string)
    requires DigestsAgree(s, digestOf) && step.Begin? && step.call !in s.calls && AsksDigest(step, digestOf)
    ensures DigestsAgree(Apply(sha, s, step), digestOf)
  {
    hide Missed, Apply, Fences;
    BeginFrame(sha, s, step);
    MissedFrame(sha, s, step.key, step.digest, step.now);
  }

  lemma QuietKeepsDigests(sha: Bytes -> string, s: Gate, after: Gate, step: Step, digestOf: string -> string)
    requires DigestsAgree(s, digestOf) && QuietEffect(sha, s, after, step)
    ensures DigestsAgree(after, digestOf)
  {
  }

  lemma FinishKeepsDigests(sha: Bytes -> string, s: Gate, step: Step, digestOf: string -> string)
    requires DigestsAgree(s, digestOf) && (step.Fail? || step.Publish?)
    ensures DigestsAgree(Apply(sha, s, step), digestOf)
  {
  }

  lemma StepKeepsDigests(sha: Bytes -> string, s: Gate, step: Step, digestOf: string -> string)
    requires DigestsAgree(s, digestOf) && AsksDigest(step, digestOf)
    ensures DigestsAgree(Apply(sha, s, step), digestOf)
  {
    hide DigestsAgree, Apply;
    if Quiet(step) {
      QuietFrame(sha, s, step);
      QuietKeepsDigests(sha, s, Apply(sha, s, step), step, digestOf);
    } else if step.Begin? {
      if step.call !in s.calls { BeginKeepsDigests(sha, s, step, digestOf); } else { BegunAlready(sha, s, step); }
    } else {
      FinishKeepsDigests(sha, s, step, digestOf);
    }
  }

  lemma BegunAlready(sha: Bytes -> string, s: Gate, step: Step)
    requires step.Begin? && step.call in s.calls
    ensures Apply(sha, s, step) == s
  {
  }

  lemma {:induction false} ExecKeepsDigests(sha: Bytes -> string, limit: int, steps: seq<Step>, digestOf: string -> string)
    requires forall i :: 0 <= i < |steps| ==> AsksDigest(steps[i], digestOf)
    ensures DigestsAgree(Exec(sha, Initial(limit), steps), digestOf)
  {
    if steps != [] {
      hide DigestsAgree, Apply;
      var before := steps[..|steps| - 1];
      ExecKeepsDigests(sha, limit, before, digestOf);
      StepKeepsDigests(sha, Exec(sha, Initial(limit), before), steps[|steps| - 1], digestOf);
    }
  }

  /** With one digest per key every call that returns, followers included, returns
      bytes of its own digest, however the cache tier rewrites its entries. */
  lemma ReturnsHaveTheKeysDigest(sha: Bytes -> string, limit: int, steps: seq<Step>, digestOf: string -> string, call: nat)
    requires forall i :: 0 <= i < |steps| ==> AsksDigest(steps[i], digestOf)
    requires var s := Exec(sha, Initial(limit), steps); call in s.calls && s.calls[call].Returned?
    ensures var pc := Exec(sha, Initial(limit), steps).calls[call];
            sha(pc.payload) == pc.digest == digestOf(pc.key)
  {
    ExecKeepsDigests(sha, limit, steps, digestOf);
    ReturnedBytesAreVerified(sha, limit, steps, call);
  }

  ghost predicate CacheVerified(sha: Bytes -> string, s: Gate, digestOf: string -> string) {
    forall k :: k in s.cache ==> sha(s.cache[k]) == digestOf(k)
  }

  /** The step rewrites a cache entry with bytes that are not the key's. */
  predicate Corrupts(sha: Bytes -> string, step: Step, digestOf: string -> string) {
    step.Tamper? && sha(step.payload) != digestOf(step.key)
  }

  lemma StepKeepsCacheVerifiedIff(sha: Bytes -> string, s: Gate, step: Step, digestOf: string -> string)
    requires Inv(sha, s) && CacheVerified(sha, s, digestOf) && DigestsAgree(s, digestOf)
    requires step.Warm? ==> step.digest == digestOf(step.key)
    ensures CacheVerified(sha, Apply(sha, s, step), digestOf) <==> !Corrupts(sha, step, digestOf)
  {
    var after := Apply(sha, s, step);
    forall k | k in after.cache && (k !in s.cache || after.cache[k] != s.cache[k])
      ensures step.Tamper? || sha(after.cache[k]) == digestOf(k)
    {
      OnlyTheRegisteredLeaderWrites(sha, s, step, k);
      if Publishes(s, step) { assert CallOk(sha, s, step.call, s.calls[step.call]); }
    }
    hide Apply, Inv, DigestsAgree;
    if step.Tamper? { TamperFrame(sha, s, step); }
  }

  lemma TamperFrame(sha: Bytes -> string, s: Gate, step: Step)
    requires step.Tamper?
    ensures Apply(sha, s, step).cache == s.cache[step.key := step.payload]
  {
  }

  /** With one digest per key, callers and warmers alike, the cache holds verified bytes
      throughout an execution if and only if nobody outside rewrites an entry with
      other bytes. */
  lemma CacheIsVerifiedIff(sha: Bytes -> string, limit: int, steps: seq<Step>, digestOf: string -> string)
    requires forall i :: 0 <= i < |steps| ==> AsksDigest(steps[i], digestOf) && (steps[i].Warm? ==> steps[i].digest == digestOf(steps[i].key))
    ensures (forall n :: 0 <= n <= |steps| ==> CacheVerified(sha, Exec(sha, Initial(limit), steps[..n]), digestOf))
       <==> (forall n :: 0 <= n < |steps| ==> !Corrupts(sha, steps[n], digestOf))
    decreases |steps|
  {
    hide CacheVerified, Corrupts, Apply, Inv, DigestsAgree;
    assert steps[..|steps|] == steps;
    if steps == [] {
      InitialCacheVerified(sha, limit, digestOf);
    } else {
      var last := |steps| - 1;
      var before := steps[..last];
      CacheIsVerifiedIff(sha, limit, before, digestOf);
      assert forall n :: 0 <= n <= last ==> before[..n] == steps[..n];
      InitialInv(sha, limit);
      ExecKeepsInv(sha, Initial(limit), before);
      ExecKeepsDigests(sha, limit, before, digestOf);
      if CacheVerified(sha, Exec(sha, Initial(limit), before), digestOf) {
        StepKeepsCacheVerifiedIff(sha, Exec(sha, Initial(limit), before), steps[last], digestOf);
      }
    }
  }

  lemma InitialCacheVerified(sha: Bytes -> string, limit: int, digestOf: string -> string)
    ensures CacheVerified(sha, Exec(sha, Initial(limit), []), digestOf)
  {
  }

  // ------------------------------------------------------------ orphaned flights

  /** An open flight that a stale leader popped, and whose own leader has its bytes. */
  ghost predicate Orphaned(s: Gate, g: nat) {
    && g in s.flights && g <= s.nextGeneration && !s.flights[g].done && Unregistered(s, g)
    && s.flights[g].leader in s.calls
    && var pc := s.calls[s.flights[g].leader];
    pc.Raised? || ((pc.Loaded? || pc.Publishing?) && pc.load.generation == g)
  }

  /** A leader that fails late pops whatever newer flight is registered: that flight stays
      open, is unregistered for good, and is orphaned if its own leader has its bytes. */
  lemma StaleFailurePopsNewerFlight(sha: Bytes -> string, s: Gate, call: nat, g: nat)
    requires Inv(sha, s) && call in s.calls && s.calls[call].Failing? && !s.calls[call].holding
    requires s.calls[call].load.key in s.registered && s.registered[s.calls[call].load.key] == g != s.calls[call].load.generation
    ensures var after := Apply(sha, s, Fail(call));
            && after.calls == s.calls[call := Raised] && after.flights[g] == s.flights[g]
            && !after.flights[g].done && Unregistered(after, g) && g <= after.nextGeneration
            && var leader := s.calls[s.flights[g].leader];
               (leader.Loaded? || leader.Publishing? <==> Orphaned(after, g))
  {
  }

  lemma QuietKeepsOrphan(sha: Bytes -> string, s: Gate, step: Step, g: nat)
    requires Inv(sha, s) && Orphaned(s, g) && Quiet(step)
    ensures Orphaned(Apply(sha, s, step), g)
  {
    QuietFrame(sha, s, step);
    var leader := s.flights[g].leader;
    if s.calls[leader].Loaded? { HolderIsCounted(s, leader); }
    hide Inv, Apply;
  }

  lemma BeginKeepsOrphan(sha: Bytes -> string, s: Gate, step: Step, g: nat)
    requires Orphaned(s, g) && step.Begin? && step.call !in s.calls
    ensures Orphaned(Apply(sha, s, step), g)
  {
    hide Missed, Apply, Fences;
    BeginFrame(sha, s, step);
    MissedFrame(sha, s, step.key, step.digest, step.now);
  }

  lemma FinishKeepsOrphan(sha: Bytes -> string, s: Gate, step: Step, g: nat)
    requires Inv(sha, s) && Orphaned(s, g) && (step.Fail? || step.Publish?)
    ensures Orphaned(Apply(sha, s, step), g)
  {
    if step.call in s.calls { assert CallOk(sha, s, step.call, s.calls[step.call]); }
    hide Inv, CallsOk, FlightsOk, RegisteredOk, TokensOk;
  }

  lemma StepKeepsOrphan(sha: Bytes -> string, s: Gate, step: Step, g: nat)
    requires Inv(sha, s) && Orphaned(s, g)
    ensures Orphaned(Apply(sha, s, step), g)
  {
    if Quiet(step) {
      QuietKeepsOrphan(sha, s, step, g);
    } else if step.Begin? {
      if step.call !in s.calls { BeginKeepsOrphan(sha, s, step, g); }
    } else {
      FinishKeepsOrphan(sha, s, step, g);
    }
  }

  /** "Followers share the leader's result" fails for an orphaned flight: it is never
      completed, in any continuation, so every call that follows it can only time out. */
  lemma {:induction false} OrphanNeverCompletes(sha: Bytes -> string, s: Gate, steps: seq<Step>, g: nat)
    requires Inv(sha, s) && Orphaned(s, g)
    ensures Orphaned(Exec(sha, s, steps), g)
    ensures !Exec(sha, s, steps).flights[g].done
  {
    if steps != [] {
      var before := steps[..|steps| - 1];
      OrphanNeverCompletes(sha, s, before, g);
      ExecKeepsInv(sha, s, before);
      StepKeepsOrphan(sha, Exec(sha, s, before), steps[|steps| - 1], g);
    }
  }

  lemma ExecSnoc(sha: Bytes -> string, s: Gate, steps: seq<Step>, step: Step)
    ensures Exec(sha, s, steps + [step]) == Apply(sha, Exec(sha, s, steps), step)
  {
    assert (steps + [step])[..|steps|] == steps;
  }

  /** The gate after each of three calls: a leader; a second one that fences it; a
      follower of the second. */
  function Takeover(key: string, d: string, n: nat): Gate {
    var first := Flight(key, 0, d, 1, n > 1, None, n > 1);
    var second := Flight(key, 1, d, 14, false, None, false);
    var one, two := Admitting(Load(key, d, 1, 1)), Admitting(Load(key, d, 2, 14));
    if n == 0 then Initial(2)
    else if n == 1 then Gate(map[], map[1 := first], map[key := 1], true, 1, 2, 0, 0, map[0 := one])
    else
      Gate(map[], map[1 := first, 2 := second], map[key := 2], true, 2, 2, 0, 0,
           if n == 2 then map[0 := one, 1 := two] else map[0 := one, 1 := two, 2 := Following(Load(key, d, 2, 14))])
  }

  function TakeoverStep(key: string, d: string, n: nat): Step {
    if n == 0 then Begin(0, key, d, 1, 0) else Begin(n, key, d, 5, 9)
  }

  lemma FirstLeads(sha: Bytes -> string, key: string, d: string)
    requires |d| == 64 && key != ""
    ensures Apply(sha, Takeover(key, d, 0), TakeoverStep(key, d, 0)) == Takeover(key, d, 1)
  {
    var before, step := Takeover(key, d, 0), TakeoverStep(key, d, 0);
    assert DropCorrupt(sha, before, key, d) == before;
    assert FenceExpired(before, key, step.now) == before;
  }

  lemma SecondFences(sha: Bytes -> string, key: string, d: string)
    requires |d| == 64 && key != ""
    ensures Apply(sha, Takeover(key, d, 1), TakeoverStep(key, d, 1)) == Takeover(key, d, 2)
  {
    var before, step := Takeover(key, d, 1), TakeoverStep(key, d, 1);
    assert DropCorrupt(sha, before, key, d) == before;
    assert LeaseExpired(before, key, step.now);
  }

  lemma ThirdFollows(sha: Bytes -> string, key: string, d: string)
    requires |d| == 64 && key != ""
    ensures Apply(sha, Takeover(key, d, 2), TakeoverStep(key, d, 2)) == Takeover(key, d, 3)
  {
    var before, step := Takeover(key, d, 2), TakeoverStep(key, d, 2);
    assert DropCorrupt(sha, before, key, d) == before;
    assert FenceExpired(before, key, step.now) == before;
  }

  /** Two leaders of one key, the first of them fenced, and a follower of the second. */
  lemma TakeoverRun(sha: Bytes -> string, payload: Bytes, key: string) returns (steps: seq<Step>)
    requires |sha(payload)| == 64 && key != ""
    ensures Exec(sha, Initial(2), steps) == Takeover(key, sha(payload), 3)
  {
    var d := sha(payload);
    var a, b, c := TakeoverStep(key, d, 0), TakeoverStep(key, d, 1), TakeoverStep(key, d, 2);
    FirstLeads(sha, key, d);
    SecondFences(sha, key, d);
    ThirdFollows(sha, key, d);
    assert Takeover(key, d, 0) == Initial(2) == Exec(sha, Initial(2), []);
    hide Apply, Takeover, TakeoverStep, Exec;
    ExecSnoc(sha, Initial(2), [], a);
    ExecSnoc(sha, Initial(2), [] + [a], b);
    ExecSnoc(sha, Initial(2), [] + [a] + [b], c);
    steps := [] + [a] + [b] + [c];
  }

  lemma RaisingSteps(sha: Bytes -> string, t: Gate, call: nat)
    requires call in t.calls && t.calls[call].Admitting? && 0 <= t.inflight < t.limit
    ensures var u := Apply(sha, Apply(sha, Apply(sha, t, Acquire(call, false)), LoaderRaises(call)), Release(call));
            && u.calls == t.calls[call := Failing(t.calls[call].load, false)] && u.inflight == t.inflight && u.limit == t.limit
            && u.registered == t.registered && u.flights == t.flights && u.nextGeneration == t.nextGeneration
  {
  }

  /** A call takes a token, its loader raises, and the token goes back. */
  lemma RaisingLoad(sha: Bytes -> string, s: Gate, steps: seq<Step>, call: nat) returns (after: seq<Step>)
    requires var t := Exec(sha, s, steps);
             call in t.calls && t.calls[call].Admitting? && 0 <= t.inflight < t.limit
    ensures var t, u := Exec(sha, s, steps), Exec(sha, s, after);
            && u.calls == t.calls[call := Failing(t.calls[call].load, false)] && u.inflight == t.inflight && u.limit == t.limit
            && u.registered == t.registered && u.flights == t.flights && u.nextGeneration == t.nextGeneration
  {
    hide Apply, Exec;
    RaisingSteps(sha, Exec(sha, s, steps), call);
    var a := steps + [Acquire(call, false)];
    var b := a + [LoaderRaises(call)];
    after := b + [Release(call)];
    ExecSnoc(sha, s, steps, Acquire(call, false));
    ExecSnoc(sha, s, a, LoaderRaises(call));
    ExecSnoc(sha, s, b, Release(call));
  }

  /** A call takes a token and its loader returns the right bytes in time. */
  lemma GoodLoad(sha: Bytes -> string, s: Gate, steps: seq<Step>, call: nat, payload: Bytes, now: int) returns (after: seq<Step>)
    requires var t := Exec(sha, s, steps);
             call in t.calls && t.calls[call].Admitting? && 0 <= t.inflight < t.limit
             && sha(payload) == t.calls[call].load.digest && now <= t.calls[call].load.deadline
    ensures var t, u := Exec(sha, s, steps), Exec(sha, s, after);
            && u.calls == t.calls[call := Loaded(t.calls[call].load, payload)]
            && u.registered == t.registered && u.flights == t.flights && u.nextGeneration == t.nextGeneration
  {
    var a := steps + [Acquire(call, false)];
    after := a + [LoaderReturns(call, payload, now)];
    ExecSnoc(sha, s, steps, Acquire(call, false));
    ExecSnoc(sha, s, a, LoaderReturns(call, payload, now));
  }

  /** It does happen: the fenced leader fails while the second one holds verified
      bytes, and the follower of the second is stranded for good. */
  lemma StrandedFollower(sha: Bytes -> string, payload: Bytes, key: string) returns (steps: seq<Step>)
    requires |sha(payload)| == 64 && key != ""
    ensures var s := Exec(sha, Initial(2), steps);
            && Orphaned(s, 2) && s.flights[2].leader == 1 && s.calls[1].Loaded?
            && 2 in s.calls && s.calls[2].Following? && s.calls[2].load.generation == 2
  {
    hide Apply, Orphaned;
    var a := TakeoverRun(sha, payload, key);
    var b := RaisingLoad(sha, Initial(2), a, 0);
    var c := GoodLoad(sha, Initial(2), b, 1, payload, 10);
    steps := c + [Fail(0)];
    ExecSnoc(sha, Initial(2), c, Fail(0));
    InitialInv(sha, 2);
    ExecKeepsInv(sha, Initial(2), c);
    StaleFailurePopsNewerFlight(sha, Exec(sha, Initial(2), c), 0, 2);
  }

  lemma TwoTokens(sha: Bytes -> string, t: Gate)
    requires 0 in t.calls && 1 in t.calls && t.calls[0].Admitting? && t.calls[1].Admitting?
    requires t.inflight == 0 && t.limit == 2
    ensures var u := Apply(sha, Apply(sha, t, Acquire(0, false)), Acquire(1, false));
            Undercuts(u, SetLimit(1)) && !WithinLimit(Apply(sha, u, SetLimit(1)))
  {
  }

  /** It does happen: two calls are admitted under a limit of 2, which is then lowered
      to 1 while both hold their tokens. */
  lemma LoweredLimitIsExceeded(sha: Bytes -> string, payload: Bytes, key: string) returns (steps: seq<Step>)
    requires |sha(payload)| == 64 && key != ""
    ensures !WithinLimit(Exec(sha, Initial(2), steps))
  {
    var a := TakeoverRun(sha, payload, key);
    TwoTokens(sha, Exec(sha, Initial(2), a));
    hide Apply, Exec, WithinLimit;
    ExecSnoc(sha, Initial(2), a, Acquire(0, false));
    ExecSnoc(sha, Initial(2), a + [Acquire(0, false)], Acquire(1, false));
    ExecSnoc(sha, Initial(2), a + [Acquire(0, false)] + [Acquire(1, false)], SetLimit(1));
    steps := a + [Acquire(0, false)] + [Acquire(1, false)] + [SetLimit(1)];
  }
}

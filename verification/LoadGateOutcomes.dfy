/** What each caller of the load gate is told in the end: the request a call serves, how it
    starts, what its followers get, and what the cache then holds. */
module LoadGateOutcomes {
  import opened LoadGate
  import opened LoadGateHandover
  import opened LoadGateRuns
  import opened Prelude

  // ---------------------------------------------------------------- followers

  /** A finished flight keeps its outcome. */
  lemma FinishedStays(sha: Bytes -> string, s: Gate, step: Step, g: nat)
    requires Inv(sha, s) && g in s.flights && s.flights[g].done
    ensures g in Apply(sha, s, step).flights && Apply(sha, s, step).flights[g] == s.flights[g]
  {
    if Quiet(step) {
      QuietFrame(sha, s, step);
      hide Apply, Inv;
    } else if step.Begin? {
      if step.call in s.calls { BegunAlready(sha, s, step); } else { BeginKeepsFinished(sha, s, step, g); }
    } else {
      if step.call in s.calls { assert CallOk(sha, s, step.call, s.calls[step.call]); }
      assert FlightOk(sha, s.flights[g]);
      hide CallsOk, FlightsOk, TokensOk;
    }
  }

  lemma BeginKeepsFinished(sha: Bytes -> string, s: Gate, step: Step, g: nat)
    requires FlightsOk(sha, s) && g in s.flights && s.flights[g].done && step.Begin? && step.call !in s.calls
    ensures g in Apply(sha, s, step).flights && Apply(sha, s, step).flights[g] == s.flights[g]
  {
    BeginFrame(sha, s, step);
    MissedFrame(sha, s, step.key, step.digest, step.now);
    hide Missed, Apply, Fences;
  }

  predicate Wakes(step: Step, call: nat) {
    step.Wake? && step.call == call
  }

  lemma BeginKeepsOthers(sha: Bytes -> string, s: Gate, step: Step)
    requires step.Begin? && step.call !in s.calls
    ensures forall c :: c in s.calls ==> c in Apply(sha, s, step).calls && Apply(sha, s, step).calls[c] == s.calls[c]
  {
    BeginFrame(sha, s, step);
    MissedFrame(sha, s, step.key, step.digest, step.now);
    hide Missed, Apply, Fences;
  }

  /** Only its own wake moves a follower. */
  lemma OthersKeepFollower(sha: Bytes -> string, s: Gate, step: Step, call: nat)
    requires call in s.calls && s.calls[call].Following? && !Wakes(step, call)
    ensures call in Apply(sha, s, step).calls && Apply(sha, s, step).calls[call] == s.calls[call]
  {
    if step.Begin? {
      if step.call in s.calls { BegunAlready(sha, s, step); } else { BeginKeepsOthers(sha, s, step); }
      hide Apply;
    } else if step.Wake? {
      hide BeginLoad, AcquireToken, VerifyLoaded, ReleaseToken, RecordFailure, PublishResult;
    } else if step.Release? {
      hide BeginLoad, WakeFollower, AcquireToken, VerifyLoaded, RecordFailure, PublishResult;
    } else if step.Fail? {
      hide BeginLoad, WakeFollower, AcquireToken, VerifyLoaded, ReleaseToken, PublishResult;
    } else if step.Publish? {
      hide BeginLoad, WakeFollower, AcquireToken, VerifyLoaded, ReleaseToken, RecordFailure, OwnsKey;
    } else {
      hide BeginLoad, WakeFollower, ReleaseToken, RecordFailure, PublishResult;
    }
  }

  /** The wake of a follower whose flight has finished. */
  lemma WakeFinished(sha: Bytes -> string, s: Gate, call: nat, now: int)
    requires call in s.calls && s.calls[call].Following? && s.calls[call].load.generation in s.flights
    requires var f := s.flights[s.calls[call].load.generation]; f.done && FlightOk(sha, f)
    ensures var load := s.calls[call].load;
            Apply(sha, s, Wake(call, now)).calls
            == s.calls[call := if s.flights[load.generation].payload.Some?
                               then Returned(load.key, load.digest, s.flights[load.generation].payload.value, Follower(load.generation))
                               else Raised]
  {
  }

  lemma SettledCallStays(sha: Bytes -> string, s: Gate, step: Step, call: nat)
    requires call in s.calls && (s.calls[call].Returned? || s.calls[call].Raised?)
    ensures call in Apply(sha, s, step).calls && Apply(sha, s, step).calls[call] == s.calls[call]
  {
    if Quiet(step) {
      QuietFrame(sha, s, step);
      hide Apply;
    } else if step.Begin? {
      if step.call in s.calls { BegunAlready(sha, s, step); } else { BeginKeepsOthers(sha, s, step); }
      hide Apply;
    }
  }

  predicate WokenIn(steps: seq<Step>, call: nat) {
    exists i :: 0 <= i < |steps| && Wakes(steps[i], call)
  }

  lemma WokenStep(steps: seq<Step>, call: nat)
    requires steps != []
    ensures WokenIn(steps, call) <==> WokenIn(steps[..|steps| - 1], call) || Wakes(steps[|steps| - 1], call)
  {
    var before := steps[..|steps| - 1];
    if i :| 0 <= i < |steps| && Wakes(steps[i], call) {
      if i < |before| { assert Wakes(before[i], call); }
    }
    if WokenIn(before, call) {
      var i :| 0 <= i < |before| && Wakes(before[i], call);
      assert Wakes(steps[i], call);
    }
  }

  /** What a follower of flight `f` is told when it wakes. */
  function Told(load: Load, f: Flight): Pc {
    if f.payload.Some? then Returned(load.key, load.digest, f.payload.value, Follower(load.generation)) else Raised
  }

  /** Once its flight is finished a follower's answer is fixed: it gets it at its first
      wake, in every continuation and whatever the clock says, and keeps it. */
  lemma {:induction false} FollowerIsTold(sha: Bytes -> string, s: Gate, steps: seq<Step>, call: nat)
    requires Inv(sha, s) && call in s.calls && s.calls[call].Following?
    requires s.calls[call].load.generation in s.flights && s.flights[s.calls[call].load.generation].done
    ensures var load, t := s.calls[call].load, Exec(sha, s, steps);
            && load.generation in t.flights && t.flights[load.generation] == s.flights[load.generation]
            && call in t.calls
            && t.calls[call] == if WokenIn(steps, call) then Told(load, s.flights[load.generation]) else s.calls[call]
  {
    if steps != [] {
      var before, step := steps[..|steps| - 1], steps[|steps| - 1];
      var t := Exec(sha, s, before);
      var g := s.calls[call].load.generation;
      hide Apply, Inv;
      FollowerIsTold(sha, s, before, call);
      ExecKeepsInv(sha, s, before);
      FinishedStays(sha, t, step, g);
      WokenStep(steps, call);
      if WokenIn(before, call) {
        SettledCallStays(sha, t, step, call);
      } else if Wakes(step, call) {
        assert FlightOk(sha, t.flights[g]) by { FlightIsOk(sha, t, g); }
        WakeFinished(sha, t, call, step.now);
      } else {
        OthersKeepFollower(sha, t, step, call);
      }
    }
  }

  lemma FlightIsOk(sha: Bytes -> string, s: Gate, g: nat)
    requires Inv(sha, s) && g in s.flights
    ensures FlightOk(sha, s.flights[g])
  {
  }

  /** The leader of flight `g` publishes: every follower of `g` returns exactly the bytes
      the leader returns, at its first wake in any continuation, and none of them raises. */
  lemma FollowersGetTheLeadersBytes(sha: Bytes -> string, limit: int, steps: seq<Step>, leader: nat, call: nat, more: seq<Step>)
    requires var s := Exec(sha, Initial(limit), steps);
             && Publishes(s, Publish(leader)) && call in s.calls && s.calls[call].Following?
             && s.calls[call].load.generation == s.calls[leader].load.generation
    ensures var s := Exec(sha, Initial(limit), steps);
            var load, t := s.calls[call].load, Exec(sha, Apply(sha, s, Publish(leader)), more);
            && leader in t.calls && t.calls[leader] == Returned(s.calls[leader].load.key, s.calls[leader].load.digest, s.calls[leader].payload, DurableLeader)
            && call in t.calls
            && t.calls[call] == if WokenIn(more, call) then Returned(load.key, load.digest, s.calls[leader].payload, Follower(load.generation))
                                else s.calls[call]
  {
    var s := Exec(sha, Initial(limit), steps);
    InitialInv(sha, limit);
    ExecKeepsInv(sha, Initial(limit), steps);
    StepKeepsInv(sha, s, Publish(leader));
    PublishPaysOut(sha, s, leader);
    OthersKeepFollower(sha, s, Publish(leader), call);
    hide Apply, Inv;
    FollowerIsTold(sha, Apply(sha, s, Publish(leader)), more, call);
    SettledStays(sha, Apply(sha, s, Publish(leader)), more, leader);
  }

  lemma PublishPaysOut(sha: Bytes -> string, s: Gate, leader: nat)
    requires Publishes(s, Publish(leader))
    ensures var pc, after := s.calls[leader], Apply(sha, s, Publish(leader));
            && pc.load.generation in after.flights && after.flights[pc.load.generation].done
            && after.flights[pc.load.generation].payload == Some(pc.payload)
            && leader in after.calls && after.calls[leader] == Returned(pc.load.key, pc.load.digest, pc.payload, DurableLeader)
            && pc.load.key in after.cache && after.cache[pc.load.key] == pc.payload
  {
  }

  lemma {:induction false} SettledStays(sha: Bytes -> string, s: Gate, steps: seq<Step>, call: nat)
    requires call in s.calls && (s.calls[call].Returned? || s.calls[call].Raised?)
    ensures call in Exec(sha, s, steps).calls && Exec(sha, s, steps).calls[call] == s.calls[call]
  {
    if steps != [] {
      hide Apply;
      var before := steps[..|steps| - 1];
      SettledStays(sha, s, before, call);
      SettledCallStays(sha, Exec(sha, s, before), steps[|steps| - 1], call);
    }
  }

  /** The step ends flight `g` without a payload: its leader fails, or a later caller
      fences it. */
  predicate Dooms(sha: Bytes -> string, s: Gate, step: Step, g: nat) {
    || (step.Fail? && step.call in s.calls && s.calls[step.call].Failing? && !s.calls[step.call].holding
        && s.calls[step.call].load.generation == g)
    || (Fences(sha, s, step) && s.registered[step.key] == g)
  }

  lemma DoomedFlight(sha: Bytes -> string, s: Gate, step: Step, g: nat)
    requires Inv(sha, s) && Dooms(sha, s, step, g)
    ensures var after := Apply(sha, s, step);
            g in after.flights && after.flights[g].done && after.flights[g].payload.None?
  {
    if step.Fail? {
      assert CallOk(sha, s, step.call, s.calls[step.call]);
    } else {
      assert FlightOk(sha, s.flights[g]);
      BeginFrame(sha, s, step);
      MissedFrame(sha, s, step.key, step.digest, step.now);
      hide Missed, Apply, CallsOk, TokensOk;
    }
  }

  /** When the leader fails or is fenced, every follower of the flight raises at its first
      wake in any continuation. */
  lemma FollowersOfAFailureRaise(sha: Bytes -> string, limit: int, steps: seq<Step>, end: Step, call: nat, more: seq<Step>)
    requires var s := Exec(sha, Initial(limit), steps);
             call in s.calls && s.calls[call].Following? && Dooms(sha, s, end, s.calls[call].load.generation)
    ensures var s := Exec(sha, Initial(limit), steps);
            var t := Exec(sha, Apply(sha, s, end), more);
            call in t.calls && t.calls[call] == if WokenIn(more, call) then Raised else s.calls[call]
  {
    var s := Exec(sha, Initial(limit), steps);
    InitialInv(sha, limit);
    ExecKeepsInv(sha, Initial(limit), steps);
    StepKeepsInv(sha, s, end);
    DoomedFlight(sha, s, end, s.calls[call].load.generation);
    OthersKeepFollower(sha, s, end, call);
    hide Apply, Inv, Dooms;
    FollowerIsTold(sha, Apply(sha, s, end), more, call);
  }

  /** While its flight is open a woken follower keeps waiting until its own deadline. */
  lemma OpenFollowerTimesOut(sha: Bytes -> string, s: Gate, call: nat, now: int)
    requires call in s.calls && s.calls[call].Following? && Open(s, s.calls[call].load.generation)
    ensures Apply(sha, s, Wake(call, now)).calls == if now >= s.calls[call].load.deadline then s.calls[call := Raised] else s.calls
  {
  }

  // ------------------------------------------------- the request a call serves

  /** The `Begin` step of a call: the first one that carries its number. */
  function BeganAt(steps: seq<Step>, call: nat): (n: Option<nat>)
    ensures n.Some? ==> n.value < |steps| && steps[n.value].Begin? && steps[n.value].call == call
  {
    if steps == [] then None
    else
      var before := BeganAt(steps[..|steps| - 1], call);
      if before.Some? then before
      else if steps[|steps| - 1].Begin? && steps[|steps| - 1].call == call then Some(|steps| - 1)
      else None
  }

  /** The call works for the request it began with. */
  predicate Serves(pc: Pc, begin: Step)
    requires begin.Begin?
  {
    && (Leads(pc) || pc.Following? ==>
          pc.load.key == begin.key && pc.load.digest == begin.digest && pc.load.deadline == begin.now + begin.timeout)
    && (pc.Returned? ==> pc.key == begin.key && pc.digest == begin.digest)
  }

  ghost predicate AllServe(s: Gate, steps: seq<Step>) {
    forall c ::
      && (c in s.calls <==> BeganAt(steps, c).Some?)
      && (c in s.calls ==> Serves(s.calls[c], steps[BeganAt(steps, c).value]))
  }

  lemma BeginServes(sha: Bytes -> string, s: Gate, step: Step)
    requires step.Begin? && step.call !in s.calls
    ensures var after := Apply(sha, s, step);
            step.call in after.calls && Serves(after.calls[step.call], step) && after.calls == s.calls[step.call := after.calls[step.call]]
  {
    BeginFrame(sha, s, step);
    MissedFrame(sha, s, step.key, step.digest, step.now);
    hide Missed, Apply, Fences;
  }

  lemma MoveKeepsServing(sha: Bytes -> string, s: Gate, step: Step, c: nat, begin: Step)
    requires c in s.calls && begin.Begin? && Serves(s.calls[c], begin)
    requires !step.Begin?
    ensures c in Apply(sha, s, step).calls && Serves(Apply(sha, s, step).calls[c], begin)
  {
    if Quiet(step) {
      QuietFrame(sha, s, step);
      hide Apply;
    } else {
      hide BeginLoad;
    }
  }

  lemma NoNewCalls(sha: Bytes -> string, s: Gate, step: Step)
    requires !step.Begin?
    ensures Apply(sha, s, step).calls.Keys == s.calls.Keys
  {
    if Quiet(step) {
      QuietFrame(sha, s, step);
      hide Apply;
    } else {
      hide BeginLoad;
    }
  }

  /** Every call keeps the key, digest and deadline of its own request to the end. */
  lemma {:induction false} CallsServeTheirRequests(sha: Bytes -> string, limit: int, steps: seq<Step>)
    ensures AllServe(Exec(sha, Initial(limit), steps), steps)
  {
    if steps != [] {
      hide Apply, Serves;
      var before, step := steps[..|steps| - 1], steps[|steps| - 1];
      var s := Exec(sha, Initial(limit), before);
      CallsServeTheirRequests(sha, limit, before);
      if step.Begin? {
        if step.call in s.calls { BegunAlready(sha, s, step); } else { BeginServes(sha, s, step); }
      } else {
        NoNewCalls(sha, s, step);
        forall c | c in s.calls
          ensures c in Apply(sha, s, step).calls && Serves(Apply(sha, s, step).calls[c], steps[BeganAt(before, c).value])
        {
          MoveKeepsServing(sha, s, step, c, before[BeganAt(before, c).value]);
        }
      }
    }
  }

  // ------------------------------------------------------------- how it starts

  /** What a new call finds: bad arguments raise; a verified cache entry answers at once;
      a registered flight within its lease is followed; otherwise the call leads a new
      generation, whose lease is its own deadline. */
  lemma BeginDecides(sha: Bytes -> string, s: Gate, call: nat, key: string, digest: string, timeout: int, now: int)
    requires Inv(sha, s) && call !in s.calls
    ensures var after := Apply(sha, s, Begin(call, key, digest, timeout, now));
            && call in after.calls
            && if timeout <= 0 || key == "" || |digest| != 64 then after == s.(calls := s.calls[call := Raised])
               else if s.readsEnabled && key in s.cache && sha(s.cache[key]) == digest then
                 after == s.(calls := s.calls[call := Returned(key, digest, s.cache[key], Cache)])
               else if key in s.registered && s.registered[key] in s.flights && now < s.flights[s.registered[key]].deadline then
                 after.calls[call] == Following(Load(key, digest, s.registered[key], now + timeout)) && after.flights == s.flights
               else
                 && after.calls[call] == Admitting(Load(key, digest, s.nextGeneration + 1, now + timeout))
                 && after.registered == s.registered[key := s.nextGeneration + 1]
                 && s.nextGeneration + 1 in after.flights
                 && after.flights[s.nextGeneration + 1] == Flight(key, call, digest, now + timeout, false, None, false)
  {
    BeginIsLoad(sha, s, call, key, digest, timeout, now);
    hide Apply;
    MissDecides(sha, s, call, key, digest, now + timeout, now);
    hide Inv, RegisteredOk, JoinOrLead, Missed;
  }

  lemma BeginIsLoad(sha: Bytes -> string, s: Gate, call: nat, key: string, digest: string, timeout: int, now: int)
    requires call !in s.calls
    ensures Apply(sha, s, Begin(call, key, digest, timeout, now)) == BeginLoad(sha, s, call, key, digest, timeout, now)
  {
    hide BeginLoad;
  }

  lemma MissDecides(sha: Bytes -> string, s: Gate, call: nat, key: string, digest: string, deadline: int, now: int)
    requires RegisteredOk(s) && call !in s.calls
    ensures var after := JoinOrLead(Missed(sha, s, key, digest, now), call, key, digest, deadline);
            && call in after.calls
            && if key in s.registered && s.registered[key] in s.flights && now < s.flights[s.registered[key]].deadline then
                 after.calls[call] == Following(Load(key, digest, s.registered[key], deadline)) && after.flights == s.flights
               else
                 && after.calls[call] == Admitting(Load(key, digest, s.nextGeneration + 1, deadline))
                 && after.registered == s.registered[key := s.nextGeneration + 1]
                 && s.nextGeneration + 1 in after.flights
                 && after.flights[s.nextGeneration + 1] == Flight(key, call, digest, deadline, false, None, false)
  {
    assert key in s.registered ==> !s.flights[s.registered[key]].done;
    MissedFrame(sha, s, key, digest, now);
    hide Missed, RegisteredOk;
  }

  /** An entry is dropped only by a caller that asks for other bytes, and replaced only by
      warming, outside tampering, or a publishing leader. */
  lemma CacheStep(sha: Bytes -> string, s: Gate, step: Step, key: string)
    ensures var after := Apply(sha, s, step);
            if (step.Warm? && step.key == key && sha(step.payload) == step.digest) || (step.Tamper? && step.key == key) then
              key in after.cache && after.cache[key] == step.payload
            else if Publishes(s, step) && s.calls[step.call].load.key == key then
              key in after.cache && after.cache[key] == s.calls[step.call].payload
            else if step.Begin? && step.call !in s.calls && step.timeout > 0 && step.key == key && key != "" && |step.digest| == 64
                    && s.readsEnabled && key in s.cache && sha(s.cache[key]) != step.digest then key !in after.cache
            else (key in after.cache <==> key in s.cache) && (key in s.cache ==> after.cache[key] == s.cache[key])
  {
    if step.Begin? {
      if step.call in s.calls { BegunAlready(sha, s, step); } else { BeginCache(sha, s, step); }
      hide Apply;
    } else if step.Wake? || step.Acquire? || step.LoaderReturns? || step.LoaderRaises? || step.Release? {
      hide BeginLoad, RecordFailure, PublishResult;
    } else {
      hide BeginLoad, WakeFollower, AcquireToken, VerifyLoaded, ReleaseToken;
    }
  }

  lemma BeginCache(sha: Bytes -> string, s: Gate, step: Step)
    requires step.Begin? && step.call !in s.calls
    ensures Apply(sha, s, step).cache
            == if step.timeout > 0 && step.key != "" && |step.digest| == 64
                  && s.readsEnabled && step.key in s.cache && sha(s.cache[step.key]) != step.digest
               then s.cache - {step.key} else s.cache
  {
    BeginIsLoad(sha, s, step.call, step.key, step.digest, step.timeout, step.now);
    hide Apply;
  }

  // ------------------------------------------------------- a leader's own answer

  /** A call waiting for admission gets a token exactly when fewer than the limit are held
      by other calls, and can only time out at a full gate. */
  lemma AdmissionDecides(sha: Bytes -> string, s: Gate, call: nat, timedOut: bool)
    requires Inv(sha, s) && call in s.calls && s.calls[call].Admitting?
    ensures Apply(sha, s, Acquire(call, timedOut)).calls
            == if |Holders(s)| < s.limit then s.calls[call := Loading(s.calls[call].load)]
               else if timedOut then s.calls[call := Failing(s.calls[call].load, false)]
               else s.calls
  {
  }

  /** Bytes of the digest the call asked for, by its deadline, are kept; all others fail
      the call. Either way the token is then returned. */
  lemma LoaderDecides(sha: Bytes -> string, s: Gate, call: nat, payload: Bytes, now: int)
    requires Inv(sha, s) && call in s.calls && s.calls[call].Loading?
    ensures var load := s.calls[call].load;
            var after := Apply(sha, Apply(sha, s, LoaderReturns(call, payload, now)), Release(call));
            && after.calls == s.calls[call := if sha(payload) == load.digest && now <= load.deadline then Publishing(load, payload)
                                              else Failing(load, false)]
            && after.inflight == s.inflight - 1
  {
    HolderIsCounted(s, call);
  }

  /** A leader with its bytes returns them exactly when its own flight is still the one
      registered under its key; then they are cached and the key is free. Otherwise it
      raises and leaves cache and registrations alone. */
  lemma PublishDecides(sha: Bytes -> string, s: Gate, call: nat)
    requires Inv(sha, s) && call in s.calls && s.calls[call].Publishing?
    ensures var pc, after := s.calls[call], Apply(sha, s, Publish(call));
            if pc.load.key in s.registered && s.registered[pc.load.key] == pc.load.generation then
              && after.calls == s.calls[call := Returned(pc.load.key, pc.load.digest, pc.payload, DurableLeader)]
              && after.cache == s.cache[pc.load.key := pc.payload] && after.registered == s.registered - {pc.load.key}
            else after == s.(calls := s.calls[call := Raised])
  {
    assert CallOk(sha, s, call, s.calls[call]);
  }

  /** A failing leader raises, and its key is free. */
  lemma FailDecides(sha: Bytes -> string, s: Gate, call: nat)
    requires Inv(sha, s) && call in s.calls && s.calls[call].Failing? && !s.calls[call].holding
    ensures var after := Apply(sha, s, Fail(call));
            after.calls == s.calls[call := Raised] && after.registered == s.registered - {s.calls[call].load.key} && after.cache == s.cache
  {
    assert CallOk(sha, s, call, s.calls[call]);
  }

  /** The four steps of a leader whom nobody disturbs. */
  function LeaderSteps(call: nat, payload: Bytes, now: int): seq<Step> {
    [Acquire(call, false), LoaderReturns(call, payload, now), Release(call), Publish(call)]
  }

  lemma ExecOfFour(sha: Bytes -> string, s: Gate, a: Step, b: Step, c: Step, d: Step)
    ensures Exec(sha, s, [a, b, c, d]) == Apply(sha, Apply(sha, Apply(sha, Apply(sha, s, a), b), c), d)
  {
    hide Apply, Exec;
    ExecSnoc(sha, s, [], a);
    ExecSnoc(sha, s, [a], b);
    ExecSnoc(sha, s, [a, b], c);
    ExecSnoc(sha, s, [a, b, c], d);
    EmptyExec(sha, s);
    assert [] + [a] == [a] && [a] + [b] == [a, b] && [a, b] + [c] == [a, b, c] && [a, b, c] + [d] == [a, b, c, d];
  }

  lemma EmptyExec(sha: Bytes -> string, s: Gate)
    ensures Exec(sha, s, []) == s
  {
  }

  /** From any reachable gate with a free token, a leader on the books whose loader
      delivers the right bytes in time returns them; the next caller of the key gets them
      from the cache. */
  lemma UndisturbedLoadIsServed(sha: Bytes -> string, s: Gate, call: nat, payload: Bytes, now: int, next: nat, timeout: int, later: int)
    requires Inv(sha, s) && call in s.calls && s.calls[call].Admitting? && s.inflight < s.limit
    requires var load := s.calls[call].load;
             && load.key in s.registered && s.registered[load.key] == load.generation
             && sha(payload) == load.digest && now <= load.deadline && load.key != "" && |load.digest| == 64
    requires next !in s.calls && timeout > 0 && s.readsEnabled
    ensures var load, t := s.calls[call].load, Exec(sha, s, LeaderSteps(call, payload, now));
            && t.calls == s.calls[call := Returned(load.key, load.digest, payload, DurableLeader)]
            && t.inflight == s.inflight && t.registered == s.registered - {load.key}
            && Apply(sha, t, Begin(next, load.key, load.digest, timeout, later)).calls
               == t.calls[next := Returned(load.key, load.digest, payload, Cache)]
  {
    var load := s.calls[call].load;
    var c := FetchUndisturbed(sha, s, call, payload, now);
    PublishDecides(sha, c, call);
    PublishKeepsSettings(sha, c, call);
    StepKeepsInv(sha, c, Publish(call));
    ExecOfFour(sha, s, Acquire(call, false), LoaderReturns(call, payload, now), Release(call), Publish(call));
    hide Apply, Exec, Inv;
    BeginDecides(sha, Exec(sha, s, LeaderSteps(call, payload, now)), next, load.key, load.digest, timeout, later);
  }

  lemma FetchUndisturbed(sha: Bytes -> string, s: Gate, call: nat, payload: Bytes, now: int) returns (c: Gate)
    requires Inv(sha, s) && call in s.calls && s.calls[call].Admitting? && s.inflight < s.limit
    requires sha(payload) == s.calls[call].load.digest && now <= s.calls[call].load.deadline
    ensures c == Apply(sha, Apply(sha, Apply(sha, s, Acquire(call, false)), LoaderReturns(call, payload, now)), Release(call))
    ensures Inv(sha, c) && c == s.(calls := s.calls[call := Publishing(s.calls[call].load, payload)], maxInflight := c.maxInflight)
  {
    var a := Apply(sha, s, Acquire(call, false));
    var b := Apply(sha, a, LoaderReturns(call, payload, now));
    c := Apply(sha, b, Release(call));
    StepKeepsInv(sha, s, Acquire(call, false));
    StepKeepsInv(sha, a, LoaderReturns(call, payload, now));
    StepKeepsInv(sha, b, Release(call));
    assert s.inflight >= 0;
    hide Inv, BeginLoad, PublishResult, RecordFailure;
    assert a.calls == s.calls[call := Loading(s.calls[call].load)];
    assert b.calls == a.calls[call := Loaded(s.calls[call].load, payload)];
    assert c.calls == b.calls[call := Publishing(s.calls[call].load, payload)];
  }

  lemma PublishKeepsSettings(sha: Bytes -> string, s: Gate, call: nat)
    ensures var after := Apply(sha, s, Publish(call)); after.readsEnabled == s.readsEnabled && after.inflight == s.inflight
  {
  }

  // -------------------------------------------------------- switches and statistics

  /** Whether the last quarantine or reopening, if any, left reads on. */
  function ReadsOn(steps: seq<Step>): bool {
    if steps == [] then true
    else if steps[|steps| - 1].Quarantine? then false
    else steps[|steps| - 1].Reopen? || ReadsOn(steps[..|steps| - 1])
  }

  /** The cache answers except between a quarantine and the next reopening. */
  lemma {:induction false} ReadsAreOnIff(sha: Bytes -> string, limit: int, steps: seq<Step>)
    ensures Exec(sha, Initial(limit), steps).readsEnabled <==> ReadsOn(steps)
  {
    if steps != [] {
      ReadsAreOnIff(sha, limit, steps[..|steps| - 1]);
      SwitchStep(sha, Exec(sha, Initial(limit), steps[..|steps| - 1]), steps[|steps| - 1]);
      hide Apply;
    }
  }

  lemma SwitchStep(sha: Bytes -> string, s: Gate, step: Step)
    ensures Apply(sha, s, step).readsEnabled <==> !step.Quarantine? && (step.Reopen? || s.readsEnabled)
  {
    if step.Begin? {
      if step.call in s.calls { BegunAlready(sha, s, step); } else { BeginKeepsSettings(sha, s, step); }
      hide Apply;
    } else if step.Wake? || step.Acquire? || step.LoaderReturns? || step.LoaderRaises? {
      hide BeginLoad, ReleaseToken, RecordFailure, PublishResult;
    } else {
      hide BeginLoad, WakeFollower, AcquireToken, VerifyLoaded;
    }
  }

  /** Beginning a call changes no setting and takes no token. */
  lemma BeginKeepsSettings(sha: Bytes -> string, s: Gate, step: Step)
    requires step.Begin? && step.call !in s.calls
    ensures var after := Apply(sha, s, step);
            after.readsEnabled == s.readsEnabled && after.inflight == s.inflight && after.maxInflight == s.maxInflight
  {
    BeginFrame(sha, s, step);
    MissKeepsSettings(sha, s, step.key, step.digest, step.now);
    hide Missed, Apply, Fences;
  }

  lemma MissKeepsSettings(sha: Bytes -> string, s: Gate, key: string, digest: string, now: int)
    ensures var m := Missed(sha, s, key, digest, now);
            m.readsEnabled == s.readsEnabled && m.inflight == s.inflight && m.maxInflight == s.maxInflight
  {
  }

  lemma PeakStep(sha: Bytes -> string, s: Gate, step: Step)
    requires s.inflight <= s.maxInflight
    ensures var after := Apply(sha, s, step);
            after.maxInflight == if after.inflight > s.maxInflight then after.inflight else s.maxInflight
  {
    if step.Begin? {
      if step.call in s.calls { BegunAlready(sha, s, step); } else { BeginKeepsSettings(sha, s, step); }
      hide Apply;
    } else if step.Wake? || step.Acquire? || step.LoaderReturns? || step.LoaderRaises? {
      hide BeginLoad, ReleaseToken, RecordFailure, PublishResult;
    } else {
      hide BeginLoad, WakeFollower, AcquireToken, VerifyLoaded;
    }
  }

  /** The recorded maximum is the largest number of tokens that were ever out at once. */
  lemma {:induction false} PeakIsTheMostEverAdmitted(sha: Bytes -> string, limit: int, steps: seq<Step>)
    ensures forall n :: 0 <= n <= |steps| ==> Exec(sha, Initial(limit), steps[..n]).inflight <= Exec(sha, Initial(limit), steps).maxInflight
    ensures exists n :: 0 <= n <= |steps| && Exec(sha, Initial(limit), steps[..n]).inflight == Exec(sha, Initial(limit), steps).maxInflight
  {
    hide Apply;
    assert steps[..|steps|] == steps;
    if steps == [] {
      assert Exec(sha, Initial(limit), steps[..0]).inflight == 0;
    } else {
      var last := |steps| - 1;
      var before := steps[..last];
      PeakIsTheMostEverAdmitted(sha, limit, before);
      assert before[..last] == before;
      PeakStep(sha, Exec(sha, Initial(limit), before), steps[last]);
      assert forall n :: 0 <= n <= last ==> before[..n] == steps[..n];
      var n :| 0 <= n <= last && Exec(sha, Initial(limit), before[..n]).inflight == Exec(sha, Initial(limit), before).maxInflight;
      assert Exec(sha, Initial(limit), steps[..n]).inflight == Exec(sha, Initial(limit), before).maxInflight;
      assert Exec(sha, Initial(limit), steps[..last + 1]).inflight == Exec(sha, Initial(limit), steps).inflight;
    }
  }
}

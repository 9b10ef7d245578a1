/** When the followers of the load gate are served: exactly which executions keep every
    open flight in the hands of a leader, and every open flight registered. */
module LoadGateHandover {
  import opened LoadGate
  import opened LoadGateRuns
  import opened Prelude

  // ------------------------------------------------------- attended flights

  /** Some call is still at work on flight `g`. */
  ghost predicate Led(s: Gate, g: nat) {
    exists c :: c in s.calls && Leads(s.calls[c]) && s.calls[c].load.generation == g
  }

  predicate Open(s: Gate, g: nat) {
    g in s.flights && !s.flights[g].done
  }

  /** Every open flight, so every flight a follower waits on, has its leader. */
  ghost predicate Attended(s: Gate) {
    forall g :: Open(s, g) ==> Led(s, g)
  }

  /** The publish guard turns away a leader whose own flight is still open. */
  predicate RefusesOpen(s: Gate, step: Step) {
    && step.Publish? && step.call in s.calls && s.calls[step.call].Publishing?
    && !OwnsKey(s, s.calls[step.call]) && Open(s, s.calls[step.call].load.generation)
  }

  /** A begun call adds itself, and at most one open flight, which it leads. */
  lemma BeginShape(sha: Bytes -> string, s: Gate, step: Step)
    requires step.Begin? && step.call !in s.calls
    ensures var after := Apply(sha, s, step);
            && step.call in after.calls && after.calls == s.calls[step.call := after.calls[step.call]]
            && s.nextGeneration <= after.nextGeneration
            && (forall g :: Open(after, g) ==> Open(s, g) || (g == s.nextGeneration + 1 && after.calls[step.call].Admitting? && after.calls[step.call].load.generation == g))
            && (Leads(after.calls[step.call]) ==> after.calls[step.call].load.generation == s.nextGeneration + 1)
  {
    BeginFrame(sha, s, step);
    MissedFrame(sha, s, step.key, step.digest, step.now);
    hide Missed, Apply, Fences, LeaseExpired;
  }

  lemma BeginKeepsAttended(sha: Bytes -> string, s: Gate, step: Step)
    requires Attended(s) && step.Begin? && step.call !in s.calls
    ensures Attended(Apply(sha, s, step))
  {
    var after := Apply(sha, s, step);
    BeginShape(sha, s, step);
    hide Apply;
    forall g | Open(after, g) ensures Led(after, g) {
      if Open(s, g) {
        var c :| c in s.calls && Leads(s.calls[c]) && s.calls[c].load.generation == g;
        assert c in after.calls && after.calls[c] == s.calls[c];
      } else {
        assert step.call in after.calls && Leads(after.calls[step.call]);
      }
    }
  }

  lemma QuietKeepsAttended(sha: Bytes -> string, s: Gate, after: Gate, step: Step)
    requires Attended(s) && QuietEffect(sha, s, after, step)
    ensures Attended(after)
  {
    forall g | Open(after, g) ensures Led(after, g) {
      assert Open(s, g);
      var c :| c in s.calls && Leads(s.calls[c]) && s.calls[c].load.generation == g;
      assert c in after.calls;
    }
  }

  /** The leader of a flight is one call. */
  lemma LeaderIsUnique(sha: Bytes -> string, s: Gate, c: nat, d: nat)
    requires CallsOk(sha, s) && c in s.calls && d in s.calls && Leads(s.calls[c]) && Leads(s.calls[d])
    requires s.calls[c].load.generation == s.calls[d].load.generation
    ensures c == d
  {
    assert CallOk(sha, s, c, s.calls[c]) && CallOk(sha, s, d, s.calls[d]);
  }

  /** The last section of a call: its own flight is done, or was open and is left behind. */
  lemma FinishShape(sha: Bytes -> string, s: Gate, step: Step)
    requires Inv(sha, s) && (step.Fail? || step.Publish?) && Apply(sha, s, step) != s
    ensures var after := Apply(sha, s, step);
            && step.call in s.calls && Leads(s.calls[step.call]) && step.call in after.calls && !Leads(after.calls[step.call])
            && after.calls == s.calls[step.call := after.calls[step.call]]
            && var own := s.calls[step.call].load.generation;
               && own in s.flights && own in after.flights
               && (forall g :: g != own ==> (Open(after, g) <==> Open(s, g)))
               && (Open(after, own) <==> RefusesOpen(s, step))
  {
    assert CallOk(sha, s, step.call, s.calls[step.call]);
  }

  lemma FinishKeepsAttendedIff(sha: Bytes -> string, s: Gate, step: Step)
    requires Inv(sha, s) && Attended(s) && (step.Fail? || step.Publish?)
    ensures Attended(Apply(sha, s, step)) <==> !RefusesOpen(s, step)
  {
    var after := Apply(sha, s, step);
    if after == s {
      StuckRefusesNothing(sha, s, step);
    } else {
      FinishShape(sha, s, step);
      var own := s.calls[step.call].load.generation;
      hide Apply, RefusesOpen;
      forall g | g != own && Open(after, g) ensures Led(after, g) {
        var c :| c in s.calls && Leads(s.calls[c]) && s.calls[c].load.generation == g;
        assert c in after.calls && after.calls[c] == s.calls[c];
      }
      forall c | c in s.calls && Leads(s.calls[c]) && s.calls[c].load.generation == own ensures c == step.call {
        LeaderIsUnique(sha, s, c, step.call);
      }
      hide Inv;
      assert Open(after, own) ==> !Led(after, own);
    }
  }

  lemma StuckRefusesNothing(sha: Bytes -> string, s: Gate, step: Step)
    requires Apply(sha, s, step) == s
    ensures !RefusesOpen(s, step)
  {
  }

  lemma StepKeepsAttendedIff(sha: Bytes -> string, s: Gate, step: Step)
    requires Inv(sha, s) && Attended(s)
    ensures Attended(Apply(sha, s, step)) <==> !RefusesOpen(s, step)
  {
    hide Attended, Apply, Inv;
    if Quiet(step) {
      QuietFrame(sha, s, step);
      QuietKeepsAttended(sha, s, Apply(sha, s, step), step);
    } else if step.Begin? {
      if step.call in s.calls { BegunAlready(sha, s, step); } else { BeginKeepsAttended(sha, s, step); }
    } else {
      FinishKeepsAttendedIff(sha, s, step);
    }
  }

  lemma InitialAttended(sha: Bytes -> string, limit: int)
    ensures Attended(Exec(sha, Initial(limit), []))
  {
  }

  lemma {:induction false} NoRefusalStaysAttended(sha: Bytes -> string, limit: int, steps: seq<Step>)
    requires forall n :: 0 <= n < |steps| ==> !RefusesOpen(Exec(sha, Initial(limit), steps[..n]), steps[n])
    ensures Attended(Exec(sha, Initial(limit), steps))
  {
    hide Attended, RefusesOpen, Apply, Inv;
    if steps == [] {
      InitialAttended(sha, limit);
    } else {
      var last := |steps| - 1;
      var before := steps[..last];
      forall n | 0 <= n < last ensures !RefusesOpen(Exec(sha, Initial(limit), before[..n]), before[n]) {
        assert before[..n] == steps[..n];
      }
      NoRefusalStaysAttended(sha, limit, before);
      InitialInv(sha, limit);
      ExecKeepsInv(sha, Initial(limit), before);
      assert !RefusesOpen(Exec(sha, Initial(limit), steps[..last]), steps[last]);
      StepKeepsAttendedIff(sha, Exec(sha, Initial(limit), before), steps[last]);
    }
  }

  lemma AttendedMeansNoRefusal(sha: Bytes -> string, limit: int, steps: seq<Step>, n: nat)
    requires n < |steps| && Attended(Exec(sha, Initial(limit), steps[..n])) && Attended(Exec(sha, Initial(limit), steps[..n + 1]))
    ensures !RefusesOpen(Exec(sha, Initial(limit), steps[..n]), steps[n])
  {
    hide Attended, RefusesOpen, Apply, Inv;
    InitialInv(sha, limit);
    ExecKeepsInv(sha, Initial(limit), steps[..n]);
    assert steps[..n + 1][..n] == steps[..n];
    StepKeepsAttendedIff(sha, Exec(sha, Initial(limit), steps[..n]), steps[n]);
  }

  /** Followers are served throughout an execution, in that every open flight has a
      leader at work on it, if and only if the publish guard never turns away a leader
      whose own flight is still open. */
  lemma FollowersServedIff(sha: Bytes -> string, limit: int, steps: seq<Step>)
    ensures (forall n :: 0 <= n <= |steps| ==> Attended(Exec(sha, Initial(limit), steps[..n])))
       <==> (forall n :: 0 <= n < |steps| ==> !RefusesOpen(Exec(sha, Initial(limit), steps[..n]), steps[n]))
  {
    hide Attended, RefusesOpen, Exec;
    if forall n :: 0 <= n <= |steps| ==> Attended(Exec(sha, Initial(limit), steps[..n])) {
      forall n | 0 <= n < |steps| ensures !RefusesOpen(Exec(sha, Initial(limit), steps[..n]), steps[n]) {
        AttendedMeansNoRefusal(sha, limit, steps, n);
      }
    }
    if forall n :: 0 <= n < |steps| ==> !RefusesOpen(Exec(sha, Initial(limit), steps[..n]), steps[n]) {
      forall n | 0 <= n <= |steps| ensures Attended(Exec(sha, Initial(limit), steps[..n])) {
        assert forall m :: 0 <= m < n ==> steps[..n][..m] == steps[..m];
        NoRefusalStaysAttended(sha, limit, steps[..n]);
      }
    }
  }

  // ----------------------------------------------------- abandoned flights

  /** An open flight that nobody leads and that is not registered. */
  ghost predicate Abandoned(s: Gate, g: nat) {
    Open(s, g) && !Led(s, g) && Unregistered(s, g) && g <= s.nextGeneration
  }

  lemma UnattendedIsAbandoned(sha: Bytes -> string, s: Gate, g: nat)
    requires Inv(sha, s) && Open(s, g) && !Led(s, g)
    ensures Abandoned(s, g)
  {
    forall k | k in s.registered ensures s.registered[k] != g {
      var leader := s.flights[s.registered[k]].leader;
      assert leader in s.calls && Leads(s.calls[leader]) && s.calls[leader].load.generation == s.registered[k];
    }
  }

  lemma BeginKeepsAbandoned(sha: Bytes -> string, s: Gate, step: Step, g: nat)
    requires Abandoned(s, g) && step.Begin? && step.call !in s.calls
    ensures Abandoned(Apply(sha, s, step), g)
  {
    BeginFrame(sha, s, step);
    MissedFrame(sha, s, step.key, step.digest, step.now);
    hide Missed, Apply, Fences;
    var after := Apply(sha, s, step);
    forall c | c in after.calls && Leads(after.calls[c]) ensures after.calls[c].load.generation != g {
      if c in s.calls && c != step.call { assert after.calls[c] == s.calls[c]; }
    }
  }

  lemma QuietKeepsAbandoned(sha: Bytes -> string, s: Gate, after: Gate, step: Step, g: nat)
    requires Abandoned(s, g) && QuietEffect(sha, s, after, step)
    ensures Abandoned(after, g)
  {
    forall c | c in after.calls && Leads(after.calls[c]) ensures after.calls[c].load.generation != g {
      assert c in s.calls && Leads(s.calls[c]);
    }
  }

  lemma FinishKeepsAbandoned(sha: Bytes -> string, s: Gate, step: Step, g: nat)
    requires Inv(sha, s) && Abandoned(s, g) && (step.Fail? || step.Publish?)
    ensures Abandoned(Apply(sha, s, step), g)
  {
    StepAdvances(sha, s, step);
    if Apply(sha, s, step) != s {
      FinishShape(sha, s, step);
      hide Apply, Inv;
      var after := Apply(sha, s, step);
      assert s.calls[step.call].load.generation != g;
      forall c | c in after.calls && Leads(after.calls[c]) ensures after.calls[c].load.generation != g {
        assert c in s.calls && after.calls[c] == s.calls[c];
      }
    }
  }

  /** An abandoned flight is never completed, in any continuation: whoever follows it can
      only time out. */
  lemma {:induction false} AbandonedNeverCompletes(sha: Bytes -> string, s: Gate, steps: seq<Step>, g: nat)
    requires Inv(sha, s) && Abandoned(s, g)
    ensures Abandoned(Exec(sha, s, steps), g)
  {
    if steps != [] {
      hide Abandoned, Inv, Apply;
      var before, step := steps[..|steps| - 1], steps[|steps| - 1];
      AbandonedNeverCompletes(sha, s, before, g);
      ExecKeepsInv(sha, s, before);
      var at := Exec(sha, s, before);
      if Quiet(step) {
        QuietFrame(sha, at, step);
        QuietKeepsAbandoned(sha, at, Apply(sha, at, step), step, g);
      } else if step.Begin? {
        if step.call in at.calls { BegunAlready(sha, at, step); } else { BeginKeepsAbandoned(sha, at, step, g); }
      } else {
        FinishKeepsAbandoned(sha, at, step, g);
      }
    }
  }

  /** An orphaned flight is abandoned as soon as its leader comes to publish. */
  lemma OrphanEndsAbandoned(sha: Bytes -> string, s: Gate, g: nat)
    requires Inv(sha, s) && Orphaned(s, g) && s.calls[s.flights[g].leader].Loaded?
    ensures var leader := s.flights[g].leader;
            var released := Apply(sha, s, Release(leader));
            RefusesOpen(released, Publish(leader)) && Abandoned(Apply(sha, released, Publish(leader)), g)
  {
    var leader := s.flights[g].leader;
    HolderIsCounted(s, leader);
    var released := Apply(sha, s, Release(leader));
    assert released.calls == s.calls[leader := Publishing(s.calls[leader].load, s.calls[leader].payload)];
    StepKeepsInv(sha, s, Release(leader));
    PublishAbandons(sha, released, leader, g);
  }

  lemma PublishAbandons(sha: Bytes -> string, s: Gate, call: nat, g: nat)
    requires Inv(sha, s) && Open(s, g) && Unregistered(s, g) && call in s.calls && s.calls[call].Publishing?
    requires s.calls[call].load.generation == g
    ensures RefusesOpen(s, Publish(call)) && Abandoned(Apply(sha, s, Publish(call)), g)
  {
    var after := Apply(sha, s, Publish(call));
    FinishShape(sha, s, Publish(call));
    forall c | c in after.calls && Leads(after.calls[c]) ensures after.calls[c].load.generation != g {
      if s.calls[c].load.generation == g { LeaderIsUnique(sha, s, c, call); }
    }
  }

  /** A concrete execution from the empty gate that ends with a follower of an abandoned
      flight. */
  lemma FollowerIsAbandoned(sha: Bytes -> string, payload: Bytes, key: string) returns (steps: seq<Step>)
    requires |sha(payload)| == 64 && key != ""
    ensures var s := Exec(sha, Initial(2), steps);
            Abandoned(s, 2) && 2 in s.calls && s.calls[2].Following? && s.calls[2].load.generation == 2
  {
    var a := StrandedFollower(sha, payload, key);
    InitialInv(sha, 2);
    ExecKeepsInv(sha, Initial(2), a);
    var s := Exec(sha, Initial(2), a);
    OrphanEndsAbandoned(sha, s, 2);
    OtherCallStays(sha, s, Release(1), 2);
    OtherCallStays(sha, Apply(sha, s, Release(1)), Publish(1), 2);
    hide Apply, Abandoned, Orphaned, Inv;
    ExecSnoc(sha, Initial(2), a, Release(1));
    ExecSnoc(sha, Initial(2), a + [Release(1)], Publish(1));
    steps := a + [Release(1)] + [Publish(1)];
  }

  lemma OtherCallStays(sha: Bytes -> string, s: Gate, step: Step, call: nat)
    requires (step.Release? || step.Publish?) && step.call != call && call in s.calls
    ensures call in Apply(sha, s, step).calls && Apply(sha, s, step).calls[call] == s.calls[call]
  {
    hide BeginLoad, WakeFollower, AcquireToken, VerifyLoaded, RecordFailure, OwnsKey;
  }

  // ---------------------------------------------------- registered flights

  /** Every open flight can be found under its key. */
  ghost predicate OpenRegistered(s: Gate) {
    forall g :: Open(s, g) ==> s.flights[g].key in s.registered && s.registered[s.flights[g].key] == g
  }

  /** A failing call pops a key under which somebody else's flight is registered. */
  predicate PopsAnother(s: Gate, step: Step) {
    && step.Fail? && step.call in s.calls && s.calls[step.call].Failing? && !s.calls[step.call].holding
    && var load := s.calls[step.call].load;
    load.key in s.registered && s.registered[load.key] != load.generation
  }

  lemma BeginKeepsRegistered(sha: Bytes -> string, s: Gate, step: Step)
    requires Inv(sha, s) && OpenRegistered(s) && step.Begin? && step.call !in s.calls
    ensures OpenRegistered(Apply(sha, s, step))
  {
    BeginFrame(sha, s, step);
    MissedFrame(sha, s, step.key, step.digest, step.now);
    hide Missed, Apply, Fences, LeaseExpired, CallsOk, TokensOk;
  }

  lemma FailKeepsRegisteredIff(sha: Bytes -> string, s: Gate, step: Step)
    requires Inv(sha, s) && OpenRegistered(s) && step.Fail?
    ensures OpenRegistered(Apply(sha, s, step)) <==> !PopsAnother(s, step)
  {
    var after := Apply(sha, s, step);
    if step.call in s.calls { assert CallOk(sha, s, step.call, s.calls[step.call]); }
    if PopsAnother(s, step) {
      var key := s.calls[step.call].load.key;
      var g := s.registered[key];
      assert Open(after, g) && after.flights[g].key == key && key !in after.registered;
    }
  }

  lemma PublishKeepsRegistered(sha: Bytes -> string, s: Gate, step: Step)
    requires Inv(sha, s) && OpenRegistered(s) && step.Publish?
    ensures OpenRegistered(Apply(sha, s, step))
  {
    if step.call in s.calls { assert CallOk(sha, s, step.call, s.calls[step.call]); }
  }

  lemma StepKeepsRegisteredIff(sha: Bytes -> string, s: Gate, step: Step)
    requires Inv(sha, s) && OpenRegistered(s)
    ensures OpenRegistered(Apply(sha, s, step)) <==> !PopsAnother(s, step)
  {
    if Quiet(step) {
      QuietFrame(sha, s, step);
      hide Apply, Inv;
    } else if step.Begin? {
      if step.call in s.calls { BegunAlready(sha, s, step); } else { BeginKeepsRegistered(sha, s, step); }
      hide Apply, Inv;
    } else if step.Fail? {
      FailKeepsRegisteredIff(sha, s, step);
    } else {
      PublishKeepsRegistered(sha, s, step);
    }
  }

  lemma InitialRegistered(sha: Bytes -> string, limit: int)
    ensures OpenRegistered(Exec(sha, Initial(limit), []))
  {
  }

  lemma {:induction false} NoPopStaysRegistered(sha: Bytes -> string, limit: int, steps: seq<Step>)
    requires forall n :: 0 <= n < |steps| ==> !PopsAnother(Exec(sha, Initial(limit), steps[..n]), steps[n])
    ensures OpenRegistered(Exec(sha, Initial(limit), steps))
  {
    hide OpenRegistered, PopsAnother, Apply, Inv;
    if steps == [] {
      InitialRegistered(sha, limit);
    } else {
      var last := |steps| - 1;
      var before := steps[..last];
      forall n | 0 <= n < last ensures !PopsAnother(Exec(sha, Initial(limit), before[..n]), before[n]) {
        assert before[..n] == steps[..n];
      }
      NoPopStaysRegistered(sha, limit, before);
      InitialInv(sha, limit);
      ExecKeepsInv(sha, Initial(limit), before);
      assert !PopsAnother(Exec(sha, Initial(limit), steps[..last]), steps[last]);
      StepKeepsRegisteredIff(sha, Exec(sha, Initial(limit), before), steps[last]);
    }
  }

  lemma RegisteredMeansNoPop(sha: Bytes -> string, limit: int, steps: seq<Step>, n: nat)
    requires n < |steps| && OpenRegistered(Exec(sha, Initial(limit), steps[..n])) && OpenRegistered(Exec(sha, Initial(limit), steps[..n + 1]))
    ensures !PopsAnother(Exec(sha, Initial(limit), steps[..n]), steps[n])
  {
    hide OpenRegistered, PopsAnother, Apply, Inv;
    InitialInv(sha, limit);
    ExecKeepsInv(sha, Initial(limit), steps[..n]);
    assert steps[..n + 1][..n] == steps[..n];
    StepKeepsRegisteredIff(sha, Exec(sha, Initial(limit), steps[..n]), steps[n]);
  }

  /** Every open flight stays registered throughout an execution if and only if no failing
      call pops a key registered to another generation. */
  lemma OpenStaysRegisteredIff(sha: Bytes -> string, limit: int, steps: seq<Step>)
    ensures (forall n :: 0 <= n <= |steps| ==> OpenRegistered(Exec(sha, Initial(limit), steps[..n])))
       <==> (forall n :: 0 <= n < |steps| ==> !PopsAnother(Exec(sha, Initial(limit), steps[..n]), steps[n]))
  {
    hide OpenRegistered, PopsAnother, Exec;
    if forall n :: 0 <= n <= |steps| ==> OpenRegistered(Exec(sha, Initial(limit), steps[..n])) {
      forall n | 0 <= n < |steps| ensures !PopsAnother(Exec(sha, Initial(limit), steps[..n]), steps[n]) {
        RegisteredMeansNoPop(sha, limit, steps, n);
      }
    }
    if forall n :: 0 <= n < |steps| ==> !PopsAnother(Exec(sha, Initial(limit), steps[..n]), steps[n]) {
      forall n | 0 <= n <= |steps| ensures OpenRegistered(Exec(sha, Initial(limit), steps[..n])) {
        assert forall m :: 0 <= m < n ==> steps[..n][..m] == steps[..m];
        NoPopStaysRegistered(sha, limit, steps[..n]);
      }
    }
  }

  /** An open flight that is refused was popped before: without a pop of somebody else's
      key every follower is served. */
  lemma NoForeignPopMeansServed(sha: Bytes -> string, limit: int, steps: seq<Step>)
    requires forall n :: 0 <= n < |steps| ==> !PopsAnother(Exec(sha, Initial(limit), steps[..n]), steps[n])
    ensures forall n :: 0 <= n <= |steps| ==> Attended(Exec(sha, Initial(limit), steps[..n]))
  {
    hide PopsAnother, Attended, RefusesOpen, OpenRegistered, Inv, Exec;
    OpenStaysRegisteredIff(sha, limit, steps);
    forall n | 0 <= n < |steps| ensures !RefusesOpen(Exec(sha, Initial(limit), steps[..n]), steps[n]) {
      InitialInv(sha, limit);
      ExecKeepsInv(sha, Initial(limit), steps[..n]);
      RegisteredIsNotRefused(sha, Exec(sha, Initial(limit), steps[..n]), steps[n]);
    }
    FollowersServedIff(sha, limit, steps);
  }

  lemma RegisteredIsNotRefused(sha: Bytes -> string, s: Gate, step: Step)
    requires Inv(sha, s) && OpenRegistered(s)
    ensures !RefusesOpen(s, step)
  {
    if step.Publish? && step.call in s.calls { assert CallOk(sha, s, step.call, s.calls[step.call]); }
  }
}

/** What holds of the arbiter after every sequence of calls by any actors. */
module ArbiterRuns {
  import opened Arbiter
  import opened Prelude

  function Run(digest: Inputs -> string, start: Control, calls: seq<Call>): Control {
    if calls == [] then start else Transition(digest, Run(digest, start, calls[..|calls| - 1]), calls[|calls| - 1]).1
  }

  predicate Accepted(digest: Inputs -> string, c: Control, call: Call) {
    Transition(digest, c, call).0.Ok?
  }

  /** Call `i` of the run was accepted. */
  predicate AcceptedAt(digest: Inputs -> string, start: Control, calls: seq<Call>, i: nat)
    requires i < |calls|
  {
    Accepted(digest, Run(digest, start, calls[..i]), calls[i])
  }

  // -------------------------------------------------------------- generations

  function BeginCount(digest: Inputs -> string, start: Control, calls: seq<Call>): nat {
    if calls == [] then 0
    else
      var before, call := calls[..|calls| - 1], calls[|calls| - 1];
      BeginCount(digest, start, before) + if call.Begin? && Accepted(digest, Run(digest, start, before), call) then 1 else 0
  }

  /** The generation counts accepted `begin_recovery` calls; nothing else moves it. */
  lemma {:induction false} GenerationCountsRecoveries(digest: Inputs -> string, start: Control, calls: seq<Call>)
    ensures Run(digest, start, calls).record.generation == start.record.generation + BeginCount(digest, start, calls)
  {
    if calls != [] { GenerationCountsRecoveries(digest, start, calls[..|calls| - 1]); }
  }

  lemma {:induction false} RunSplits(digest: Inputs -> string, start: Control, xs: seq<Call>, ys: seq<Call>)
    ensures Run(digest, start, xs + ys) == Run(digest, Run(digest, start, xs), ys)
  {
    if ys == [] {
      assert xs + ys == xs;
    } else {
      RunSplits(digest, start, xs, ys[..|ys| - 1]);
      assert (xs + ys)[..|xs + ys| - 1] == xs + ys[..|ys| - 1];
    }
  }

  /** Fencing for good: once the generation has moved past the one a caller holds, no
      later call presenting it is accepted, and none changes the record. */
  lemma StaleGenerationsStayFenced(digest: Inputs -> string, start: Control, calls: seq<Call>, late: Call)
    requires late.expected < start.record.generation
    ensures var c := Run(digest, start, calls);
            Transition(digest, c, late).0.Err? && Transition(digest, c, late).1.record == c.record
  {
    GenerationCountsRecoveries(digest, start, calls);
  }

  // -------------------------------------------------------------- provenance

  /** Index of the last accepted call that satisfies `kind`, or -1. */
  function LastAccepted(digest: Inputs -> string, start: Control, calls: seq<Call>, kind: Call -> bool): (i: int)
    ensures -1 <= i < |calls|
    ensures i >= 0 ==> kind(calls[i]) && AcceptedAt(digest, start, calls, i)
  {
    if calls == [] then -1
    else
      var last := |calls| - 1;
      if kind(calls[last]) && AcceptedAt(digest, start, calls, last) then last
      else
        var i := LastAccepted(digest, start, calls[..last], kind);
        assert i >= 0 ==> calls[..last][..i] == calls[..i];
        i
  }

  const IsBegin: Call -> bool := (c: Call) => c.Begin?
  const IsReady: Call -> bool := (c: Call) => c.Ready?
  const IsArm: Call -> bool := (c: Call) => c.Arm?
  const IsFreeze: Call -> bool := (c: Call) => c.Freeze?

  /** The record was bound by this `begin_recovery`. */
  predicate BoundBy(digest: Inputs -> string, r: EpochRecord, call: Call) {
    call.Begin? && r.inputs == call.inputs && r.inputsDigest == digest(call.inputs)
    && r.holder == call.holder && r.expiry == call.now + call.lease
  }

  predicate ReadiedBy(digest: Inputs -> string, r: EpochRecord, call: Call) {
    call.Ready? && call.holder == r.holder && call.now < r.expiry && digest(call.inputs) == r.inputsDigest
  }

  predicate ArmedBy(digest: Inputs -> string, r: EpochRecord, call: Call) {
    call.Arm? && call.now < r.expiry && digest(call.inputs) == r.inputsDigest
  }

  /** Calls `b`, `m` and `a` began, readied and armed what the record now says. */
  predicate ExplainedBy(digest: Inputs -> string, r: EpochRecord, calls: seq<Call>, b: int, m: int, a: int)
    requires -1 <= b < |calls| && -1 <= m < |calls| && -1 <= a < |calls|
  {
    && (b >= 0 ==> BoundBy(digest, r, calls[b]))
    && (r.state in {RECOVERING, RECOVERY_READY, DEPLOYMENT_ARMED} ==> b >= 0)
    && (r.state in {RECOVERY_READY, DEPLOYMENT_ARMED} ==> b < m && ReadiedBy(digest, r, calls[m]))
    && (r.state == DEPLOYMENT_ARMED ==> m < a && ArmedBy(digest, r, calls[a]))
  }

  ghost predicate Explained(digest: Inputs -> string, start: Control, calls: seq<Call>) {
    ExplainedBy(digest, Run(digest, start, calls).record, calls,
                LastAccepted(digest, start, calls, IsBegin), LastAccepted(digest, start, calls, IsReady),
                LastAccepted(digest, start, calls, IsArm))
  }

  lemma ExplainedStep(digest: Inputs -> string, c: Control, calls: seq<Call>, call: Call, b: int, m: int, a: int)
    requires -1 <= b < |calls| && -1 <= m < |calls| && -1 <= a < |calls|
    requires ExplainedBy(digest, c.record, calls, b, m, a)
    ensures ExplainedBy(digest, Transition(digest, c, call).1.record, calls + [call],
                        if call.Begin? && Accepted(digest, c, call) then |calls| else b,
                        if call.Ready? && Accepted(digest, c, call) then |calls| else m,
                        if call.Arm? && Accepted(digest, c, call) then |calls| else a)
  {
    hide Inputs.Valid;
  }

  lemma LastAcceptedStep(digest: Inputs -> string, start: Control, calls: seq<Call>, kind: Call -> bool)
    requires calls != []
    ensures var last := |calls| - 1;
            LastAccepted(digest, start, calls, kind)
            == if kind(calls[last]) && Accepted(digest, Run(digest, start, calls[..last]), calls[last]) then last
               else LastAccepted(digest, start, calls[..last], kind)
  {
  }

  lemma {:induction false} EveryRecordIsExplained(digest: Inputs -> string, start: Control, calls: seq<Call>)
    requires start.record.state == IDLE
    ensures Explained(digest, start, calls)
  {
    if calls != [] {
      var before, call := calls[..|calls| - 1], calls[|calls| - 1];
      EveryRecordIsExplained(digest, start, before);
      LastAcceptedStep(digest, start, calls, IsBegin);
      LastAcceptedStep(digest, start, calls, IsReady);
      LastAcceptedStep(digest, start, calls, IsArm);
      hide LastAccepted, ExplainedBy, Transition, Accepted;
      assert calls == before + [call];
      ExplainedStep(digest, Run(digest, start, before), before, call,
                    LastAccepted(digest, start, before, IsBegin), LastAccepted(digest, start, before, IsReady),
                    LastAccepted(digest, start, before, IsArm));
    }
  }

  /** An armed deployment: the last accepted `begin_recovery` bound the record's inputs,
      the same holder then marked exactly these inputs ready, and GitOps then armed exactly
      these inputs, both before the lease expired. */
  lemma ArmedDeploymentsAreBound(digest: Inputs -> string, inputs: Inputs, calls: seq<Call>)
    requires Run(digest, Initial(digest, inputs), calls).record.state == DEPLOYMENT_ARMED
    requires CollisionFreeOn(digest, set i | 0 <= i < |calls| && !calls[i].Freeze? :: calls[i].inputs)
    ensures var start, r := Initial(digest, inputs), Run(digest, Initial(digest, inputs), calls).record;
            var b, m, a := LastAccepted(digest, start, calls, IsBegin), LastAccepted(digest, start, calls, IsReady), LastAccepted(digest, start, calls, IsArm);
            && 0 <= b < m < a
            && calls[b].inputs == calls[m].inputs == calls[a].inputs == r.inputs
            && calls[b].holder == calls[m].holder == r.holder
            && r.expiry == calls[b].now + calls[b].lease && calls[m].now < r.expiry && calls[a].now < r.expiry
  {
    var start := Initial(digest, inputs);
    EveryRecordIsExplained(digest, start, calls);
    var b, m, a := LastAccepted(digest, start, calls, IsBegin), LastAccepted(digest, start, calls, IsReady), LastAccepted(digest, start, calls, IsArm);
    hide Run, LastAccepted;
    var presented := set i | 0 <= i < |calls| && !calls[i].Freeze? :: calls[i].inputs;
    assert calls[b].inputs in presented && calls[m].inputs in presented && calls[a].inputs in presented;
  }

  // ------------------------------------------------------------------ freezing

  /** Within its generation a frozen epoch stays frozen. */
  lemma {:induction false} FrozenUntilNextRecovery(digest: Inputs -> string, start: Control, calls: seq<Call>)
    requires start.record.state == FROZEN && BeginCount(digest, start, calls) == 0
    ensures Run(digest, start, calls).record.state == FROZEN
    ensures Run(digest, start, calls).record.generation == start.record.generation
  {
    if calls != [] { FrozenUntilNextRecovery(digest, start, calls[..|calls| - 1]); }
    GenerationCountsRecoveries(digest, start, calls);
  }

  predicate FreezesIn(digest: Inputs -> string, start: Control, calls: seq<Call>) {
    exists i :: 0 <= i < |calls| && calls[i].Freeze? && AcceptedAt(digest, start, calls, i)
  }

  lemma {:induction false} LiveUnlessFrozen(digest: Inputs -> string, start: Control, calls: seq<Call>)
    requires start.record.state in {RECOVERING, RECOVERY_READY, DEPLOYMENT_ARMED}
    requires BeginCount(digest, start, calls) == 0 && !FreezesIn(digest, start, calls)
    ensures Run(digest, start, calls).record.state in {RECOVERING, RECOVERY_READY, DEPLOYMENT_ARMED}
    ensures Run(digest, start, calls).record.expiry == start.record.expiry
  {
    if calls != [] {
      var before := calls[..|calls| - 1];
      assert !FreezesIn(digest, start, before) by {
        forall i | 0 <= i < |before| && before[i].Freeze? ensures !AcceptedAt(digest, start, before, i) {
          assert before[..i] == calls[..i];
          assert !AcceptedAt(digest, start, calls, i);
        }
      }
      LiveUnlessFrozen(digest, start, before);
      assert calls[|calls| - 1].Freeze? ==> !AcceptedAt(digest, start, calls, |calls| - 1);
    }
  }

  /** Recoveries exclude each other: the recovery after an accepted one starts no earlier
      than that one's lease expires, unless a freeze was accepted in between. */
  lemma NextRecoveryWaits(digest: Inputs -> string, c: Control, first: Call, between: seq<Call>, second: Call)
    requires first.Begin? && second.Begin? && Accepted(digest, c, first)
    requires var after := Transition(digest, c, first).1;
             BeginCount(digest, after, between) == 0 && Accepted(digest, Run(digest, after, between), second)
    ensures second.now >= first.now + first.lease || FreezesIn(digest, Transition(digest, c, first).1, between)
  {
    var after := Transition(digest, c, first).1;
    if !FreezesIn(digest, after, between) {
      LiveUnlessFrozen(digest, after, between);
    }
  }

  /** Exactly when an epoch is frozen: when a freeze was accepted since the last accepted
      recovery. No refusal freezes anything, a refusal for drift included. */
  lemma {:induction false} FrozenIff(digest: Inputs -> string, start: Control, calls: seq<Call>)
    requires start.record.state == IDLE
    ensures Run(digest, start, calls).record.state == FROZEN <==>
            LastAccepted(digest, start, calls, IsFreeze) > LastAccepted(digest, start, calls, IsBegin)
  {
    if calls != [] {
      FrozenIff(digest, start, calls[..|calls| - 1]);
      LastAcceptedStep(digest, start, calls, IsFreeze);
      LastAcceptedStep(digest, start, calls, IsBegin);
      hide LastAccepted;
    }
  }

  /** A drifted `arm_deployment` on a ready epoch is refused and counted, leaves the record
      as it was, and the bound inputs can still be armed. */
  lemma DriftedArmDoesNotFreeze(digest: Inputs -> string, c: Control, drifted: Inputs, now: real, later: real)
    requires c.record.state == RECOVERY_READY && now < c.record.expiry && later < c.record.expiry
    requires drifted.Valid() && c.record.inputs.Valid() && c.record.inputsDigest == digest(c.record.inputs)
    requires drifted.gitRevision != c.record.inputs.gitRevision
    ensures var (r, after) := Transition(digest, c, Arm(GITOPS, c.record.generation, drifted, now));
            && r == Err(RevisionDrifted) && after.record == c.record
            && Rejections(after, GITOPS, "git_revision_mismatch") == Rejections(c, GITOPS, "git_revision_mismatch") + 1
            && Transition(digest, after, Arm(GITOPS, c.record.generation, c.record.inputs, later)).1.record
               == c.record.(state := DEPLOYMENT_ARMED)
  {
  }

  lemma RunSnoc(digest: Inputs -> string, start: Control, calls: seq<Call>, call: Call)
    ensures Run(digest, start, calls + [call]) == Transition(digest, Run(digest, start, calls), call).1
  {
    assert (calls + [call])[..|calls|] == calls;
  }

  /** Two calls bring the initial record to a ready epoch. */
  lemma ReadyRun(digest: Inputs -> string, initial: Inputs) returns (calls: seq<Call>)
    requires initial.Valid()
    ensures |calls| == 2
    ensures Run(digest, Initial(digest, initial), calls).record
            == EpochRecord(1, RECOVERY_READY, "a", 30.0, initial, digest(initial), None)
  {
    hide Inputs.Valid, Run;
    var start := Initial(digest, initial);
    var b, m := Begin(RECOVERY, 0, "a", initial, 0.0, 30.0), Ready(RECOVERY, 1, "a", initial, 1.0);
    RunSnoc(digest, start, [], b);
    RunSnoc(digest, start, [] + [b], m);
    assert Run(digest, start, []) == start by { EmptyRun(digest, start); }
    calls := [] + [b] + [m];
  }

  lemma EmptyRun(digest: Inputs -> string, start: Control)
    ensures Run(digest, start, []) == start
  {
  }

  /** Contrary to the class's own description: from the initial record, an epoch that saw
      a drifted revision while ready is not frozen, and is armed by the next call. */
  lemma DriftIsArmedAnyway(digest: Inputs -> string, initial: Inputs, drifted: Inputs) returns (calls: seq<Call>)
    requires initial.Valid() && drifted.Valid() && drifted.gitRevision != initial.gitRevision
    ensures var start := Initial(digest, initial);
            && |calls| == 4 && calls[2] == Arm(GITOPS, 1, drifted, 2.0) && !AcceptedAt(digest, start, calls, 2)
            && Run(digest, start, calls[..3]).record.state == RECOVERY_READY
            && Run(digest, start, calls).record.state == DEPLOYMENT_ARMED && Run(digest, start, calls).record.inputs == initial
  {
    var start := Initial(digest, initial);
    var ready := ReadyRun(digest, initial);
    var d, a := Arm(GITOPS, 1, drifted, 2.0), Arm(GITOPS, 1, initial, 3.0);
    hide Inputs.Valid, Run, Transition;
    DriftedArmDoesNotFreeze(digest, Run(digest, start, ready), drifted, 2.0, 3.0);
    RunSnoc(digest, start, ready, d);
    RunSnoc(digest, start, ready + [d], a);
    calls := ready + [d] + [a];
    assert calls[..3] == ready + [d] && calls[..2] == ready;
  }

  // ------------------------------------------------------------- rejections

  function RefusalsFor(digest: Inputs -> string, start: Control, calls: seq<Call>, actor: string, reason: string): nat {
    if calls == [] then 0
    else
      var before, call := calls[..|calls| - 1], calls[|calls| - 1];
      var refusal := Refusal(digest, Run(digest, start, before).record, call);
      RefusalsFor(digest, start, before, actor, reason)
      + if ArgumentError(call).None? && call.actor == actor && refusal.Some? && refusal.value.1 == Some(reason) then 1 else 0
  }

  /** The rejection counters count every refusal made under the lock for that reason,
      and nothing else. */
  lemma {:induction false} RejectionCountersAreExact(digest: Inputs -> string, start: Control, calls: seq<Call>, actor: string, reason: string)
    ensures Rejections(Run(digest, start, calls), actor, reason)
            == Rejections(start, actor, reason) + RefusalsFor(digest, start, calls, actor, reason)
  {
    if calls != [] { RejectionCountersAreExact(digest, start, calls[..|calls| - 1], actor, reason); }
  }
}

/** The recovery / deployment arbiter: one record, replaced under a lock by transitions
    that all present the generation they believe in. Time is an input of each call, and
    calls may present times in any order. */
module Arbiter {
  import opened Prelude

  // -------------------------------------------------------------- data model

  datatype EpochState = IDLE | RECOVERING | RECOVERY_READY | DEPLOYMENT_ARMED | FROZEN

  datatype Inputs = Inputs(
    checkpointHash: string, cursorCommitId: string, precisionHash: string, topologyEpoch: string,
    planDigest: string, workManifestDigest: string, gitRevision: string)
  {
    predicate Valid() {
      && cursorCommitId != "" && topologyEpoch != "" && gitRevision != ""
      && IsSha(checkpointHash) && IsSha(precisionHash) && IsSha(planDigest) && IsSha(workManifestDigest)
    }
  }

  datatype EpochRecord = EpochRecord(
    generation: nat, state: EpochState, holder: string, expiry: real, inputs: Inputs, inputsDigest: string, reason: Option<string>)

  /** The record, and how often each actor was turned away for each reason. */
  datatype Control = Control(record: EpochRecord, rejections: map<(string, string), nat>)

  datatype ArbitrationError =
    | NotPermitted | InvalidInputs | StaleGeneration | LeaseActive | NotRecovering | BindingChanged
    | NotReady | RevisionDrifted | NotDrifted

  const RECOVERY := "recovery_controller"
  const GITOPS := "gitops_controller"
  const ADMISSION := "admission"

  predicate IsSha(s: string) {
    |s| == 64 && forall i :: 0 <= i < |s| ==> s[i] in "0123456789abcdef"
  }

  datatype Call =
    | Begin(actor: string, expected: int, holder: string, inputs: Inputs, now: real, lease: real)
    | Ready(actor: string, expected: int, holder: string, inputs: Inputs, now: real)
    | Arm(actor: string, expected: int, inputs: Inputs, now: real)
    | Freeze(actor: string, expected: int, observed: string)

  function Initial(digest: Inputs -> string, inputs: Inputs): Control {
    Control(EpochRecord(0, IDLE, "", 0.0, inputs, digest(inputs), None), map[])
  }

  // ------------------------------------------------------------- transitions

  function Rejections(c: Control, actor: string, reason: string): nat {
    if (actor, reason) in c.rejections then c.rejections[(actor, reason)] else 0
  }

  function Reject(c: Control, actor: string, reason: string): Control {
    c.(rejections := c.rejections[(actor, reason) := Rejections(c, actor, reason) + 1])
  }

  predicate LeaseIsActive(r: EpochRecord, now: real) {
    r.state in {RECOVERING, RECOVERY_READY, DEPLOYMENT_ARMED} && now < r.expiry
  }

  /** The checks made before the lock is taken. */
  function ArgumentError(call: Call): Option<ArbitrationError> {
    match call
    case Begin(actor, _, holder, inputs, _, lease) =>
      if actor != RECOVERY || holder == "" || lease <= 0.0 then Some(NotPermitted)
      else if !inputs.Valid() then Some(InvalidInputs) else None
    case Ready(actor, _, _, inputs, _) =>
      if actor != RECOVERY then Some(NotPermitted) else if !inputs.Valid() then Some(InvalidInputs) else None
    case Arm(actor, _, inputs, _) =>
      if actor != GITOPS then Some(NotPermitted) else if !inputs.Valid() then Some(InvalidInputs) else None
    case Freeze(actor, _, observed) =>
      if (actor != GITOPS && actor != ADMISSION) || observed == "" then Some(NotPermitted) else None
  }

  /** The checks made under the lock: the error, and the reason it is counted under, if
      it is. */
  function Refusal(digest: Inputs -> string, r: EpochRecord, call: Call): Option<(ArbitrationError, Option<string>)> {
    if call.expected != r.generation then Some((StaleGeneration, Some("stale_generation")))
    else
      match call
      case Begin(_, _, _, _, now, _) =>
        if LeaseIsActive(r, now) then Some((LeaseActive, Some("lease_expired"))) else None
      case Ready(_, _, holder, inputs, now) =>
        if r.state != RECOVERING || r.holder != holder || now >= r.expiry then Some((NotRecovering, Some("lease_expired")))
        else if r.inputsDigest != digest(inputs) then Some((BindingChanged, Some("input_binding_invalid")))
        else None
      case Arm(_, _, inputs, now) =>
        if r.state != RECOVERY_READY || now >= r.expiry then Some((NotReady, Some("state_not_armed")))
        else if r.inputs.gitRevision != inputs.gitRevision then Some((RevisionDrifted, Some("git_revision_mismatch")))
        else if r.inputsDigest != digest(inputs) then Some((BindingChanged, Some("input_binding_invalid")))
        else None
      case Freeze(_, _, observed) =>
        if observed == r.inputs.gitRevision then Some((NotDrifted, None)) else None
  }

  /** The record an accepted call leaves. */
  function Replaced(digest: Inputs -> string, r: EpochRecord, call: Call): EpochRecord {
    match call
    case Begin(_, _, holder, inputs, now, lease) =>
      EpochRecord(r.generation + 1, RECOVERING, holder, now + lease, inputs, digest(inputs), None)
    case Ready(_, _, _, _, _) => r.(state := RECOVERY_READY)
    case Arm(_, _, _, _) => r.(state := DEPLOYMENT_ARMED)
    case Freeze(_, _, _) => r.(state := FROZEN, reason := Some("git_revision_drift"))
  }

  function Transition(digest: Inputs -> string, c: Control, call: Call): (Result<EpochRecord, ArbitrationError>, Control) {
    var bad := ArgumentError(call);
    if bad.Some? then (Err(bad.value), c)
    else
      var refusal := Refusal(digest, c.record, call);
      if refusal.Some? then
        (Err(refusal.value.0), if refusal.value.1.Some? then Reject(c, call.actor, refusal.value.1.value) else c)
      else
        var record := Replaced(digest, c.record, call);
        (Ok(record), c.(record := record))
  }

  /** `RecoveryDeploymentArbiter` */
  class RecoveryDeploymentArbiter {
    const digest: Inputs -> string
    var record: EpochRecord
    var rejections: map<(string, string), nat>

    ghost function State(): Control
      reads this
    {
      Control(record, rejections)
    }

    constructor (digest: Inputs -> string, inputs: Inputs)
      requires inputs.Valid()
      ensures this.digest == digest && State() == Initial(digest, inputs)
    {
      this.digest := digest;
      record := EpochRecord(0, IDLE, "", 0.0, inputs, digest(inputs), None);
      rejections := map[];
    }

    method CountRejection(actor: string, reason: string)
      modifies this`rejections
      ensures State() == Reject(old(State()), actor, reason)
    {
      var tally := 0;
      if (actor, reason) in rejections {
        tally := rejections[(actor, reason)];
      }
      rejections := rejections[(actor, reason) := tally + 1];
    }

    method RequireGeneration(expected: int, actor: string) returns (ok: bool)
      modifies this`rejections
      ensures ok <==> expected == record.generation
      ensures State() == if ok then old(State()) else Reject(old(State()), actor, "stale_generation")
    {
      ok := expected == record.generation;
      if !ok {
        CountRejection(actor, "stale_generation");
      }
    }

    method BeginRecovery(actor: string, expected: int, holder: string, inputs: Inputs, now: real, lease: real)
      returns (r: Result<EpochRecord, ArbitrationError>)
      modifies this
      ensures (r, State()) == Transition(digest, old(State()), Begin(actor, expected, holder, inputs, now, lease))
    {
      if actor != RECOVERY || holder == "" || lease <= 0.0 {
        return Err(NotPermitted);
      }
      if !inputs.Valid() {
        return Err(InvalidInputs);
      }
      var current := RequireGeneration(expected, actor);
      if !current {
        return Err(StaleGeneration);
      }
      if record.state in {RECOVERING, RECOVERY_READY, DEPLOYMENT_ARMED} && now < record.expiry {
        CountRejection(actor, "lease_expired");
        return Err(LeaseActive);
      }
      record := EpochRecord(record.generation + 1, RECOVERING, holder, now + lease, inputs, digest(inputs), None);
      r := Ok(record);
    }

    method MarkRecoveryReady(actor: string, expected: int, holder: string, inputs: Inputs, now: real)
      returns (r: Result<EpochRecord, ArbitrationError>)
      modifies this
      ensures (r, State()) == Transition(digest, old(State()), Ready(actor, expected, holder, inputs, now))
    {
      if actor != RECOVERY {
        return Err(NotPermitted);
      }
      if !inputs.Valid() {
        return Err(InvalidInputs);
      }
      var current := RequireGeneration(expected, actor);
      if !current {
        return Err(StaleGeneration);
      }
      if record.state != RECOVERING || record.holder != holder || now >= record.expiry {
        CountRejection(actor, "lease_expired");
        return Err(NotRecovering);
      }
      if record.inputsDigest != digest(inputs) {
        CountRejection(actor, "input_binding_invalid");
        return Err(BindingChanged);
      }
      record := record.(state := RECOVERY_READY);
      r := Ok(record);
    }

    method ArmDeployment(actor: string, expected: int, inputs: Inputs, now: real)
      returns (r: Result<EpochRecord, ArbitrationError>)
      modifies this
      ensures (r, State()) == Transition(digest, old(State()), Arm(actor, expected, inputs, now))
    {
      if actor != GITOPS {
        return Err(NotPermitted);
      }
      if !inputs.Valid() {
        return Err(InvalidInputs);
      }
      var current := RequireGeneration(expected, actor);
      if !current {
        return Err(StaleGeneration);
      }
      if record.state != RECOVERY_READY || now >= record.expiry {
        CountRejection(actor, "state_not_armed");
        return Err(NotReady);
      }
      if record.inputs.gitRevision != inputs.gitRevision {
        CountRejection(actor, "git_revision_mismatch");
        return Err(RevisionDrifted);
      }
      if record.inputsDigest != digest(inputs) {
        CountRejection(actor, "input_binding_invalid");
        return Err(BindingChanged);
      }
      record := record.(state := DEPLOYMENT_ARMED);
      r := Ok(record);
    }

    method FreezeForRevisionDrift(actor: string, expected: int, observed: string)
      returns (r: Result<EpochRecord, ArbitrationError>)
      modifies this
      ensures (r, State()) == Transition(digest, old(State()), Freeze(actor, expected, observed))
    {
      if (actor != GITOPS && actor != ADMISSION) || observed == "" {
        return Err(NotPermitted);
      }
      var current := RequireGeneration(expected, actor);
      if !current {
        return Err(StaleGeneration);
      }
      if observed == record.inputs.gitRevision {
        return Err(NotDrifted);
      }
      record := record.(state := FROZEN, reason := Some("git_revision_drift"));
      r := Ok(record);
    }
  }
}

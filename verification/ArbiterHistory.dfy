/** The arbiter without its record: which calls it accepts, read off the accepted calls
    alone. */
module ArbiterHistory {
  import opened Arbiter
  import opened ArbiterRuns
  import opened Prelude

  /** Positions of the last accepted recovery, ready, arm and freeze call, or -1. */
  datatype History = History(began: int, readied: int, armed: int, frozen: int)

  function HistoryOf(digest: Inputs -> string, start: Control, calls: seq<Call>): History {
    History(LastAccepted(digest, start, calls, IsBegin), LastAccepted(digest, start, calls, IsReady),
            LastAccepted(digest, start, calls, IsArm), LastAccepted(digest, start, calls, IsFreeze))
  }

  /** The recovery inputs in force: those of the last recovery, or the initial ones. */
  function InForce(initial: Inputs, calls: seq<Call>, began: int): Inputs
    requires -1 <= began < |calls| && (began >= 0 ==> calls[began].Begin?)
  {
    if began < 0 then initial else calls[began].inputs
  }

  predicate Positions(h: History, calls: seq<Call>) {
    && -1 <= h.began < |calls| && -1 <= h.readied < |calls| && -1 <= h.armed < |calls| && -1 <= h.frozen < |calls|
    && (h.began >= 0 ==> calls[h.began].Begin?) && (h.readied >= 0 ==> calls[h.readied].Ready?)
    && (h.armed >= 0 ==> calls[h.armed].Arm?) && (h.frozen >= 0 ==> calls[h.frozen].Freeze?)
  }

  /** The record says what the history says. */
  predicate Reflects(digest: Inputs -> string, initial: Inputs, r: EpochRecord, calls: seq<Call>, h: History)
    requires Positions(h, calls)
  {
    && r.inputs == InForce(initial, calls, h.began) && r.inputsDigest == digest(r.inputs)
    && (h.began >= 0 ==> r.holder == calls[h.began].holder && r.expiry == calls[h.began].now + calls[h.began].lease)
    && r.state == (if h.frozen > h.began then FROZEN
                   else if h.began < 0 then IDLE
                   else if h.armed > h.began then DEPLOYMENT_ARMED
                   else if h.readied > h.began then RECOVERY_READY
                   else RECOVERING)
    && r.reason == (if h.frozen > h.began then Some("git_revision_drift") else None)
    && (h.armed > h.began ==> h.readied > h.began)
    && (h.began < 0 ==> h.readied < 0 && h.armed < 0)
  }

  /** Which call the history admits, while `generation` recoveries were accepted. */
  predicate Admits(digest: Inputs -> string, initial: Inputs, calls: seq<Call>, h: History, generation: int, call: Call)
    requires Positions(h, calls)
  {
    call.expected == generation
    && match call
       case Begin(actor, _, holder, inputs, now, lease) =>
         && actor == "recovery_controller" && holder != "" && lease > 0.0 && inputs.Valid()
         && (h.began < 0 || h.frozen > h.began || calls[h.began].now + calls[h.began].lease <= now)
       case Ready(actor, _, holder, inputs, now) =>
         && actor == "recovery_controller" && inputs.Valid()
         && h.began >= 0 && h.frozen < h.began && h.readied < h.began
         && holder == calls[h.began].holder && now < calls[h.began].now + calls[h.began].lease
         && digest(inputs) == digest(calls[h.began].inputs)
       case Arm(actor, _, inputs, now) =>
         && actor == "gitops_controller" && inputs.Valid()
         && h.began >= 0 && h.frozen < h.began && h.readied > h.began && h.armed < h.began
         && now < calls[h.began].now + calls[h.began].lease
         && inputs.gitRevision == calls[h.began].inputs.gitRevision && digest(inputs) == digest(calls[h.began].inputs)
       case Freeze(actor, _, observed) =>
         && actor in {"gitops_controller", "admission"} && observed != ""
         && observed != InForce(initial, calls, h.began).gitRevision
  }

  lemma AdmitsIff(digest: Inputs -> string, initial: Inputs, c: Control, calls: seq<Call>, h: History, call: Call)
    requires Positions(h, calls) && Reflects(digest, initial, c.record, calls, h)
    ensures Accepted(digest, c, call) <==> Admits(digest, initial, calls, h, c.record.generation, call)
  {
    hide Inputs.Valid;
  }

  /** One more call. */
  function Next(digest: Inputs -> string, c: Control, calls: seq<Call>, h: History, call: Call): History {
    if !Accepted(digest, c, call) then h
    else
      match call
      case Begin(_, _, _, _, _, _) => h.(began := |calls|)
      case Ready(_, _, _, _, _) => h.(readied := |calls|)
      case Arm(_, _, _, _) => h.(armed := |calls|)
      case Freeze(_, _, _) => h.(frozen := |calls|)
  }

  lemma ReflectsStep(digest: Inputs -> string, initial: Inputs, c: Control, calls: seq<Call>, h: History, call: Call)
    requires Positions(h, calls) && Reflects(digest, initial, c.record, calls, h)
    ensures Positions(Next(digest, c, calls, h, call), calls + [call])
    ensures Reflects(digest, initial, Transition(digest, c, call).1.record, calls + [call], Next(digest, c, calls, h, call))
  {
    hide Inputs.Valid;
  }

  lemma HistoryStep(digest: Inputs -> string, start: Control, calls: seq<Call>)
    requires calls != []
    ensures var before, call := calls[..|calls| - 1], calls[|calls| - 1];
            HistoryOf(digest, start, calls) == Next(digest, Run(digest, start, before), before, HistoryOf(digest, start, before), call)
  {
    LastAcceptedStep(digest, start, calls, IsBegin);
    LastAcceptedStep(digest, start, calls, IsReady);
    LastAcceptedStep(digest, start, calls, IsArm);
    LastAcceptedStep(digest, start, calls, IsFreeze);
    hide LastAccepted, Transition, Run;
  }

  /** In every run the record is a function of the accepted calls: who holds which lease
      on which inputs, and the state, by which of them came last. */
  lemma {:induction false} RecordIsHistory(digest: Inputs -> string, initial: Inputs, calls: seq<Call>)
    ensures var start := Initial(digest, initial);
            && Positions(HistoryOf(digest, start, calls), calls)
            && Reflects(digest, initial, Run(digest, start, calls).record, calls, HistoryOf(digest, start, calls))
  {
    if calls != [] {
      hide Reflects, Positions, Transition, Next, HistoryOf;
      var start, before, call := Initial(digest, initial), calls[..|calls| - 1], calls[|calls| - 1];
      RecordIsHistory(digest, initial, before);
      ReflectsStep(digest, initial, Run(digest, start, before), before, HistoryOf(digest, start, before), call);
      HistoryStep(digest, start, calls);
      assert before + [call] == calls;
    }
  }

  /** Exactly which calls are accepted, after any run from the initial record, in terms of
      the calls accepted before: a recovery when no lease of an unfrozen epoch runs, a ready
      call of the holder and an arm call of GitOps once each in this order, within the lease
      and on the inputs in force, and a freeze on any other revision. */
  lemma AcceptedIff(digest: Inputs -> string, initial: Inputs, calls: seq<Call>, call: Call)
    ensures var start, h := Initial(digest, initial), HistoryOf(digest, Initial(digest, initial), calls);
            && Positions(h, calls)
            && (Accepted(digest, Run(digest, start, calls), call)
                <==> Admits(digest, initial, calls, h, BeginCount(digest, start, calls), call))
  {
    var start := Initial(digest, initial);
    RecordIsHistory(digest, initial, calls);
    GenerationCountsRecoveries(digest, start, calls);
    AdmitsIff(digest, initial, Run(digest, start, calls), calls, HistoryOf(digest, start, calls), call);
    hide Reflects, Admits, Run, HistoryOf, Accepted;
  }

  // ----------------------------------------------------------------- refusals

  /** The reason a refusal is counted under; refusals before the lock is taken, and a
      freeze without drift, are not counted. */
  function CountedAs(error: ArbitrationError): Option<string> {
    match error
    case StaleGeneration => Some("stale_generation")
    case LeaseActive => Some("lease_expired")
    case NotRecovering => Some("lease_expired")
    case NotReady => Some("state_not_armed")
    case RevisionDrifted => Some("git_revision_mismatch")
    case BindingChanged => Some("input_binding_invalid")
    case _ => None
  }

  /** A refused call leaves the record and moves exactly the counter of its actor and
      reason, by one; an accepted one moves none. */
  lemma RefusalsAreCountedOnce(digest: Inputs -> string, c: Control, call: Call, actor: string, reason: string)
    ensures var (r, after) := Transition(digest, c, call);
            && (r.Err? ==> after.record == c.record)
            && Rejections(after, actor, reason)
               == Rejections(c, actor, reason) + if r.Err? && CountedAs(r.error) == Some(reason) && call.actor == actor then 1 else 0
  {
    hide Inputs.Valid;
  }
}

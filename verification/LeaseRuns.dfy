/** What holds of the lease ledger after every sequence of transactions. */
module LeaseRuns {
  import opened LeaseLedger
  import opened Prelude

  datatype Op =
    | OpRegister(key: string, payload: string, now: int)
    | OpAcquire(worker: string, leaseNs: int, now: int)
    | OpHeartbeat(lease: Lease, leaseNs: int, now: int)
    | OpComplete(lease: Lease, commit: Commit, now: int)
    | OpRetry(lease: Lease, error: string, maxAttempts: int, now: int)

  ghost function Step(rows: Rows, op: Op): Rows {
    match op
    case OpRegister(k, p, now) => Register(rows, k, p, now).1
    case OpAcquire(w, d, now) => Acquire(rows, w, d, now).1
    case OpHeartbeat(l, d, now) => Heartbeat(rows, l, d, now).1
    case OpComplete(l, c, now) => Complete(rows, l, c, now).1
    case OpRetry(l, e, m, now) => Retry(rows, l, e, m, now).1
  }

  ghost function Run(start: Rows, ops: seq<Op>): Rows {
    if ops == [] then start else Step(Run(start, ops[..|ops| - 1]), ops[|ops| - 1])
  }

  // ----------------------------------------------------- what a step may do

  /** The operation leased `key` out. */
  ghost predicate Grants(rows: Rows, op: Op, key: string) {
    op.OpAcquire? && Acquire(rows, op.worker, op.leaseNs, op.now).0.Some?
    && Acquire(rows, op.worker, op.leaseNs, op.now).0.value.jobKey == key
  }

  predicate Completes(rows: Rows, op: Op, key: string) {
    op.OpComplete? && Complete(rows, op.lease, op.commit, op.now).0.Ok? && op.lease.jobKey == key
  }

  predicate Returns(rows: Rows, op: Op, key: string) {
    op.OpRetry? && Retry(rows, op.lease, op.error, op.maxAttempts, op.now).0.Ok? && op.lease.jobKey == key
  }

  /** Everything a step can do to one job. */
  lemma StepShape(rows: Rows, op: Op, key: string)
    ensures key in rows ==>
              && key in Step(rows, op) && Step(rows, op)[key].payload == rows[key].payload
              && (Grants(rows, op, key) ==>
                    && Eligible(rows[key], op.now)
                    && Step(rows, op)[key] == Leased(rows[key], op.worker, op.now + op.leaseNs, op.now))
              && (Completes(rows, op, key) ==> rows[key].status == LEASED && Step(rows, op)[key].status == COMPLETE)
              && (Returns(rows, op, key) ==> rows[key].status == LEASED && Step(rows, op)[key].status in {RETRY, QUARANTINED})
              && (!Grants(rows, op, key) ==> Step(rows, op)[key].attempt == rows[key].attempt && Step(rows, op)[key].worker == rows[key].worker)
              && (!Grants(rows, op, key) && !Completes(rows, op, key) && !Returns(rows, op, key) ==> Step(rows, op)[key].status == rows[key].status)
              && (rows[key].status in {COMPLETE, QUARANTINED} ==> Step(rows, op)[key] == rows[key])
    ensures key !in rows && key in Step(rows, op) ==> Step(rows, op)[key].attempt == 0 && Step(rows, op)[key].status == PENDING
    ensures key !in rows ==> !Grants(rows, op, key) && !Completes(rows, op, key) && !Returns(rows, op, key)
  {
  }

  // ------------------------------------------------------------------ tokens

  ghost function GrantCount(start: Rows, ops: seq<Op>, key: string): nat {
    if ops == [] then 0
    else
      var before := ops[..|ops| - 1];
      GrantCount(start, before, key) + if Grants(Run(start, before), ops[|ops| - 1], key) then 1 else 0
  }

  function Attempt(rows: Rows, key: string): nat {
    if key in rows then rows[key].attempt else 0
  }

  /** A job's attempt number counts the times it was leased out. */
  lemma {:induction false} AttemptCountsGrants(start: Rows, ops: seq<Op>, key: string)
    ensures Attempt(Run(start, ops), key) == Attempt(start, key) + GrantCount(start, ops, key)
  {
    if ops != [] {
      var before := ops[..|ops| - 1];
      AttemptCountsGrants(start, before, key);
      StepShape(Run(start, before), ops[|ops| - 1], key);
      hide Step, Grants;
    }
  }

  /** No (job, attempt) pair is handed out twice: a later lease of a job carries a
      strictly larger attempt. */
  lemma TokensAreUnique(rows: Rows, first: Op, between: seq<Op>, second: Op, key: string)
    requires Grants(rows, first, key) && Grants(Run(Step(rows, first), between), second, key)
    ensures Acquire(rows, first.worker, first.leaseNs, first.now).0.value.attempt
            < Acquire(Run(Step(rows, first), between), second.worker, second.leaseNs, second.now).0.value.attempt
  {
    StepShape(rows, first, key);
    AttemptCountsGrants(Step(rows, first), between, key);
    StepShape(Run(Step(rows, first), between), second, key);
  }

  // --------------------------------------------------------------- ownership

  ghost predicate Supersedes(rows: Rows, op: Op, key: string) {
    Grants(rows, op, key) || Completes(rows, op, key) || Returns(rows, op, key)
  }

  ghost predicate SupersededIn(start: Rows, ops: seq<Op>, key: string) {
    exists i :: 0 <= i < |ops| && Supersedes(Run(start, ops[..i]), ops[i], key)
  }

  lemma SupersededStep(start: Rows, ops: seq<Op>, key: string)
    requires ops != []
    ensures SupersededIn(start, ops, key) <==>
            SupersededIn(start, ops[..|ops| - 1], key) || Supersedes(Run(start, ops[..|ops| - 1]), ops[|ops| - 1], key)
  {
    hide Supersedes, Run, Step;
    var before := ops[..|ops| - 1];
    assert forall i :: 0 <= i < |before| ==> before[..i] == ops[..i] && before[i] == ops[i];
    if SupersededIn(start, before, key) {
      var i :| 0 <= i < |before| && Supersedes(Run(start, before[..i]), before[i], key);
      assert Supersedes(Run(start, ops[..i]), ops[i], key);
    }
  }

  lemma OwnershipStep(rows: Rows, op: Op, lease: Lease)
    requires lease.jobKey in rows && rows[lease.jobKey].attempt >= lease.attempt
    ensures lease.jobKey in Step(rows, op) && Step(rows, op)[lease.jobKey].attempt >= lease.attempt
    ensures Owns(Step(rows, op), lease) <==> Owns(rows, lease) && !Supersedes(rows, op, lease.jobKey)
  {
    StepShape(rows, op, lease.jobKey);
    hide Step, Grants, Completes, Returns;
  }

  lemma {:induction false} OwnershipUntilSuperseded(start: Rows, ops: seq<Op>, lease: Lease)
    requires Owns(start, lease)
    ensures lease.jobKey in Run(start, ops) && Run(start, ops)[lease.jobKey].attempt >= lease.attempt
    ensures Owns(Run(start, ops), lease) <==> !SupersededIn(start, ops, lease.jobKey)
  {
    if ops != [] {
      var before := ops[..|ops| - 1];
      OwnershipUntilSuperseded(start, before, lease);
      OwnershipStep(Run(start, before), ops[|ops| - 1], lease);
      SupersededStep(start, ops, lease.jobKey);
    }
  }

  /** Exactly how long a lease works, whatever the clock says: from its grant until the
      job is leased again, completed or returned. So a superseded worker can never act,
      and an expired lease that nobody has taken over still can. */
  lemma LeaseActsUntilSuperseded(rows: Rows, grant: Op, between: seq<Op>, key: string, commit: Commit, now: int)
    requires Grants(rows, grant, key) && Named(commit)
    ensures var lease := Acquire(rows, grant.worker, grant.leaseNs, grant.now).0.value;
            var later := Run(Step(rows, grant), between);
            && (Complete(later, lease, commit, now).0.Ok? <==> !SupersededIn(Step(rows, grant), between, key))
            && (Heartbeat(later, lease, now, now).0.Ok? <==> !SupersededIn(Step(rows, grant), between, key))
            && (forall error, most :: Retry(later, lease, error, most, now).0.Ok? <==> !SupersededIn(Step(rows, grant), between, key))
  {
    var lease := Acquire(rows, grant.worker, grant.leaseNs, grant.now).0.value;
    assert Owns(Step(rows, grant), lease);
    OwnershipUntilSuperseded(Step(rows, grant), between, lease);
  }

  /** The module's own description says a worker owns a job only while its lease is
      fresh; a run in which a lease that expired long ago completes the job. */
  lemma ExpiredLeaseCompletes(commit: Commit)
    requires Named(commit)
    ensures var rows := Run(map[], [OpRegister("job", "{}", 0), OpAcquire("w", 1, 10)]);
            var lease := Lease("job", "w", 1, 11, "{}");
            && lease.leaseUntil < 1000
            && Complete(rows, lease, commit, 1000).0.Ok?
            && Complete(rows, lease, commit, 1000).1["job"].status == COMPLETE
  {
    var one := [OpRegister("job", "{}", 0)];
    var two := [OpRegister("job", "{}", 0), OpAcquire("w", 1, 10)];
    assert two[..1] == one && one[..0] == [];
    var registered := Run(map[], one);
    assert registered == map["job" := Job("{}", PENDING, 0, None, None, None, None, 0)];
    assert Eligible(registered["job"], 10);
    assert AnyEligible(registered, 10);
    assert NextJob(registered, 10) == "job";
    assert Run(map[], two) == Step(registered, two[1]);
  }

  // ----------------------------------------------------------- finished jobs

  /** A completed or quarantined row never changes again. */
  lemma {:induction false} FinishedJobsNeverChange(start: Rows, ops: seq<Op>, key: string)
    requires key in start && start[key].status in {COMPLETE, QUARANTINED}
    ensures key in Run(start, ops) && Run(start, ops)[key] == start[key]
  {
    if ops != [] {
      var before := ops[..|ops| - 1];
      FinishedJobsNeverChange(start, before, key);
      StepShape(Run(start, before), ops[|ops| - 1], key);
    }
  }

  ghost function CompleteCount(start: Rows, ops: seq<Op>, key: string): nat {
    if ops == [] then 0
    else
      var before := ops[..|ops| - 1];
      CompleteCount(start, before, key) + if Completes(Run(start, before), ops[|ops| - 1], key) then 1 else 0
  }

  /** In any run at most one completion of a job succeeds, and exactly one has when the
      job is complete. */
  lemma {:induction false} AtMostOneCompletion(ops: seq<Op>, key: string)
    ensures CompleteCount(map[], ops, key)
            == if key in Run(map[], ops) && Run(map[], ops)[key].status == COMPLETE then 1 else 0
  {
    if ops != [] {
      var before := ops[..|ops| - 1];
      AtMostOneCompletion(before, key);
      StepShape(Run(map[], before), ops[|ops| - 1], key);
      hide Step, Completes, Grants, Returns;
    }
  }

  /** A registered payload is there for good, and only that payload registers again. */
  lemma {:induction false} PayloadIsPermanent(start: Rows, ops: seq<Op>, key: string, payload: string, now: int)
    requires key in start
    ensures key in Run(start, ops) && Run(start, ops)[key].payload == start[key].payload
    ensures Register(Run(start, ops), key, payload, now)
            == (if payload == start[key].payload then Ok(()) else Err(PayloadConflict), Run(start, ops))
  {
    if ops != [] {
      var before := ops[..|ops| - 1];
      PayloadIsPermanent(start, before, key, payload, now);
      StepShape(Run(start, before), ops[|ops| - 1], key);
    }
  }
}

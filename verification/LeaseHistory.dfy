/** The rows of the lease ledger, read off the calls: when a job can be taken, which one is,
    and what each call of an owner leaves. */
module LeaseHistory {
  import opened LeaseLedger
  import opened LeaseRuns
  import opened Ordering
  import opened Prelude

  // ------------------------------------------------------------- which job

  /** Whoever acquires gets a job that waits or whose lease ran out before now, namely the one
      untouched for longest, of equals the first by key; and nothing only if there is none. */
  lemma OldestJobIsTaken(rows: Rows, worker: string, leaseNs: int, now: int)
    ensures var (lease, after) := Acquire(rows, worker, leaseNs, now);
            && (lease.None? <==> forall k :: k in rows ==> !Waits(rows[k], now))
            && (lease.None? ==> after == rows)
            && (lease.Some? ==>
                  var k := lease.value.jobKey;
                  && k in rows && Waits(rows[k], now)
                  && (forall j :: j in rows && Waits(rows[j], now) && j != k ==>
                        rows[k].updated < rows[j].updated || (rows[k].updated == rows[j].updated && LexLe(k, j)))
                  && lease.value == Lease(k, worker, rows[k].attempt + 1, now + leaseNs, rows[k].payload)
                  && after == rows[k := Job(rows[k].payload, LEASED, rows[k].attempt + 1, Some(worker), Some(now + leaseNs), rows[k].commit, None, now)])
  {
    forall k | k in rows ensures Eligible(rows[k], now) <==> Waits(rows[k], now) {}
    hide LexLe;
  }

  /** Registered or returned, or leased until before `now`. */
  predicate Waits(job: Job, now: int) {
    match job.status
    case PENDING => true
    case RETRY => true
    case LEASED => job.leaseUntil.Some? && job.leaseUntil.value < now
    case COMPLETE => false
    case QUARANTINED => false
  }

  // ---------------------------------------------------------- how long a lease runs

  /** The end of a lease granted until `until`: moved by every accepted heartbeat. */
  ghost function RunsUntil(start: Rows, ops: seq<Op>, key: string, until: int): int {
    if ops == [] then until
    else
      var before, op := ops[..|ops| - 1], ops[|ops| - 1];
      if op.OpHeartbeat? && op.lease.jobKey == key && Heartbeat(Run(start, before), op.lease, op.leaseNs, op.now).0.Ok? then op.now + op.leaseNs
      else RunsUntil(start, before, key, until)
  }

  lemma LeasedRowStep(rows: Rows, op: Op, key: string)
    requires key in rows && rows[key].status == LEASED && !Supersedes(rows, op, key)
    ensures key in Step(rows, op)
    ensures var renewed := op.OpHeartbeat? && op.lease.jobKey == key && Heartbeat(rows, op.lease, op.leaseNs, op.now).0.Ok?;
            Step(rows, op)[key] == if renewed then rows[key].(leaseUntil := Some(op.now + op.leaseNs), updated := op.now) else rows[key]
  {
  }

  lemma {:induction false} LeaseRunsOn(start: Rows, ops: seq<Op>, key: string, until: int)
    requires key in start && start[key].status == LEASED && start[key].leaseUntil == Some(until) && !SupersededIn(start, ops, key)
    ensures key in Run(start, ops) && Run(start, ops)[key].status == LEASED
    ensures Run(start, ops)[key].leaseUntil == Some(RunsUntil(start, ops, key, until))
  {
    if ops != [] {
      var before := ops[..|ops| - 1];
      SupersededStep(start, ops, key);
      LeaseRunsOn(start, before, key, until);
      LeasedRowStep(Run(start, before), ops[|ops| - 1], key);
      hide Step, Supersedes, SupersededIn;
    }
  }

  lemma GrantedRow(rows: Rows, grant: Op, key: string)
    requires Grants(rows, grant, key)
    ensures key in Step(rows, grant) && Step(rows, grant)[key].status == LEASED
    ensures Step(rows, grant)[key].leaseUntil == Some(grant.now + grant.leaseNs)
  {
    OldestJobIsTaken(rows, grant.worker, grant.leaseNs, grant.now);
    hide Acquire;
  }

  /** A leased job waits again exactly when the last accepted heartbeat, or the grant, ran
      out before now; until it is taken, completed or returned nothing else frees it. */
  lemma LeasedJobWaitsIff(rows: Rows, grant: Op, between: seq<Op>, key: string, now: int)
    requires Grants(rows, grant, key) && !SupersededIn(Step(rows, grant), between, key)
    ensures var later := Run(Step(rows, grant), between);
            && key in later
            && (Waits(later[key], now) <==> RunsUntil(Step(rows, grant), between, key, grant.now + grant.leaseNs) < now)
  {
    GrantedRow(rows, grant, key);
    hide Grants, Step;
    LeaseRunsOn(Step(rows, grant), between, key, grant.now + grant.leaseNs);
    hide Run, SupersededIn, RunsUntil;
  }

  // ------------------------------------------------------ what an owner's call leaves

  /** Returning a job quarantines it exactly when it has been leased out at least as often
      as attempts are allowed; else it waits again. The error is kept, clipped. */
  lemma ReturnedJobIsQuarantinedIff(ops: seq<Op>, lease: Lease, error: string, maxAttempts: int, now: int)
    requires Retry(Run(map[], ops), lease, error, maxAttempts, now).0.Ok?
    ensures var rows, key := Run(map[], ops), lease.jobKey;
            && key in rows
            && var after := Retry(rows, lease, error, maxAttempts, now).1;
            && key in after && (after[key].status == QUARANTINED || after[key].status == RETRY)
            && (after[key].status == QUARANTINED <==> GrantCount(map[], ops, key) >= maxAttempts)
            && after[key].error == Some(if |error| <= 2048 then error else error[..2048])
            && after == rows[key := rows[key].(status := after[key].status, error := after[key].error, leaseUntil := None, updated := now)]
  {
    AttemptCountsGrants(map[], ops, lease.jobKey);
  }

  /** Completing a job stores the reference, and is refused for an incomplete one. */
  lemma CompletedJobKeepsItsCommit(rows: Rows, lease: Lease, commit: Commit, now: int)
    ensures var (r, after) := Complete(rows, lease, commit, now);
            && (commit.artifactSha == "" || commit.metadataSha == "" || commit.remoteUri == "" <==> r == Err(IncompleteCommit))
            && (r.Err? ==> after == rows)
            && (r.Ok? ==>
                  lease.jobKey in rows
                  && after == rows[lease.jobKey := rows[lease.jobKey].(status := COMPLETE, commit := Some(commit), leaseUntil := None, updated := now)])
  {
  }

  /** A heartbeat moves the end of the lease, in the row and in the worker's hand alike. */
  lemma HeartbeatMovesBothEnds(rows: Rows, lease: Lease, leaseNs: int, now: int)
    ensures var (r, after) := Heartbeat(rows, lease, leaseNs, now);
            && (r.Err? ==> after == rows)
            && (r.Ok? ==>
                  && lease.jobKey in rows && r.value == lease.(leaseUntil := now + leaseNs)
                  && after == rows[lease.jobKey := rows[lease.jobKey].(leaseUntil := Some(r.value.leaseUntil), updated := now)])
  {
  }

  // ------------------------------------------------------------ who may call

  /** The worker a job was last leased to, until it is completed or returned. */
  ghost function HolderOf(start: Rows, ops: seq<Op>, key: string): Option<string> {
    if ops == [] then None
    else
      var before, op := ops[..|ops| - 1], ops[|ops| - 1];
      if Grants(Run(start, before), op, key) then Some(op.worker)
      else if Completes(Run(start, before), op, key) || Returns(Run(start, before), op, key) then None
      else HolderOf(start, before, key)
  }

  lemma {:induction false} RowNamesTheHolder(ops: seq<Op>, key: string)
    ensures HolderOf(map[], ops, key)
            == if key in Run(map[], ops) && Run(map[], ops)[key].status == LEASED then Run(map[], ops)[key].worker else None
    ensures key in Run(map[], ops) && Run(map[], ops)[key].status == LEASED ==> Run(map[], ops)[key].worker.Some?
  {
    if ops != [] {
      var before := ops[..|ops| - 1];
      RowNamesTheHolder(before, key);
      StepShape(Run(map[], before), ops[|ops| - 1], key);
      hide Step, Grants, Completes, Returns;
    }
  }

  /** A call for a job is accepted exactly from the worker it was last leased to, with the
      number of that lease, until the job is completed or returned. */
  lemma OnlyTheHolderActs(ops: seq<Op>, lease: Lease, commit: Commit, error: string, most: int, leaseNs: int, now: int)
    requires Named(commit)
    ensures var rows := Run(map[], ops);
            var holds := HolderOf(map[], ops, lease.jobKey) == Some(lease.worker) && lease.attempt == GrantCount(map[], ops, lease.jobKey);
            && (Heartbeat(rows, lease, leaseNs, now).0.Ok? <==> holds)
            && (Complete(rows, lease, commit, now).0.Ok? <==> holds)
            && (Retry(rows, lease, error, most, now).0.Ok? <==> holds)
  {
    RowNamesTheHolder(ops, lease.jobKey);
    AttemptCountsGrants(map[], ops, lease.jobKey);
    hide Run, HolderOf, GrantCount;
  }

  /** A new job waits from now on, never leased; a known one is not touched. */
  lemma RegisteredJobWaits(rows: Rows, key: string, payload: string, now: int)
    ensures var (r, after) := Register(rows, key, payload, now);
            && (r.Ok? <==> key in rows ==> rows[key].payload == payload)
            && after == (if key in rows then rows else rows[key := Job(payload, PENDING, 0, None, None, None, None, now)])
            && (key !in rows ==> key in after && forall t :: Waits(after[key], t))
  {
  }
}

/** The lease ledger of simulation jobs: one row per job, changed by short transactions.
    The clock is an input of each transaction. */
module LeaseLedger {
  import opened Ordering
  import opened Prelude

  // -------------------------------------------------------------- data model

  datatype Status = PENDING | LEASED | RETRY | COMPLETE | QUARANTINED

  datatype Commit = Commit(artifactSha: string, metadataSha: string, remoteUri: string)

  datatype Job = Job(
    payload: string, status: Status, attempt: nat, worker: Option<string>, leaseUntil: Option<int>,
    commit: Option<Commit>, error: Option<string>, updated: int)

  /** Table `sim_jobs` by its primary key. */
  type Rows = map<string, Job>

  datatype Lease = Lease(jobKey: string, worker: string, attempt: nat, leaseUntil: int, payload: string)

  datatype LedgerError = PayloadConflict | LeaseLost | IncompleteCommit

  // ------------------------------------------------------------- transactions

  function Register(rows: Rows, key: string, payload: string, now: int): (Result<(), LedgerError>, Rows) {
    if key !in rows then (Ok(()), rows[key := Job(payload, PENDING, 0, None, None, None, None, now)])
    else if rows[key].payload != payload then (Err(PayloadConflict), rows)
    else (Ok(()), rows)
  }

  /** The WHERE clause of `acquire`. */
  predicate Eligible(job: Job, now: int) {
    job.status == PENDING || job.status == RETRY || (job.status == LEASED && job.leaseUntil.Some? && job.leaseUntil.value < now)
  }

  /** ORDER BY updated_ns, job_key */
  predicate Precedes(rows: Rows, j: string, k: string)
    requires j in rows && k in rows
  {
    rows[j].updated < rows[k].updated || (rows[j].updated == rows[k].updated && LexLe(j, k))
  }

  /** The row the query of `acquire` returns. */
  ghost predicate IsNext(rows: Rows, now: int, j: string) {
    && j in rows && Eligible(rows[j], now)
    && forall k :: k in rows && Eligible(rows[k], now) ==> Precedes(rows, j, k)
  }

  ghost predicate AnyEligible(rows: Rows, now: int) {
    exists k :: k in rows && Eligible(rows[k], now)
  }

  ghost function NextJob(rows: Rows, now: int): (j: string)
    requires AnyEligible(rows, now)
    ensures IsNext(rows, now, j)
  {
    NextExists(rows, now, set k | k in rows && Eligible(rows[k], now));
    var j :| IsNext(rows, now, j);
    j
  }

  lemma PrecedesTransitive(rows: Rows, i: string, j: string, k: string)
    requires i in rows && j in rows && k in rows && Precedes(rows, i, j) && Precedes(rows, j, k)
    ensures Precedes(rows, i, k)
  {
    if rows[i].updated == rows[j].updated == rows[k].updated { LexTransitive(i, j, k); }
  }

  lemma {:induction false} LeastExists(rows: Rows, keys: set<string>) returns (j: string)
    requires keys != {} && forall k :: k in keys ==> k in rows
    ensures j in keys && forall k :: k in keys ==> Precedes(rows, j, k)
    decreases |keys|
  {
    var x :| x in keys;
    LexTotal(x, x);
    if keys == {x} {
      j := x;
    } else {
      var rest := LeastExists(rows, keys - {x});
      LexTotal(x, rest);
      j := if Precedes(rows, x, rest) then x else rest;
      forall k | k in keys ensures Precedes(rows, j, k) {
        if k != x && j == x { PrecedesTransitive(rows, x, rest, k); }
      }
    }
  }

  lemma NextExists(rows: Rows, now: int, keys: set<string>)
    requires AnyEligible(rows, now) && keys == set k | k in rows && Eligible(rows[k], now)
    ensures exists j :: IsNext(rows, now, j)
  {
    var some :| some in rows && Eligible(rows[some], now);
    assert some in keys;
    var j := LeastExists(rows, keys);
    assert IsNext(rows, now, j);
  }

  /** The query's order leaves no choice. */
  lemma NextIsUnique(rows: Rows, now: int, i: string, j: string)
    requires IsNext(rows, now, i) && IsNext(rows, now, j)
    ensures i == j
  {
    LexTotal(i, j);
  }

  function Leased(job: Job, worker: string, until: int, now: int): Job {
    job.(status := LEASED, attempt := job.attempt + 1, worker := Some(worker), leaseUntil := Some(until), error := None, updated := now)
  }

  ghost function Acquire(rows: Rows, worker: string, leaseNs: int, now: int): (Option<Lease>, Rows) {
    if !AnyEligible(rows, now) then (None, rows)
    else
      var k := NextJob(rows, now);
      (Some(Lease(k, worker, rows[k].attempt + 1, now + leaseNs, rows[k].payload)),
       rows[k := Leased(rows[k], worker, now + leaseNs, now)])
  }

  /** The WHERE clause of `heartbeat`, `complete` and `retry`. It reads no clock. */
  predicate Owns(rows: Rows, lease: Lease) {
    && lease.jobKey in rows
    && rows[lease.jobKey].status == LEASED
    && rows[lease.jobKey].worker == Some(lease.worker)
    && rows[lease.jobKey].attempt == lease.attempt
  }

  function Heartbeat(rows: Rows, lease: Lease, leaseNs: int, now: int): (Result<Lease, LedgerError>, Rows) {
    if !Owns(rows, lease) then (Err(LeaseLost), rows)
    else (Ok(lease.(leaseUntil := now + leaseNs)),
          rows[lease.jobKey := rows[lease.jobKey].(leaseUntil := Some(now + leaseNs), updated := now)])
  }

  predicate Named(commit: Commit) {
    commit.artifactSha != "" && commit.metadataSha != "" && commit.remoteUri != ""
  }

  function Complete(rows: Rows, lease: Lease, commit: Commit, now: int): (Result<(), LedgerError>, Rows) {
    if !Named(commit) then (Err(IncompleteCommit), rows)
    else if !Owns(rows, lease) then (Err(LeaseLost), rows)
    else (Ok(()), rows[lease.jobKey := rows[lease.jobKey].(status := COMPLETE, commit := Some(commit), leaseUntil := None, updated := now)])
  }

  const ERROR_LENGTH := 2048

  function Clipped(error: string): string {
    if |error| > ERROR_LENGTH then error[..ERROR_LENGTH] else error
  }

  function Retry(rows: Rows, lease: Lease, error: string, maxAttempts: int, now: int): (Result<(), LedgerError>, Rows) {
    if !Owns(rows, lease) then (Err(LeaseLost), rows)
    else (Ok(()), rows[lease.jobKey := rows[lease.jobKey].(
                         status := if lease.attempt < maxAttempts then RETRY else QUARANTINED,
                         leaseUntil := None, error := Some(Clipped(error)), updated := now)])
  }

  // ------------------------------------------------------------------- class

  /** `LeaseLedger` */
  class Ledger {
    var rows: Rows

    constructor ()
      ensures rows == map[]
    {
      rows := map[];
    }

    method RegisterJob(key: string, payload: string, now: int) returns (r: Result<(), LedgerError>)
      modifies this`rows
      ensures (r, rows) == Register(old(rows), key, payload, now)
    {
      if key !in rows {
        rows := rows[key := Job(payload, PENDING, 0, None, None, None, None, now)];
      } else if rows[key].payload != payload {
        return Err(PayloadConflict);
      }
      r := Ok(());
    }

    method AcquireJob(worker: string, leaseNs: int, now: int) returns (lease: Option<Lease>)
      modifies this`rows
      ensures (lease, rows) == Acquire(old(rows), worker, leaseNs, now)
    {
      var eligible := set k | k in rows && Eligible(rows[k], now);
      if eligible == {} {
        assert !AnyEligible(rows, now) by {
          assert forall k :: k in rows && Eligible(rows[k], now) ==> k in eligible;
        }
        return None;
      }
      assert AnyEligible(rows, now) by {
        var some :| some in eligible;
      }
      NextExists(rows, now, eligible);
      assert exists j :: j in eligible && forall k :: k in eligible ==> Precedes(rows, j, k) by {
        var j :| IsNext(rows, now, j);
        assert j in eligible;
      }
      var key: string :| key in eligible && forall k :: k in eligible ==> Precedes(rows, key, k);
      assert IsNext(rows, now, key);
      NextIsUnique(rows, now, key, NextJob(rows, now));
      var attempt := rows[key].attempt + 1;
      lease := Some(Lease(key, worker, attempt, now + leaseNs, rows[key].payload));
      rows := rows[key := rows[key].(status := LEASED, attempt := attempt, worker := Some(worker),
                                     leaseUntil := Some(now + leaseNs), error := None, updated := now)];
    }

    method HeartbeatLease(lease: Lease, leaseNs: int, now: int) returns (r: Result<Lease, LedgerError>)
      modifies this`rows
      ensures (r, rows) == Heartbeat(old(rows), lease, leaseNs, now)
    {
      if !Owns(rows, lease) {
        return Err(LeaseLost);
      }
      rows := rows[lease.jobKey := rows[lease.jobKey].(leaseUntil := Some(now + leaseNs), updated := now)];
      r := Ok(Lease(lease.jobKey, lease.worker, lease.attempt, now + leaseNs, lease.payload));
    }

    method CompleteJob(lease: Lease, commit: Commit, now: int) returns (r: Result<(), LedgerError>)
      modifies this`rows
      ensures (r, rows) == Complete(old(rows), lease, commit, now)
    {
      if !Named(commit) {
        return Err(IncompleteCommit);
      }
      if !Owns(rows, lease) {
        return Err(LeaseLost);
      }
      rows := rows[lease.jobKey := rows[lease.jobKey].(status := COMPLETE, commit := Some(commit), leaseUntil := None, updated := now)];
      r := Ok(());
    }

    method RetryJob(lease: Lease, error: string, maxAttempts: int, now: int) returns (r: Result<(), LedgerError>)
      modifies this`rows
      ensures (r, rows) == Retry(old(rows), lease, error, maxAttempts, now)
    {
      if !Owns(rows, lease) {
        return Err(LeaseLost);
      }
      var next := if lease.attempt < maxAttempts then RETRY else QUARANTINED;
      rows := rows[lease.jobKey := rows[lease.jobKey].(status := next, leaseUntil := None, error := Some(Clipped(error)), updated := now)];
      r := Ok(());
    }
  }
}

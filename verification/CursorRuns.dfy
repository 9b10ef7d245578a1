/** What holds of the cursor ledger after every sequence of transactions, successful
    or refused, by any mix of runs, worker groups and manifests. */
module CursorRuns {
  import opened Prelude
  import opened CursorLedger

  // -------------------------------------------------------------------- runs

  datatype Op =
    | OpBootstrap(runKey: string, manifest: Manifest, checkpoint: Checkpoint, identity: Identity)
    | OpPrepare(runKey: string, manifest: Manifest, plan: Plan, identity: Identity, freshId: string)
    | OpAbort(id: string, reason: string)
    | OpRecover(runKey: string, manifest: Manifest, identity: Identity, reason: string)
    | OpCommit(id: string, manifest: Manifest, checkpoint: Checkpoint, identity: Identity, files: map<string, string>)

  function Apply(h: Hashes, rows: Rows, op: Op): Rows {
    match op
    case OpBootstrap(r, m, c, i) => Bootstrap(h, rows, r, m, c, i).rows
    case OpPrepare(r, m, p, i, f) => Prepare(h, rows, r, m, p, i, f).rows
    case OpAbort(id, why) => Abort(rows, id, why).rows
    case OpRecover(r, m, i, why) => Recover(h, rows, r, m, i, why).rows
    case OpCommit(id, m, c, i, fs) => Commit(h, rows, id, m, c, i, fs).rows
  }

  /** The tables after `ops`, starting from an empty ledger. */
  function Run(h: Hashes, ops: seq<Op>): Rows {
    if ops == [] then Rows(map[], map[])
    else Apply(h, Run(h, ops[..|ops| - 1]), ops[|ops| - 1])
  }

  predicate Commits(h: Hashes, rows: Rows, op: Op, runKey: string) {
    && op.OpCommit? && Commit(h, rows, op.id, op.manifest, op.checkpoint, op.identity, op.files).outcome.Ok?
    && rows.attempts[op.id].runKey == runKey
  }

  /** The attempts `runKey` committed, in the order in which it committed them. */
  function CommitLog(h: Hashes, ops: seq<Op>, runKey: string): seq<string> {
    if ops == [] then []
    else
      var before, op := ops[..|ops| - 1], ops[|ops| - 1];
      var log := CommitLog(h, before, runKey);
      if Commits(h, Run(h, before), op, runKey) then log + [op.id] else log
  }

  /** The manifests the callers presented. */
  ghost function Presented(ops: seq<Op>): set<Manifest> {
    set i | 0 <= i < |ops| && !ops[i].OpAbort? :: ops[i].manifest
  }

  predicate Raises(h: Hashes, rows: Rows, op: Op) {
    match op
    case OpBootstrap(r, m, c, i) => Bootstrap(h, rows, r, m, c, i).outcome.Err?
    case OpPrepare(r, m, p, i, f) => Prepare(h, rows, r, m, p, i, f).outcome.Err?
    case OpAbort(id, why) => Abort(rows, id, why).outcome.Err?
    case OpRecover(r, m, i, why) => Recover(h, rows, r, m, i, why).outcome.Err?
    case OpCommit(id, m, c, i, fs) => Commit(h, rows, id, m, c, i, fs).outcome.Err?
  }

  /** A transaction that raises leaves both tables as they were. */
  lemma RaisingChangesNothing(h: Hashes, rows: Rows, op: Op)
    requires Raises(h, rows, op)
    ensures Apply(h, rows, op) == rows
  {
  }

  // -------------------------------------------------------------- invariants

  ghost predicate Known(rows: Rows, log: seq<string>) {
    forall i :: 0 <= i < |log| ==> log[i] in rows.attempts
  }

  /** End of the range consumed by the first `k` attempts of `log`. */
  ghost function EndAt(rows: Rows, log: seq<string>, k: nat): nat
    requires k <= |log| && Known(rows, log)
  {
    if k == 0 then 0 else rows.attempts[log[k - 1]].endOffset
  }

  ghost predicate IsCommitted(rows: Rows, runKey: string, id: string) {
    id in rows.attempts && rows.attempts[id].runKey == runKey && rows.attempts[id].status == COMMITTED
  }

  /** Exactly the attempts in `log` are committed, each once, and their ranges lie
      end to end from offset 0. */
  ghost predicate Tiles(rows: Rows, log: seq<string>, runKey: string) {
    && Known(rows, log)
    && (forall i :: 0 <= i < |log| ==> IsCommitted(rows, runKey, log[i]))
    && (log != [] ==> rows.attempts[log[0]].startOffset == 0)
    && (forall i, j :: 0 <= i < j < |log| && j == i + 1 ==>
          rows.attempts[log[j]].startOffset == rows.attempts[log[i]].endOffset)
    && (forall id :: IsCommitted(rows, runKey, id) ==> id in log)
    && Distinct(log)
  }

  /** Whoever is prepared extends the current commit, and is alone in that. */
  ghost predicate Fenced(rows: Rows, runKey: string)
    requires runKey in rows.cursors
  {
    && (forall id :: IsPrepared(rows, runKey, id) ==>
          && rows.attempts[id].parentCommitId == rows.cursors[runKey].commitId
          && rows.attempts[id].startOffset == rows.cursors[runKey].nextOffset)
    && (forall x, y :: IsPrepared(rows, runKey, x) && IsPrepared(rows, runKey, y) ==> x == y)
  }

  /** An attempt's plan is a rearrangement of the range it reserved. */
  ghost predicate WellReserved(a: Attempt) {
    && a.startOffset < a.endOffset == a.startOffset + |a.reserved|
    && multiset(a.plan.AllIds()) == multiset(a.reserved)
  }

  ghost predicate Inv(rows: Rows, log: seq<string>, runKey: string) {
    && Tiles(rows, log, runKey)
    && (runKey !in rows.cursors ==>
          log == [] && forall id :: id in rows.attempts ==> rows.attempts[id].runKey != runKey)
    && (runKey in rows.cursors ==>
          && rows.cursors[runKey].committedStep == |log|
          && rows.cursors[runKey].nextOffset == EndAt(rows, log, |log|)
          && Fenced(rows, runKey))
    && (forall id :: id in rows.attempts ==> WellReserved(rows.attempts[id]))
  }

  /** Every range reserved for the run is that range of `manifest`. */
  ghost predicate Reserves(rows: Rows, runKey: string, manifest: Manifest) {
    forall id :: id in rows.attempts && rows.attempts[id].runKey == runKey ==>
      var a := rows.attempts[id];
      a.startOffset <= a.endOffset <= |manifest.windows| && a.reserved == manifest.Ids()[a.startOffset..a.endOffset]
  }

  // ---------------------------------------------------- each step keeps them

  /** The committed rows of the run are the same before and after. */
  ghost predicate SameCommitted(rows: Rows, after: Rows, runKey: string) {
    && (forall id :: IsCommitted(rows, runKey, id) ==> id in after.attempts && after.attempts[id] == rows.attempts[id])
    && (forall id :: IsCommitted(after, runKey, id) ==> IsCommitted(rows, runKey, id))
  }

  lemma TilesFrame(rows: Rows, after: Rows, log: seq<string>, runKey: string)
    requires Tiles(rows, log, runKey) && SameCommitted(rows, after, runKey)
    ensures Tiles(after, log, runKey) && EndAt(after, log, |log|) == EndAt(rows, log, |log|)
  {
  }

  lemma FencedFrame(rows: Rows, after: Rows, runKey: string)
    requires runKey in rows.cursors && runKey in after.cursors && after.cursors[runKey] == rows.cursors[runKey]
    requires Fenced(rows, runKey)
    requires forall id :: IsPrepared(after, runKey, id) ==> id in rows.attempts && after.attempts[id] == rows.attempts[id]
    ensures Fenced(after, runKey)
  {
    forall id | IsPrepared(after, runKey, id) ensures IsPrepared(rows, runKey, id) {}
  }

  lemma NewCursorKeepsInv(rows: Rows, key: string, cursor: Cursor, log: seq<string>, runKey: string)
    requires key !in rows.cursors && cursor.committedStep == 0 && cursor.nextOffset == 0
    requires Inv(rows, log, runKey)
    ensures Inv(rows.(cursors := rows.cursors[key := cursor]), log, runKey)
  {
    var after := rows.(cursors := rows.cursors[key := cursor]);
    TilesFrame(rows, after, log, runKey);
    forall id ensures IsPrepared(after, runKey, id) == IsPrepared(rows, runKey, id) {}
  }

  lemma NewAttemptKeepsInv(rows: Rows, id: string, a: Attempt, log: seq<string>, runKey: string)
    requires Inv(rows, log, runKey)
    requires id !in rows.attempts && a.status == PREPARED && WellReserved(a) && a.runKey in rows.cursors
    requires a.parentCommitId == rows.cursors[a.runKey].commitId && a.startOffset == rows.cursors[a.runKey].nextOffset
    requires forall x :: !IsPrepared(rows, a.runKey, x)
    ensures Inv(rows.(attempts := rows.attempts[id := a]), log, runKey)
  {
    var after := rows.(attempts := rows.attempts[id := a]);
    TilesFrame(rows, after, log, runKey);
    forall x | IsPrepared(after, runKey, x) && x != id ensures IsPrepared(rows, runKey, x) {}
  }

  /** Fencing prepared rows: the common effect of `Abort` and `Recover`. */
  lemma AbortAllKeepsInv(rows: Rows, ids: set<string>, reason: string, log: seq<string>, runKey: string)
    requires Inv(rows, log, runKey)
    requires forall id :: id in ids && id in rows.attempts ==> rows.attempts[id].status == PREPARED
    ensures Inv(rows.(attempts := AbortAll(rows.attempts, ids, reason)), log, runKey)
  {
    var after := rows.(attempts := AbortAll(rows.attempts, ids, reason));
    TilesFrame(rows, after, log, runKey);
    if runKey in rows.cursors { FencedFrame(rows, after, runKey); }
  }

  /** `after` is `rows` with the prepared attempt `id` committed. */
  ghost predicate CommitsAttempt(rows: Rows, after: Rows, id: string) {
    && id in rows.attempts && rows.attempts[id].status == PREPARED
    && var a := rows.attempts[id];
    && a.runKey in rows.cursors && a.runKey in after.cursors && id in after.attempts
    && after.attempts == rows.attempts[id := after.attempts[id]]
    && after.attempts[id] == a.(status := COMMITTED, checkpoint := after.attempts[id].checkpoint)
    && after.cursors == rows.cursors[a.runKey := after.cursors[a.runKey]]
    && after.cursors[a.runKey].committedStep == rows.cursors[a.runKey].committedStep + 1
    && after.cursors[a.runKey].nextOffset == a.endOffset
    && after.cursors[a.runKey].manifestDigest == rows.cursors[a.runKey].manifestDigest
  }

  lemma CommitKeepsTiles(rows: Rows, after: Rows, id: string, log: seq<string>)
    requires CommitsAttempt(rows, after, id) && Inv(rows, log, rows.attempts[id].runKey)
    ensures Tiles(after, log + [id], rows.attempts[id].runKey)
  {
    var runKey, log' := rows.attempts[id].runKey, log + [id];
    assert IsPrepared(rows, runKey, id);
    forall i | 0 <= i < |log| ensures log[i] != id && after.attempts[log[i]] == rows.attempts[log[i]] {
      assert IsCommitted(rows, runKey, log[i]);
    }
    assert Known(after, log');
    if log != [] { assert log'[0] == log[0]; }
    forall x | IsCommitted(after, runKey, x) ensures x in log' {
      if x != id { assert IsCommitted(rows, runKey, x); }
    }
  }

  lemma CommitKeepsOwnInv(rows: Rows, after: Rows, id: string, log: seq<string>)
    requires CommitsAttempt(rows, after, id) && Inv(rows, log, rows.attempts[id].runKey)
    ensures Inv(after, log + [id], rows.attempts[id].runKey)
  {
    var runKey := rows.attempts[id].runKey;
    CommitKeepsTiles(rows, after, id, log);
    assert IsPrepared(rows, runKey, id);
    forall x ensures !IsPrepared(after, runKey, x) {
      assert IsPrepared(after, runKey, x) ==> IsPrepared(rows, runKey, x);
    }
  }

  lemma CommitKeepsOtherInv(rows: Rows, after: Rows, id: string, log: seq<string>, runKey: string)
    requires CommitsAttempt(rows, after, id) && Inv(rows, log, runKey) && rows.attempts[id].runKey != runKey
    ensures Inv(after, log, runKey)
  {
    TilesFrame(rows, after, log, runKey);
    if runKey in rows.cursors { FencedFrame(rows, after, runKey); }
  }

  lemma PreparedRowIsFree(h: Hashes, rows: Rows, runKey: string, manifest: Manifest, plan: Plan, identity: Identity, freshId: string)
    requires Prepare(h, rows, runKey, manifest, plan, identity, freshId).outcome.Ok?
    ensures var a := Prepare(h, rows, runKey, manifest, plan, identity, freshId).outcome.value;
            && WellReserved(a) && a.status == PREPARED && a.runKey == runKey && runKey in rows.cursors
            && a.parentCommitId == rows.cursors[runKey].commitId && a.startOffset == rows.cursors[runKey].nextOffset
            && freshId !in rows.attempts && (forall x :: !IsPrepared(rows, runKey, x))
            && Prepare(h, rows, runKey, manifest, plan, identity, freshId).rows == rows.(attempts := rows.attempts[freshId := a])
  {
    var a := Prepare(h, rows, runKey, manifest, plan, identity, freshId).outcome.value;
    ToSetSize(plan.AllIds());
    SameSetAndLengthPermutes(a.reserved, plan.AllIds());
    forall x ensures IsPrepared(rows, runKey, x) ==> x in PreparedIds(rows, runKey) {}
  }

  lemma CommitShape(h: Hashes, rows: Rows, id: string, m: Manifest, c: Checkpoint, i: Identity, fs: map<string, string>)
    ensures var step := Commit(h, rows, id, m, c, i, fs);
            if step.outcome.Ok? then CommitsAttempt(rows, step.rows, id) else step.rows == rows
  {
  }

  lemma PrepareKeepsInv(h: Hashes, rows: Rows, key: string, m: Manifest, p: Plan, i: Identity, f: string, log: seq<string>, runKey: string)
    requires Inv(rows, log, runKey)
    ensures Inv(Prepare(h, rows, key, m, p, i, f).rows, log, runKey)
  {
    var step := Prepare(h, rows, key, m, p, i, f);
    if step.outcome.Ok? {
      PreparedRowIsFree(h, rows, key, m, p, i, f);
      NewAttemptKeepsInv(rows, f, step.outcome.value, log, runKey);
    }
  }

  lemma RecoverShape(h: Hashes, rows: Rows, key: string, m: Manifest, i: Identity, why: string)
    ensures var step := Recover(h, rows, key, m, i, why);
            step.rows == if step.outcome.Ok?
              then rows.(attempts := AbortAll(rows.attempts, PreparedIds(rows, key), "rendezvous_rebuild:" + why)) else rows
    ensures forall id :: id in PreparedIds(rows, key) ==> id in rows.attempts && rows.attempts[id].status == PREPARED
  {
  }

  lemma RecoverKeepsInv(h: Hashes, rows: Rows, key: string, m: Manifest, i: Identity, why: string, log: seq<string>, runKey: string)
    requires Inv(rows, log, runKey)
    ensures Inv(Recover(h, rows, key, m, i, why).rows, log, runKey)
  {
    RecoverShape(h, rows, key, m, i, why);
    if Recover(h, rows, key, m, i, why).outcome.Ok? {
      AbortAllKeepsInv(rows, PreparedIds(rows, key), "rendezvous_rebuild:" + why, log, runKey);
    }
  }

  lemma CommitStepKeepsInv(h: Hashes, rows: Rows, op: Op, log: seq<string>, runKey: string)
    requires op.OpCommit? && Inv(rows, log, runKey)
    ensures Inv(Apply(h, rows, op), if Commits(h, rows, op, runKey) then log + [op.id] else log, runKey)
  {
    var after := Apply(h, rows, op);
    CommitShape(h, rows, op.id, op.manifest, op.checkpoint, op.identity, op.files);
    if CommitsAttempt(rows, after, op.id) {
      if rows.attempts[op.id].runKey == runKey {
        CommitKeepsOwnInv(rows, after, op.id, log);
      } else {
        CommitKeepsOtherInv(rows, after, op.id, log, runKey);
      }
    }
  }

  lemma StepKeepsInv(h: Hashes, rows: Rows, op: Op, log: seq<string>, runKey: string)
    requires Inv(rows, log, runKey)
    ensures Inv(Apply(h, rows, op), if Commits(h, rows, op, runKey) then log + [op.id] else log, runKey)
  {
    match op
    case OpBootstrap(r, m, c, i) =>
      if r !in rows.cursors { NewCursorKeepsInv(rows, r, Genesis(h, r, m, c, i), log, runKey); }
    case OpPrepare(r, m, p, i, f) => PrepareKeepsInv(h, rows, r, m, p, i, f, log, runKey);
    case OpAbort(id, why) =>
      if Abort(rows, id, why).outcome.Ok? { AbortAllKeepsInv(rows, {id}, why, log, runKey); }
    case OpRecover(r, m, i, why) => RecoverKeepsInv(h, rows, r, m, i, why, log, runKey);
    case OpCommit(_, _, _, _, _) => CommitStepKeepsInv(h, rows, op, log, runKey);
  }

  /** In every reachable ledger: committed attempts tile the consumed range, the step
      counter counts them, and at most one prepared attempt extends the last commit. */
  lemma {:induction false} RunKeepsInv(h: Hashes, ops: seq<Op>, runKey: string)
    ensures Inv(Run(h, ops), CommitLog(h, ops, runKey), runKey)
  {
    if ops != [] {
      var before, op := ops[..|ops| - 1], ops[|ops| - 1];
      RunKeepsInv(h, before, runKey);
      StepKeepsInv(h, Run(h, before), op, CommitLog(h, before, runKey), runKey);
    }
  }

  lemma StepKeepsReserves(h: Hashes, rows: Rows, op: Op, runKey: string, manifest: Manifest)
    requires runKey in rows.cursors ==> rows.cursors[runKey].manifestDigest == h.manifest(manifest)
    requires Reserves(rows, runKey, manifest)
    requires !op.OpAbort? && h.manifest(op.manifest) == h.manifest(manifest) ==> op.manifest == manifest
    ensures Reserves(Apply(h, rows, op), runKey, manifest)
  {
    hide Manifest.Valid, Plan.Valid, Identity.Valid, Checkpoint.Valid, PlanMatches, Blank, ToSet;
    if op.OpCommit? {
      CommitShape(h, rows, op.id, op.manifest, op.checkpoint, op.identity, op.files);
      hide Commit, Prepare, Recover, Bootstrap, Abort;
    } else if op.OpPrepare? {
      hide Commit, Recover, Bootstrap, Abort;
    } else {
      hide Commit, Prepare;
    }
  }

  /** Every range a run ever reserved is read off the one manifest it was started
      with, provided no two presented manifests share a digest. */
  lemma {:induction false} RunKeepsReserves(h: Hashes, ops: seq<Op>, runKey: string, manifest: Manifest)
    requires runKey in Run(h, ops).cursors && Run(h, ops).cursors[runKey].manifestDigest == h.manifest(manifest)
    requires CollisionFreeOn(h.manifest, Presented(ops) + {manifest})
    ensures Reserves(Run(h, ops), runKey, manifest)
  {
    if ops != [] {
      var before, op := ops[..|ops| - 1], ops[|ops| - 1];
      assert forall i :: 0 <= i < |before| ==> ops[i] == before[i];
      assert Presented(before) <= Presented(ops);
      if !op.OpAbort? { assert ops[|ops| - 1].manifest in Presented(ops); }
      var rows := Run(h, before);
      if runKey in rows.cursors {
        RunKeepsReserves(h, before, runKey, manifest);
      } else {
        RunKeepsInv(h, before, runKey);
      }
      StepKeepsReserves(h, rows, op, runKey, manifest);
    }
  }

  // ---------------------------------------------------------- whole-run claims

  /** Work IDs of the plans in `log`, rank by rank, in commit order. */
  function Consumed(rows: Rows, log: seq<string>): seq<string>
    requires forall id :: id in log ==> id in rows.attempts
  {
    if log == [] then []
    else Consumed(rows, log[..|log| - 1]) + rows.attempts[log[|log| - 1]].plan.AllIds()
  }

  lemma ConsumedStep(rows: Rows, log: seq<string>, runKey: string, manifest: Manifest, k: nat)
    requires Tiles(rows, log, runKey) && Reserves(rows, runKey, manifest) && k < |log|
    requires WellReserved(rows.attempts[log[k]])
    ensures EndAt(rows, log, k) <= EndAt(rows, log, k + 1) <= |manifest.windows|
    ensures manifest.Ids()[..EndAt(rows, log, k + 1)]
         == manifest.Ids()[..EndAt(rows, log, k)] + rows.attempts[log[k]].reserved
  {
  }

  lemma {:induction false} ConsumedIsPrefix(rows: Rows, log: seq<string>, runKey: string, manifest: Manifest, k: nat)
    requires Tiles(rows, log, runKey) && Reserves(rows, runKey, manifest) && k <= |log|
    requires forall i :: 0 <= i < |log| ==> WellReserved(rows.attempts[log[i]])
    ensures EndAt(rows, log, k) <= |manifest.windows|
    ensures multiset(Consumed(rows, log[..k])) == multiset(manifest.Ids()[..EndAt(rows, log, k)])
  {
    if k > 0 {
      var j := k - 1;
      ConsumedIsPrefix(rows, log, runKey, manifest, j);
      ConsumedStep(rows, log, runKey, manifest, j);
      assert log[..k][..j] == log[..j] && log[..k][j] == log[j];
      assert Consumed(rows, log[..k]) == Consumed(rows, log[..j]) + rows.attempts[log[j]].plan.AllIds();
      assert WellReserved(rows.attempts[log[j]]);
    }
  }

  /** Exactly-once over any run: whatever aborts, recoveries, rank layouts and world
      sizes came in between, the committed plans together are a rearrangement of
      exactly the first `nextOffset` windows, and as many commits as `committedStep`
      says produced them. */
  lemma CommittedWorkIsManifestPrefix(h: Hashes, ops: seq<Op>, runKey: string, manifest: Manifest)
    requires runKey in Run(h, ops).cursors && Run(h, ops).cursors[runKey].manifestDigest == h.manifest(manifest)
    requires CollisionFreeOn(h.manifest, Presented(ops) + {manifest})
    ensures var rows, log := Run(h, ops), CommitLog(h, ops, runKey);
            var cursor := rows.cursors[runKey];
            && (forall id :: id in log ==> id in rows.attempts)
            && cursor.nextOffset <= |manifest.windows|
            && multiset(Consumed(rows, log)) == multiset(manifest.Ids()[..cursor.nextOffset])
            && |Consumed(rows, log)| == cursor.nextOffset
            && cursor.committedStep == |log|
  {
    var log := CommitLog(h, ops, runKey);
    RunKeepsInv(h, ops, runKey);
    RunKeepsReserves(h, ops, runKey, manifest);
    ConsumedIsPrefix(Run(h, ops), log, runKey, manifest, |log|);
    assert log[..|log|] == log;
    PermutationFacts(Consumed(Run(h, ops), log), manifest.Ids()[..Run(h, ops).cursors[runKey].nextOffset]);
  }

  /** The committed ranges lie end to end: no gap, no overlap. */
  lemma CommittedRangesTile(h: Hashes, ops: seq<Op>, runKey: string, i: nat)
    requires i < |CommitLog(h, ops, runKey)|
    ensures var rows, log := Run(h, ops), CommitLog(h, ops, runKey);
            && runKey in rows.cursors && log[i] in rows.attempts
            && rows.attempts[log[i]].startOffset < rows.attempts[log[i]].endOffset
            && (i == 0 ==> rows.attempts[log[i]].startOffset == 0)
            && (i > 0 ==> log[i - 1] in rows.attempts && rows.attempts[log[i - 1]].endOffset == rows.attempts[log[i]].startOffset)
            && (i == |log| - 1 ==> rows.attempts[log[i]].endOffset == rows.cursors[runKey].nextOffset)
  {
    RunKeepsInv(h, ops, runKey);
    var rows, log := Run(h, ops), CommitLog(h, ops, runKey);
    assert IsCommitted(rows, runKey, log[i]);
    assert WellReserved(rows.attempts[log[i]]);
  }

  lemma {:induction false} CountInDistinct(ids: seq<string>, n: nat, k: nat)
    requires Distinct(ids) && n <= |ids| && k < |ids|
    ensures multiset(ids[..n])[ids[k]] == if k < n then 1 else 0
  {
    if n > 0 {
      CountInDistinct(ids, n - 1, k);
      assert ids[..n] == ids[..n - 1] + [ids[n - 1]];
    }
  }

  /** No window is skipped and none is trained twice. */
  lemma EachWindowTrainedOnce(h: Hashes, ops: seq<Op>, runKey: string, manifest: Manifest, k: nat)
    requires runKey in Run(h, ops).cursors && Run(h, ops).cursors[runKey].manifestDigest == h.manifest(manifest)
    requires CollisionFreeOn(h.manifest, Presented(ops) + {manifest})
    requires manifest.Valid() && k < |manifest.windows|
    ensures var rows, log := Run(h, ops), CommitLog(h, ops, runKey);
            && (forall id :: id in log ==> id in rows.attempts)
            && multiset(Consumed(rows, log))[manifest.windows[k].workId]
                 == if k < rows.cursors[runKey].nextOffset then 1 else 0
  {
    CommittedWorkIsManifestPrefix(h, ops, runKey, manifest);
    ToSetSize(manifest.Ids());
    CountInDistinct(manifest.Ids(), Run(h, ops).cursors[runKey].nextOffset, k);
  }

  /** The two guards of a commit that look at the cursor never fail: a prepared
      attempt is never stale. The fence is the status column. */
  lemma PreparedIsNeverStale(h: Hashes, ops: seq<Op>, id: string, manifest: Manifest, checkpoint: Checkpoint, identity: Identity, files: map<string, string>)
    ensures var outcome := Commit(h, Run(h, ops), id, manifest, checkpoint, identity, files).outcome;
            outcome != Err(StaleParent) && outcome != Err(UnknownRun)
  {
    var rows := Run(h, ops);
    if id in rows.attempts && rows.attempts[id].status == PREPARED {
      var runKey := rows.attempts[id].runKey;
      RunKeepsInv(h, ops, runKey);
      assert IsPrepared(rows, runKey, id);
    }
  }

  lemma AtMostOnePrepared(h: Hashes, ops: seq<Op>, runKey: string)
    ensures |PreparedIds(Run(h, ops), runKey)| <= 1
  {
    var rows := Run(h, ops);
    var prepared := PreparedIds(rows, runKey);
    RunKeepsInv(h, ops, runKey);
    if prepared != {} {
      var x :| x in prepared;
      assert forall y :: y in prepared ==> IsPrepared(rows, runKey, y) && y == x;
      assert prepared == {x};
    }
  }

  /** A row that is no longer PREPARED is never written again; a PREPARED one keeps
      everything that identifies its range. In particular ABORTED stays ABORTED. */
  ghost predicate Settles(before: Attempt, after: Attempt) {
    && (before.status != PREPARED ==> after == before)
    && after.(status := before.status, checkpoint := before.checkpoint, reason := before.reason) == before
  }

  lemma StepSettles(h: Hashes, rows: Rows, op: Op, id: string)
    requires id in rows.attempts
    ensures id in Apply(h, rows, op).attempts
    ensures Settles(rows.attempts[id], Apply(h, rows, op).attempts[id])
  {
  }

  lemma {:induction false} SettledRowsStaySettled(h: Hashes, ops: seq<Op>, more: seq<Op>, id: string)
    requires id in Run(h, ops).attempts
    ensures id in Run(h, ops + more).attempts
    ensures Settles(Run(h, ops).attempts[id], Run(h, ops + more).attempts[id])
    decreases |more|
  {
    if more == [] {
      assert ops + more == ops;
    } else {
      var shorter := more[..|more| - 1];
      SettledRowsStaySettled(h, ops, shorter, id);
      assert (ops + more)[..|ops + more| - 1] == ops + shorter;
      assert (ops + more)[|ops + more| - 1] == more[|more| - 1];
      StepSettles(h, Run(h, ops + shorter), more[|more| - 1], id);
    }
  }

  lemma CommitKeepsManifest(rows: Rows, after: Rows, id: string, log: seq<string>, runKey: string)
    requires CommitsAttempt(rows, after, id) && runKey in rows.cursors && Inv(rows, log, runKey)
    ensures runKey in after.cursors && after.cursors[runKey].manifestDigest == rows.cursors[runKey].manifestDigest
    ensures after.cursors[runKey].nextOffset >= rows.cursors[runKey].nextOffset
  {
  }

  lemma StepKeepsManifest(h: Hashes, rows: Rows, op: Op, log: seq<string>, runKey: string)
    requires runKey in rows.cursors && Inv(rows, log, runKey)
    ensures var after := Apply(h, rows, op);
            && runKey in after.cursors
            && after.cursors[runKey].manifestDigest == rows.cursors[runKey].manifestDigest
            && after.cursors[runKey].nextOffset >= rows.cursors[runKey].nextOffset
  {
    if op.OpCommit? {
      hide Commit, Inv;
      CommitShape(h, rows, op.id, op.manifest, op.checkpoint, op.identity, op.files);
      if CommitsAttempt(rows, Apply(h, rows, op), op.id) {
        CommitKeepsManifest(rows, Apply(h, rows, op), op.id, log, runKey);
      }
    } else {
      hide Commit, Inv;
    }
  }

  /** A run keeps the manifest digest it was bootstrapped with, and never moves its
      cursor back. */
  lemma {:induction false} ManifestIsFixed(h: Hashes, ops: seq<Op>, more: seq<Op>, runKey: string)
    requires runKey in Run(h, ops).cursors
    ensures runKey in Run(h, ops + more).cursors
    ensures Run(h, ops + more).cursors[runKey].manifestDigest == Run(h, ops).cursors[runKey].manifestDigest
    ensures Run(h, ops + more).cursors[runKey].nextOffset >= Run(h, ops).cursors[runKey].nextOffset
    decreases |more|
  {
    if more == [] {
      assert ops + more == ops;
    } else {
      var shorter, op := more[..|more| - 1], more[|more| - 1];
      ManifestIsFixed(h, ops, shorter, runKey);
      assert (ops + more)[..|ops + more| - 1] == ops + shorter;
      assert (ops + more)[|ops + more| - 1] == op;
      RunKeepsInv(h, ops + shorter, runKey);
      StepKeepsManifest(h, Run(h, ops + shorter), op, CommitLog(h, ops + shorter, runKey), runKey);
    }
  }

  lemma RecoverFencesAll(h: Hashes, rows: Rows, runKey: string, manifest: Manifest, identity: Identity, reason: string)
    requires Recover(h, rows, runKey, manifest, identity, reason).outcome.Ok?
    ensures var fenced := Recover(h, rows, runKey, manifest, identity, reason).rows;
            && PreparedIds(fenced, runKey) == {} && fenced.cursors == rows.cursors && runKey in rows.cursors
            && fenced.attempts.Keys == rows.attempts.Keys
            && (forall id :: IsPrepared(rows, runKey, id) ==> fenced.attempts[id].status == ABORTED)
  {
  }

  lemma PrepareSucceeds(h: Hashes, rows: Rows, runKey: string, manifest: Manifest, plan: Plan, identity: Identity, freshId: string, reserved: seq<string>)
    requires manifest.Valid() && plan.Valid() && identity.Valid() && PlanMatches(h, plan, identity, manifest)
    requires runKey in rows.cursors && CursorMatches(h, rows.cursors[runKey], manifest)
    requires PreparedIds(rows, runKey) == {} && freshId !in rows.attempts
    requires var start := rows.cursors[runKey].nextOffset;
             && start + |reserved| <= |manifest.windows| && reserved == manifest.Ids()[start..start + |reserved|]
    requires multiset(plan.AllIds()) == multiset(reserved)
    ensures var outcome := Prepare(h, rows, runKey, manifest, plan, identity, freshId).outcome;
            outcome.Ok? && outcome.value == Reservation(rows.cursors[runKey], runKey, manifest, plan, identity)
            && outcome.value.reserved == reserved
  {
    PermutationFacts(plan.AllIds(), reserved);
  }

  /** The range a prepared attempt holds can be reserved again from any rows with the
      same cursors in which the run has nothing prepared. */
  lemma ReplayAt(h: Hashes, rows: Rows, fenced: Rows, log: seq<string>, id: string, manifest: Manifest,
                 plan: Plan, identity: Identity, freshId: string)
    requires id in rows.attempts && rows.attempts[id].status == PREPARED
    requires Inv(rows, log, rows.attempts[id].runKey) && Reserves(rows, rows.attempts[id].runKey, manifest)
    requires fenced.cursors == rows.cursors && PreparedIds(fenced, rows.attempts[id].runKey) == {} && freshId !in fenced.attempts
    requires manifest.Valid() && rows.attempts[id].runKey in rows.cursors
    requires CursorMatches(h, rows.cursors[rows.attempts[id].runKey], manifest)
    requires multiset(plan.AllIds()) == multiset(rows.attempts[id].plan.AllIds())
    requires plan.Valid() && identity.Valid() && PlanMatches(h, plan, identity, manifest)
    ensures var replay := Prepare(h, fenced, rows.attempts[id].runKey, manifest, plan, identity, freshId).outcome;
            replay.Ok? && SameRange(replay.value, rows.attempts[id])
  {
    var attempt := rows.attempts[id];
    assert IsPrepared(rows, attempt.runKey, id) && WellReserved(attempt);
    PermutationFacts(plan.AllIds(), attempt.reserved);
    PrepareSucceeds(h, fenced, attempt.runKey, manifest, plan, identity, freshId, attempt.reserved);
  }

  /** Two attempts of one run over one global range of work. */
  ghost predicate SameRange(a: Attempt, b: Attempt) {
    && a.startOffset == b.startOffset && a.endOffset == b.endOffset
    && a.reserved == b.reserved && a.parentCommitId == b.parentCommitId && a.runKey == b.runKey
  }

  /** A rebuilt worker group replays the interrupted range: once the prepared attempt
      has been fenced, any valid plan of the new group over the same work IDs, in any
      rank layout and world size, reserves exactly the same global range. */
  lemma InterruptedRangeIsReplayed(h: Hashes, ops: seq<Op>, id: string, manifest: Manifest, recovered: Identity, reason: string,
                                   plan: Plan, identity: Identity, freshId: string)
    requires var rows := Run(h, ops);
             && id in rows.attempts && rows.attempts[id].status == PREPARED
             && Recover(h, rows, rows.attempts[id].runKey, manifest, recovered, reason).outcome.Ok?
             && multiset(plan.AllIds()) == multiset(rows.attempts[id].plan.AllIds())
    requires plan.Valid() && identity.Valid() && PlanMatches(h, plan, identity, manifest)
    requires CollisionFreeOn(h.manifest, Presented(ops) + {manifest}) && freshId !in Run(h, ops).attempts
    ensures var rows := Run(h, ops);
            var fenced := Recover(h, rows, rows.attempts[id].runKey, manifest, recovered, reason).rows;
            var replay := Prepare(h, fenced, rows.attempts[id].runKey, manifest, plan, identity, freshId).outcome;
            fenced.attempts[id].status == ABORTED && replay.Ok? && SameRange(replay.value, rows.attempts[id])
  {
    var runKey := Run(h, ops).attempts[id].runKey;
    RunKeepsInv(h, ops, runKey);
    RunKeepsReserves(h, ops, runKey, manifest);
    var rows := Run(h, ops);
    RecoverFencesAll(h, rows, runKey, manifest, recovered, reason);
    assert IsPrepared(rows, runKey, id);
    ReplayAt(h, rows, Recover(h, rows, runKey, manifest, recovered, reason).rows, CommitLog(h, ops, runKey), id, manifest, plan, identity, freshId);
  }

  /** The recovery check is weaker than its comment: the very identity that made the
      last commit passes for a new rendezvous, unless its restart count is 0. */
  lemma UnchangedIdentityPassesRecovery(h: Hashes, rows: Rows, id: string, manifest: Manifest, checkpoint: Checkpoint, identity: Identity,
                                        files: map<string, string>, reason: string)
    requires Commit(h, rows, id, manifest, checkpoint, identity, files).outcome.Ok?
    requires var runKey := rows.attempts[id].runKey; CursorMatches(h, rows.cursors[runKey], manifest)
    ensures var after := Commit(h, rows, id, manifest, checkpoint, identity, files).rows;
            Recover(h, after, rows.attempts[id].runKey, manifest, identity, reason).outcome.Ok? <==> identity.restartCount > 0
  {
  }

  // ------------------------------------------------ a run that shows the weakness

  function SampleSha(): string {
    seq(64, i => 'a')
  }

  function SampleManifest(): Manifest {
    Manifest("dataset-1", [WorkWindow("w0", "p0", 1.0)])
  }

  function SampleCheckpoint(): Checkpoint {
    Checkpoint("s3://checkpoint-1", SampleSha(), SampleSha(), SampleSha(), SampleSha(), SampleSha())
  }

  const SAMPLE_IDENTITY := Identity("run-1", 1, 1, "epoch-1", "topology-1")

  function SamplePlan(h: Hashes): Plan {
    Plan(1, "epoch-1", "topology-1", h.manifest(SampleManifest()), 1, [["w0"]])
  }

  function SampleOps(h: Hashes): seq<Op> {
    [OpBootstrap("run-1", SampleManifest(), SampleCheckpoint(), SAMPLE_IDENTITY),
     OpPrepare("run-1", SampleManifest(), SamplePlan(h), SAMPLE_IDENTITY, "attempt-1"),
     OpCommit("attempt-1", SampleManifest(), SampleCheckpoint(), SAMPLE_IDENTITY, map[])]
  }

  lemma SampleInputsAreValid(h: Hashes)
    requires h.manifest(SampleManifest()) != ""
    ensures SampleManifest().Valid() && SampleCheckpoint().Valid() && SAMPLE_IDENTITY.Valid() && SamplePlan(h).Valid()
    ensures SamplePlan(h).AllIds() == SampleManifest().Ids() == ["w0"]
  {
    assert SampleManifest().Ids() == ["w0"] && SamplePlan(h).AllIds() == ["w0"];
    assert ToSet(["w0"]) == {"w0"};
    assert IsSha256(SampleSha());
  }

  lemma RunOfThree(h: Hashes, a: Op, b: Op, c: Op)
    ensures Run(h, [a, b, c]) == Apply(h, Apply(h, Apply(h, Rows(map[], map[]), a), b), c)
  {
    hide Apply;
    assert [a, b, c][..2] == [a, b] && [a, b][..1] == [a] && [a][..0] == [];
    assert Run(h, [a]) == Apply(h, Rows(map[], map[]), a);
    assert Run(h, [a, b]) == Apply(h, Run(h, [a]), b);
  }

  lemma SampleReserves(h: Hashes, rows: Rows)
    requires h.manifest(SampleManifest()) != ""
    requires rows == Rows(map["run-1" := Genesis(h, "run-1", SampleManifest(), SampleCheckpoint(), SAMPLE_IDENTITY)], map[])
    ensures var step := Prepare(h, rows, "run-1", SampleManifest(), SamplePlan(h), SAMPLE_IDENTITY, "attempt-1");
            && step.outcome.Ok? && step.rows.cursors == rows.cursors && "attempt-1" in step.rows.attempts
            && var a := step.rows.attempts["attempt-1"];
               a.runKey == "run-1" && a.status == PREPARED && a.identity == SAMPLE_IDENTITY && a.plan == SamplePlan(h)
               && a.parentCommitId == rows.cursors["run-1"].commitId && a.startOffset == 0
  {
    SampleInputsAreValid(h);
    assert SampleManifest().Ids()[0..1] == ["w0"];
    assert PreparedIds(rows, "run-1") == {};
    hide Manifest.Valid, Plan.Valid, Identity.Valid, SampleSha;
    PrepareSucceeds(h, rows, "run-1", SampleManifest(), SamplePlan(h), SAMPLE_IDENTITY, "attempt-1", ["w0"]);
  }

  lemma SampleCommits(h: Hashes, rows: Rows)
    requires h.manifest(SampleManifest()) != ""
    requires "run-1" in rows.cursors && "attempt-1" in rows.attempts
    requires rows.cursors["run-1"] == Genesis(h, "run-1", SampleManifest(), SampleCheckpoint(), SAMPLE_IDENTITY)
    requires var a := rows.attempts["attempt-1"];
             a.runKey == "run-1" && a.status == PREPARED && a.identity == SAMPLE_IDENTITY && a.plan == SamplePlan(h)
             && a.parentCommitId == rows.cursors["run-1"].commitId && a.startOffset == 0
    ensures Commit(h, rows, "attempt-1", SampleManifest(), SampleCheckpoint(), SAMPLE_IDENTITY, map[]).outcome.Ok?
  {
    SampleInputsAreValid(h);
    hide Manifest.Valid, Checkpoint.Valid, SampleSha;
    assert SampleCheckpoint().uri[0] == 's' && "file://"[0] == 'f';
  }

  /** From the empty ledger: a first restart commits an update, and the very identity that
      committed it then passes for a new rendezvous. */
  lemma CommittedIdentityRecovers(h: Hashes, reason: string)
    requires h.manifest(SampleManifest()) != ""
    ensures var before, after := Run(h, SampleOps(h)[..2]), Run(h, SampleOps(h));
            && Commit(h, before, "attempt-1", SampleManifest(), SampleCheckpoint(), SAMPLE_IDENTITY, map[]).outcome.Ok?
            && Recover(h, after, "run-1", SampleManifest(), SAMPLE_IDENTITY, reason).outcome.Ok?
  {
    var ops := SampleOps(h);
    SampleInputsAreValid(h);
    var booted := Apply(h, Rows(map[], map[]), ops[0]);
    assert booted == Rows(map["run-1" := Genesis(h, "run-1", SampleManifest(), SampleCheckpoint(), SAMPLE_IDENTITY)], map[]);
    SampleReserves(h, booted);
    var prepared := Apply(h, booted, ops[1]);
    SampleCommits(h, prepared);
    RunOfThree(h, ops[0], ops[1], ops[2]);
    assert ops == [ops[0], ops[1], ops[2]] && ops[..2][..1] == [ops[0]] && [ops[0]][..0] == [];
    assert Run(h, ops[..2]) == prepared by { assert Run(h, [ops[0]]) == booted; }
    hide Commit, Recover, Prepare, Bootstrap, Manifest.Valid, Checkpoint.Valid, Identity.Valid;
    assert CursorMatches(h, prepared.cursors["run-1"], SampleManifest());
    UnchangedIdentityPassesRecovery(h, prepared, "attempt-1", SampleManifest(), SampleCheckpoint(), SAMPLE_IDENTITY, map[], reason);
  }
}

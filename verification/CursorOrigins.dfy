/** Where the rows of the cursor ledger come from: for every reachable ledger, which call
    wrote the cursor of a run and the row of an attempt, and what it wrote there. */
module CursorOrigins {
  import opened CursorLedger
  import opened CursorRuns
  import opened Prelude

  // ------------------------------------------------------------- the cursor

  /** An accepted bootstrap of a run that did not exist. */
  predicate Founds(h: Hashes, rows: Rows, op: Op, runKey: string) {
    && op.OpBootstrap? && op.runKey == runKey && runKey !in rows.cursors
    && Bootstrap(h, rows, op.runKey, op.manifest, op.checkpoint, op.identity).outcome.Ok?
  }

  /** The last call that founded the run or committed for it. */
  function LastWrite(h: Hashes, ops: seq<Op>, runKey: string): (n: Option<nat>)
    ensures n.Some? ==> n.value < |ops|
  {
    if ops == [] then None
    else
      var last := |ops| - 1;
      var rows := Run(h, ops[..last]);
      if Founds(h, rows, ops[last], runKey) || Commits(h, rows, ops[last], runKey) then Some(last)
      else LastWrite(h, ops[..last], runKey)
  }

  /** What the founding bootstrap leaves. */
  predicate StartsFrom(h: Hashes, cursor: Cursor, op: Op, runKey: string) {
    && op.OpBootstrap?
    && cursor.checkpoint == op.checkpoint && cursor.commitId == h.genesis(runKey, op.checkpoint, h.manifest(op.manifest))
    && cursor.worldSize == op.identity.worldSize && cursor.topologyEpoch == op.identity.topologyEpoch
    && cursor.workManifestDigest == h.manifest(op.manifest)
    && cursor.committedStep == 0 && cursor.nextOffset == 0
  }

  /** What a commit leaves: the cursor, and the row of its attempt. */
  predicate AdvancesTo(h: Hashes, cursor: Cursor, row: Attempt, op: Op) {
    && op.OpCommit?
    && cursor.checkpoint == op.checkpoint && row.checkpoint == Some(op.checkpoint)
    && cursor.commitId == h.commit(row.parentCommitId, op.id, op.checkpoint, row.endOffset, op.identity)
    && cursor.worldSize == op.identity.worldSize && cursor.topologyEpoch == op.identity.topologyEpoch
    && cursor.workManifestDigest == h.manifest(op.manifest)
    && cursor.nextOffset == row.endOffset && row.identity == op.identity && row.status == COMMITTED
  }

  /** Everything one call can do to the cursor of a run. */
  lemma CursorStep(h: Hashes, rows: Rows, op: Op, runKey: string)
    ensures var after := Apply(h, rows, op);
            if Founds(h, rows, op, runKey) then runKey in after.cursors && StartsFrom(h, after.cursors[runKey], op, runKey)
            else if Commits(h, rows, op, runKey) then
              && runKey in after.cursors && op.id in after.attempts
              && AdvancesTo(h, after.cursors[runKey], after.attempts[op.id], op)
            else
              && (runKey in after.cursors <==> runKey in rows.cursors)
              && (runKey in rows.cursors ==> after.cursors[runKey] == rows.cursors[runKey])
  {
    hide Manifest.Valid, Plan.Valid, Identity.Valid, Checkpoint.Valid, Blank, CheckpointBytesMatch, ToSet;
  }

  lemma LogStep(h: Hashes, ops: seq<Op>, runKey: string)
    requires ops != []
    ensures var before, op := ops[..|ops| - 1], ops[|ops| - 1];
            && (Founds(h, Run(h, before), op, runKey) ==> op.OpBootstrap? && CommitLog(h, before, runKey) == [])
            && (Commits(h, Run(h, before), op, runKey) ==> op.OpCommit? && runKey in Run(h, before).cursors)
            && (forall id :: id in CommitLog(h, before, runKey) ==>
                  id in Run(h, before).attempts && id in Run(h, ops).attempts && Run(h, ops).attempts[id] == Run(h, before).attempts[id])
  {
    var before, op := ops[..|ops| - 1], ops[|ops| - 1];
    RunKeepsInv(h, before, runKey);
    CommitNeedsRun(h, Run(h, before), op, runKey);
    hide Apply, Commit, Bootstrap;
    forall id | id in CommitLog(h, before, runKey)
      ensures id in Run(h, before).attempts && id in Run(h, ops).attempts && Run(h, ops).attempts[id] == Run(h, before).attempts[id]
    {
      assert IsCommitted(Run(h, before), runKey, id);
      StepSettles(h, Run(h, before), op, id);
    }
  }

  lemma CommitNeedsRun(h: Hashes, rows: Rows, op: Op, runKey: string)
    ensures Commits(h, rows, op, runKey) ==> op.OpCommit? && runKey in rows.cursors
  {
  }

  /** The cursor of a run is the one its last commit wrote, or the founding bootstrap if
      there was none: checkpoint, group and commit ID are those of that very call, and the
      last logged attempt stores the same checkpoint. */
  lemma {:induction false} CursorIsLastWrite(h: Hashes, ops: seq<Op>, runKey: string)
    ensures var rows, log, n := Run(h, ops), CommitLog(h, ops, runKey), LastWrite(h, ops, runKey);
            && (n.Some? <==> runKey in rows.cursors) && (n.None? ==> log == [])
            && (n.Some? && log == [] ==> StartsFrom(h, rows.cursors[runKey], ops[n.value], runKey))
            && (n.Some? && log != [] ==>
                  && ops[n.value].OpCommit? && ops[n.value].id == log[|log| - 1] && log[|log| - 1] in rows.attempts
                  && AdvancesTo(h, rows.cursors[runKey], rows.attempts[log[|log| - 1]], ops[n.value]))
  {
    if ops != [] {
      var before, op := ops[..|ops| - 1], ops[|ops| - 1];
      CursorIsLastWrite(h, before, runKey);
      CursorStep(h, Run(h, before), op, runKey);
      LogStep(h, ops, runKey);
      hide Founds, Commits, Apply, StartsFrom, AdvancesTo;
      var log := CommitLog(h, before, runKey);
      assert log != [] ==> log[|log| - 1] in log;
    }
  }

  /** Whatever call hands out a cursor hands out the stored one: an accepted recovery
      returns the checkpoint of the last commit, or of the founding bootstrap. */
  lemma RecoveryReturnsLastCheckpoint(h: Hashes, ops: seq<Op>, runKey: string, manifest: Manifest, identity: Identity, reason: string)
    requires Recover(h, Run(h, ops), runKey, manifest, identity, reason).outcome.Ok?
    ensures var n := LastWrite(h, ops, runKey);
            var cursor := Recover(h, Run(h, ops), runKey, manifest, identity, reason).outcome.value;
            && n.Some? && (ops[n.value].OpCommit? || ops[n.value].OpBootstrap?) && cursor.checkpoint == ops[n.value].checkpoint
            && cursor == Run(h, ops).cursors[runKey]
  {
    CursorIsLastWrite(h, ops, runKey);
  }

  /** So do bootstrap, also when the run exists already, and commit. */
  lemma AcceptedCallsReturnTheCursor(h: Hashes, rows: Rows, op: Op)
    ensures op.OpBootstrap? ==>
              var step := Bootstrap(h, rows, op.runKey, op.manifest, op.checkpoint, op.identity);
              step.outcome.Ok? ==> op.runKey in step.rows.cursors && step.outcome.value == step.rows.cursors[op.runKey]
    ensures op.OpCommit? ==>
              var step := Commit(h, rows, op.id, op.manifest, op.checkpoint, op.identity, op.files);
              step.outcome.Ok? ==>
                && op.id in rows.attempts && rows.attempts[op.id].runKey in step.rows.cursors
                && step.outcome.value == step.rows.cursors[rows.attempts[op.id].runKey]
  {
    hide Manifest.Valid, Plan.Valid, Identity.Valid, Checkpoint.Valid, CheckpointBytesMatch;
  }

  // --------------------------------------------------------- one manifest a run

  /** The call names this run and was accepted; a commit names it through its attempt. */
  predicate Serves(h: Hashes, rows: Rows, op: Op, runKey: string) {
    match op
    case OpBootstrap(r, m, c, i) => r == runKey && Bootstrap(h, rows, r, m, c, i).outcome.Ok?
    case OpPrepare(r, m, p, i, f) => r == runKey && Prepare(h, rows, r, m, p, i, f).outcome.Ok?
    case OpAbort(_, _) => false
    case OpRecover(r, m, i, why) => r == runKey && Recover(h, rows, r, m, i, why).outcome.Ok?
    case OpCommit(_, _, _, _, _) => Commits(h, rows, op, runKey)
  }

  /** Every attempt row is bound to the run's manifest, and to the group that prepared it. */
  ghost predicate Bound(h: Hashes, rows: Rows) {
    && (forall id :: id in rows.attempts ==>
          var a := rows.attempts[id];
          && a.runKey in rows.cursors && a.plan.workManifestDigest == rows.cursors[a.runKey].manifestDigest
          && a.plan.worldSize == a.identity.worldSize && a.plan.topologyEpoch == a.identity.topologyEpoch
          && a.plan.topologyDigest == a.identity.topologyDigest && a.identity.Valid())
  }

  lemma ManifestStep(h: Hashes, rows: Rows, op: Op, runKey: string)
    ensures var after := Apply(h, rows, op);
            && (runKey in rows.cursors ==>
                  && runKey in after.cursors && after.cursors[runKey].manifestDigest == rows.cursors[runKey].manifestDigest
                  && after.cursors[runKey].datasetCommit == rows.cursors[runKey].datasetCommit)
            && (Founds(h, rows, op, runKey) ==>
                  && runKey in after.cursors && after.cursors[runKey].manifestDigest == h.manifest(op.manifest)
                  && after.cursors[runKey].datasetCommit == op.manifest.datasetCommit)
            && (runKey !in rows.cursors && !Founds(h, rows, op, runKey) ==> runKey !in after.cursors)
  {
    hide Manifest.Valid, Plan.Valid, Identity.Valid, Checkpoint.Valid, Blank, CheckpointBytesMatch, ToSet;
  }

  lemma StepKeepsBound(h: Hashes, rows: Rows, op: Op)
    requires Bound(h, rows)
    ensures Bound(h, Apply(h, rows, op))
  {
    hide Manifest.Valid, Plan.Valid, Identity.Valid, Checkpoint.Valid, Blank, CheckpointBytesMatch, ToSet;
  }

  lemma {:induction false} RunKeepsBound(h: Hashes, ops: seq<Op>)
    ensures Bound(h, Run(h, ops))
  {
    if ops != [] {
      hide Bound, Apply;
      RunKeepsBound(h, ops[..|ops| - 1]);
      StepKeepsBound(h, Run(h, ops[..|ops| - 1]), ops[|ops| - 1]);
    } else {
      assert Run(h, ops) == Rows(map[], map[]);
    }
  }

  lemma ServedManifest(h: Hashes, rows: Rows, op: Op, runKey: string)
    requires Serves(h, rows, op, runKey)
    requires op.OpCommit? ==> Bound(h, rows)
    ensures !op.OpAbort?
    ensures var after := Apply(h, rows, op);
            runKey in after.cursors && after.cursors[runKey].manifestDigest == h.manifest(op.manifest)
  {
    hide Manifest.Valid, Plan.Valid, Identity.Valid, Checkpoint.Valid, CheckpointBytesMatch, ToSet;
  }

  /** All calls a run ever accepts present one and the same manifest. */
  lemma OneManifestPerRun(h: Hashes, ops: seq<Op>, runKey: string, m: nat, n: nat)
    requires m < n < |ops| && CollisionFreeOn(h.manifest, Presented(ops))
    requires Serves(h, Run(h, ops[..m]), ops[m], runKey) && Serves(h, Run(h, ops[..n]), ops[n], runKey)
    ensures !ops[m].OpAbort? && !ops[n].OpAbort? && ops[m].manifest == ops[n].manifest
  {
    hide Serves, Apply, Bound;
    RunKeepsBound(h, ops[..m]);
    RunKeepsBound(h, ops[..n]);
    ServedManifest(h, Run(h, ops[..m]), ops[m], runKey);
    ServedManifest(h, Run(h, ops[..n]), ops[n], runKey);
    assert ops[..m + 1][..m] == ops[..m] && ops[..n + 1][..n] == ops[..n];
    var more := ops[m + 1..n + 1];
    assert ops[..m + 1] + more == ops[..n + 1];
    ManifestIsFixed(h, ops[..m + 1], more, runKey);
    assert ops[m].manifest in Presented(ops) && ops[n].manifest in Presented(ops);
  }

  /** Exactly which commits a reachable ledger accepts. Of the plan's four bindings only
      the manifest is left to test, and the parent commit never. */
  lemma CommitAcceptedIff(h: Hashes, ops: seq<Op>, id: string, m: Manifest, c: Checkpoint, i: Identity, files: map<string, string>)
    ensures var rows := Run(h, ops);
            (Commit(h, rows, id, m, c, i, files).outcome.Ok?
             <==>
            && m.Valid() && c.Valid() && id in rows.attempts && rows.attempts[id].status == PREPARED
            && rows.attempts[id].identity == i && rows.attempts[id].plan.workManifestDigest == h.manifest(m)
            && ("file://" <= c.uri ==> c.uri in files && files[c.uri] == c.sha256))
  {
    RunKeepsBound(h, ops);
    PreparedIsNeverStale(h, ops, id, m, c, i, files);
    hide Manifest.Valid, Checkpoint.Valid, Identity.Valid, Run;
  }

  /** Exactly which bootstraps it accepts: valid arguments, and for a run that exists the
      manifest it has. */
  lemma BootstrapAcceptedIff(h: Hashes, rows: Rows, runKey: string, m: Manifest, c: Checkpoint, i: Identity)
    ensures var step := Bootstrap(h, rows, runKey, m, c, i);
            && (step.outcome.Ok?
                <==>
                && m.Valid() && c.Valid() && i.Valid()
                && (runKey in rows.cursors ==>
                      rows.cursors[runKey].manifestDigest == h.manifest(m) && rows.cursors[runKey].datasetCommit == m.datasetCommit))
            && step.rows.attempts == rows.attempts
            && (runKey in rows.cursors ==> step.rows == rows)
  {
    hide Manifest.Valid, Checkpoint.Valid, Identity.Valid;
  }

  /** Exactly which recoveries it accepts: the run's manifest, and a topology epoch other
      than that of the last commit, or of the bootstrap, unless the group was restarted. */
  lemma RecoverAcceptedIff(h: Hashes, ops: seq<Op>, runKey: string, m: Manifest, i: Identity, reason: string)
    ensures var rows, n := Run(h, ops), LastWrite(h, ops, runKey);
            (Recover(h, rows, runKey, m, i, reason).outcome.Ok?
             <==>
            && m.Valid() && i.Valid() && n.Some? && (ops[n.value].OpCommit? || ops[n.value].OpBootstrap?)
            && runKey in rows.cursors && rows.cursors[runKey].manifestDigest == h.manifest(m) && rows.cursors[runKey].datasetCommit == m.datasetCommit
            && (i.topologyEpoch != ops[n.value].identity.topologyEpoch || i.restartCount > 0))
  {
    CursorIsLastWrite(h, ops, runKey);
    hide Manifest.Valid, Run;
  }

  /** Exactly which aborts it accepts: a prepared attempt, with a reason that is more than
      white space. */
  lemma AbortAcceptedIff(rows: Rows, id: string, reason: string)
    ensures Abort(rows, id, reason).outcome.Ok?
       <==> (exists i :: 0 <= i < |reason| && !IsSpace(reason[i])) && id in rows.attempts && rows.attempts[id].status == PREPARED
  {
    if c :| c in reason && !IsSpace(c) {
      var i :| 0 <= i < |reason| && reason[i] == c;
    }
  }

  // --------------------------------------------------------- the attempt rows

  predicate Prepares(h: Hashes, rows: Rows, op: Op, id: string) {
    op.OpPrepare? && op.freshId == id && Prepare(h, rows, op.runKey, op.manifest, op.plan, op.identity, op.freshId).outcome.Ok?
  }

  /** An accepted abort or commit of the attempt, or an accepted recovery of its run while
      it is prepared. */
  predicate Closes(h: Hashes, rows: Rows, op: Op, id: string) {
    && id in rows.attempts
    && match op
       case OpAbort(x, why) => x == id && Abort(rows, x, why).outcome.Ok?
       case OpCommit(x, m, c, i, fs) => x == id && Commit(h, rows, x, m, c, i, fs).outcome.Ok?
       case OpRecover(r, m, i, why) =>
         rows.attempts[id].runKey == r && rows.attempts[id].status == PREPARED && Recover(h, rows, r, m, i, why).outcome.Ok?
       case _ => false
  }

  function PreparedBy(h: Hashes, ops: seq<Op>, id: string): (n: Option<nat>)
    ensures n.Some? ==> n.value < |ops|
  {
    if ops == [] then None
    else
      var last := |ops| - 1;
      if Prepares(h, Run(h, ops[..last]), ops[last], id) then Some(last) else PreparedBy(h, ops[..last], id)
  }

  function ClosedBy(h: Hashes, ops: seq<Op>, id: string): (n: Option<nat>)
    ensures n.Some? ==> n.value < |ops|
  {
    if ops == [] then None
    else
      var last := |ops| - 1;
      if Closes(h, Run(h, ops[..last]), ops[last], id) then Some(last) else ClosedBy(h, ops[..last], id)
  }

  /** The row a prepare inserts, for a cursor at `cursor`. */
  predicate IsReservation(row: Attempt, cursor: Cursor, op: Op) {
    && op.OpPrepare?
    && row.runKey == op.runKey && row.plan == op.plan && row.identity == op.identity
    && row.parentCommitId == cursor.commitId && row.startOffset == cursor.nextOffset
    && row.endOffset == cursor.nextOffset + |op.plan.AllIds()|
  }

  predicate IsOpen(row: Attempt) {
    row.status == PREPARED && row.checkpoint == None && row.reason == None
  }

  /** What closing leaves: a commit its checkpoint, an abort its reason, a recovery the
      prefixed one. */
  predicate IsClosed(row: Attempt, op: Op) {
    match op
    case OpAbort(_, why) => row.status == ABORTED && row.checkpoint == None && row.reason == Some(why)
    case OpRecover(_, _, _, why) => row.status == ABORTED && row.checkpoint == None && row.reason == Some("rendezvous_rebuild:" + why)
    case OpCommit(_, _, c, _, _) => row.status == COMMITTED && row.checkpoint == Some(c) && row.reason == None
    case _ => false
  }

  ghost predicate RowIs(h: Hashes, ops: seq<Op>, id: string) {
    var rows, p, q := Run(h, ops), PreparedBy(h, ops, id), ClosedBy(h, ops, id);
    && (id in rows.attempts <==> p.Some?)
    && (p.Some? ==>
          && ops[p.value].OpPrepare? && ops[p.value].runKey in Run(h, ops[..p.value]).cursors
          && IsReservation(rows.attempts[id], Run(h, ops[..p.value]).cursors[ops[p.value].runKey], ops[p.value])
          && (q.None? ==> IsOpen(rows.attempts[id]))
          && (q.Some? ==> p.value < q.value && IsClosed(rows.attempts[id], ops[q.value])))
    && (p.None? ==> q.None?)
  }

  lemma RowStep(h: Hashes, rows: Rows, op: Op, id: string)
    ensures var after := Apply(h, rows, op);
            if Prepares(h, rows, op, id) then
              && id !in rows.attempts && id in after.attempts && op.runKey in rows.cursors
              && IsReservation(after.attempts[id], rows.cursors[op.runKey], op) && IsOpen(after.attempts[id])
            else if Closes(h, rows, op, id) then
              && id in after.attempts && (IsOpen(rows.attempts[id]) ==> IsClosed(after.attempts[id], op)) && rows.attempts[id].status == PREPARED
              && after.attempts[id].(status := PREPARED, checkpoint := None, reason := None)
                 == rows.attempts[id].(status := PREPARED, checkpoint := None, reason := None)
            else
              && (id in after.attempts <==> id in rows.attempts)
              && (id in rows.attempts ==> after.attempts[id] == rows.attempts[id])
  {
    hide Manifest.Valid, Plan.Valid, Identity.Valid, Checkpoint.Valid, Blank, CheckpointBytesMatch, ToSet;
  }

  /** Every row of every reachable ledger is the reservation of the one call that prepared
      it, open until exactly one call closed it, and then as that call left it. */
  lemma {:induction false} RowIsItsCalls(h: Hashes, ops: seq<Op>, id: string)
    ensures RowIs(h, ops, id)
  {
    if ops != [] {
      var before, op := ops[..|ops| - 1], ops[|ops| - 1];
      RowIsItsCalls(h, before, id);
      RowStep(h, Run(h, before), op, id);
      hide Apply, Prepares, Closes;
      var p, q := PreparedBy(h, before, id), ClosedBy(h, before, id);
      assert p.Some? ==> before[..p.value] == ops[..p.value];
    }
  }
}

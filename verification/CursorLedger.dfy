/** The global data-cursor ledger: which windows of an immutable work manifest a
    training run has consumed, under prepare / commit / abort / recover.

    A row table is a map; a transaction is a step that either yields the new rows or
    an error together with the rows it started from. SHA-256 and the canonical
    encodings in front of it are the functions of `Hashes`; a fresh attempt ID and the
    digests of the checkpoint files on disk are inputs of the call that reads them. */
module CursorLedger {
  import opened Prelude

  // -------------------------------------------------------------- data model

  datatype WorkWindow = WorkWindow(workId: string, provenanceHash: string, costUnits: real)

  datatype Manifest = Manifest(datasetCommit: string, windows: seq<WorkWindow>) {
    function Ids(): (ids: seq<string>)
      ensures |ids| == |windows|
    {
      seq(|windows|, i requires 0 <= i < |windows| => windows[i].workId)
    }

    predicate Valid() {
      && datasetCommit != "" && windows != []
      && (forall w :: w in windows ==> w.workId != "" && w.provenanceHash != "" && w.costUnits > 0.0)
      && |Ids()| == |ToSet(Ids())|
    }
  }

  datatype Identity = Identity(
    runId: string, restartCount: int, worldSize: int, topologyEpoch: string, topologyDigest: string)
  {
    predicate Valid() {
      && runId != "" && topologyEpoch != "" && topologyDigest != ""
      && restartCount >= 0 && worldSize > 0
    }
  }

  datatype Plan = Plan(
    planVersion: int, topologyEpoch: string, topologyDigest: string,
    workManifestDigest: string, worldSize: int, rankWorkIds: seq<seq<string>>)
  {
    function AllIds(): seq<string> {
      Flatten(rankWorkIds)
    }

    predicate Valid() {
      && planVersion >= 1 && worldSize > 0 && |rankWorkIds| == worldSize
      && topologyEpoch != "" && topologyDigest != "" && workManifestDigest != ""
      && AllIds() != [] && |AllIds()| == |ToSet(AllIds())|
    }
  }

  predicate IsSha256(s: string) {
    |s| == 64 && forall c :: c in s ==> '0' <= c <= '9' || 'a' <= c <= 'f'
  }

  datatype Checkpoint = Checkpoint(
    uri: string, sha256: string, modelHash: string, emaHash: string,
    optimizerHash: string, validationHash: string)
  {
    predicate Valid() {
      && uri != "" && IsSha256(sha256) && IsSha256(modelHash) && IsSha256(emaHash)
      && IsSha256(optimizerHash) && IsSha256(validationHash)
    }

    /** `_local_path_from_uri(uri) is not None`. */
    predicate IsLocal() {
      "file://" <= uri
    }
  }

  datatype Cursor = Cursor(
    commitId: string, committedStep: nat, nextOffset: nat, checkpoint: Checkpoint,
    datasetCommit: string, manifestDigest: string, worldSize: int, topologyEpoch: string,
    workManifestDigest: string)

  datatype Status = PREPARED | ABORTED | COMMITTED

  datatype Attempt = Attempt(
    runKey: string, parentCommitId: string, startOffset: nat, endOffset: nat,
    plan: Plan, identity: Identity, reserved: seq<string>,
    status: Status, checkpoint: Option<Checkpoint>, reason: Option<string>)

  /** Both tables. */
  datatype Rows = Rows(cursors: map<string, Cursor>, attempts: map<string, Attempt>)

  datatype Hashes = Hashes(
    manifest: Manifest -> string,
    genesis: (string, Checkpoint, string) -> string,
    commit: (string, string, Checkpoint, nat, Identity) -> string)

  datatype CursorError =
    | InvalidArgument
    | PlanIdentityMismatch
    | UnknownRun
    | ManifestMismatch
    | AlreadyPrepared
    | RangeOutsideManifest
    | WorkIdsMismatch
    | DuplicateAttemptId
    | UnknownAttempt
    | NotPrepared
    | IdentityChanged
    | StaleParent
    | CheckpointMismatch
    | StaleRecoveryIdentity

  /** What a transaction leaves behind: the rows, and the value returned or raised. */
  datatype Step<+T> = Step(rows: Rows, outcome: Result<T, CursorError>)

  // ------------------------------------------------------- pure validations

  /** `_validate_plan_identity` */
  predicate PlanMatches(h: Hashes, plan: Plan, identity: Identity, manifest: Manifest) {
    && plan.worldSize == identity.worldSize
    && plan.topologyEpoch == identity.topologyEpoch && plan.topologyDigest == identity.topologyDigest
    && plan.workManifestDigest == h.manifest(manifest)
  }

  /** `_validate_cursor_manifest` */
  predicate CursorMatches(h: Hashes, cursor: Cursor, manifest: Manifest) {
    cursor.datasetCommit == manifest.datasetCommit && cursor.manifestDigest == h.manifest(manifest)
  }

  predicate IsPrepared(rows: Rows, runKey: string, id: string) {
    id in rows.attempts && rows.attempts[id].runKey == runKey && rows.attempts[id].status == PREPARED
  }

  function PreparedIds(rows: Rows, runKey: string): set<string> {
    set id | id in rows.attempts && IsPrepared(rows, runKey, id)
  }

  /** Characters Python's `str.strip` removes. */
  predicate IsSpace(c: char) {
    || '\t' <= c <= '\r' || '\U{1C}' <= c <= ' ' || c == '\U{85}' || c == '\U{A0}' || c == '\U{1680}'
    || '\U{2000}' <= c <= '\U{200A}' || c == '\U{2028}' || c == '\U{2029}' || c == '\U{202F}'
    || c == '\U{205F}' || c == '\U{3000}'
  }

  /** Only a non-blank reason is accepted (`reason.strip()`). */
  predicate Blank(s: string) {
    forall c :: c in s ==> IsSpace(c)
  }

  // ------------------------------------------------------------ transactions

  function Genesis(h: Hashes, runKey: string, manifest: Manifest, checkpoint: Checkpoint, identity: Identity): Cursor {
    Cursor(
      h.genesis(runKey, checkpoint, h.manifest(manifest)), 0, 0, checkpoint,
      manifest.datasetCommit, h.manifest(manifest), identity.worldSize, identity.topologyEpoch,
      h.manifest(manifest))
  }

  function Bootstrap(h: Hashes, rows: Rows, runKey: string, manifest: Manifest, checkpoint: Checkpoint, identity: Identity): Step<Cursor> {
    if !manifest.Valid() || !checkpoint.Valid() || !identity.Valid() then Step(rows, Err(InvalidArgument))
    else if runKey !in rows.cursors then
      var initial := Genesis(h, runKey, manifest, checkpoint, identity);
      Step(rows.(cursors := rows.cursors[runKey := initial]), Ok(initial))
    else if !CursorMatches(h, rows.cursors[runKey], manifest) then Step(rows, Err(ManifestMismatch))
    else Step(rows, Ok(rows.cursors[runKey]))
  }

  function Reservation(cursor: Cursor, runKey: string, manifest: Manifest, plan: Plan, identity: Identity): Attempt
    requires cursor.nextOffset + |plan.AllIds()| <= |manifest.windows|
  {
    var start, end := cursor.nextOffset, cursor.nextOffset + |plan.AllIds()|;
    Attempt(runKey, cursor.commitId, start, end, plan, identity, manifest.Ids()[start..end], PREPARED, None, None)
  }

  function Prepare(h: Hashes, rows: Rows, runKey: string, manifest: Manifest, plan: Plan, identity: Identity, freshId: string): Step<Attempt> {
    if !manifest.Valid() || !plan.Valid() || !identity.Valid() then Step(rows, Err(InvalidArgument))
    else if !PlanMatches(h, plan, identity, manifest) then Step(rows, Err(PlanIdentityMismatch))
    else if runKey !in rows.cursors then Step(rows, Err(UnknownRun))
    else
      var cursor := rows.cursors[runKey];
      if !CursorMatches(h, cursor, manifest) then Step(rows, Err(ManifestMismatch))
      else if PreparedIds(rows, runKey) != {} then Step(rows, Err(AlreadyPrepared))
      else if cursor.nextOffset + |plan.AllIds()| > |manifest.windows| then Step(rows, Err(RangeOutsideManifest))
      else
        var reservation := Reservation(cursor, runKey, manifest, plan, identity);
        if ToSet(plan.AllIds()) != ToSet(reservation.reserved) || |plan.AllIds()| != |reservation.reserved| then
          Step(rows, Err(WorkIdsMismatch))
        else if freshId in rows.attempts then Step(rows, Err(DuplicateAttemptId))
        else Step(rows.(attempts := rows.attempts[freshId := reservation]), Ok(reservation))
  }

  function AbortAll(attempts: map<string, Attempt>, ids: set<string>, reason: string): map<string, Attempt> {
    map id | id in attempts ::
      if id in ids then attempts[id].(status := ABORTED, reason := Some(reason)) else attempts[id]
  }

  function Abort(rows: Rows, id: string, reason: string): Step<()> {
    if Blank(reason) then Step(rows, Err(InvalidArgument))
    else if id !in rows.attempts then Step(rows, Err(UnknownAttempt))
    else if rows.attempts[id].status != PREPARED then Step(rows, Err(NotPrepared))
    else Step(rows.(attempts := AbortAll(rows.attempts, {id}, reason)), Ok(()))
  }

  function Recover(h: Hashes, rows: Rows, runKey: string, manifest: Manifest, identity: Identity, reason: string): Step<Cursor> {
    if !manifest.Valid() || !identity.Valid() then Step(rows, Err(InvalidArgument))
    else if runKey !in rows.cursors then Step(rows, Err(UnknownRun))
    else
      var cursor := rows.cursors[runKey];
      if !CursorMatches(h, cursor, manifest) then Step(rows, Err(ManifestMismatch))
      else if identity.topologyEpoch == cursor.topologyEpoch && identity.restartCount == 0 then
        Step(rows, Err(StaleRecoveryIdentity))
      else
        var fenced := AbortAll(rows.attempts, PreparedIds(rows, runKey), "rendezvous_rebuild:" + reason);
        Step(rows.(attempts := fenced), Ok(cursor))
  }

  function Advanced(h: Hashes, cursor: Cursor, id: string, attempt: Attempt, checkpoint: Checkpoint): Cursor {
    cursor.(
      commitId := h.commit(cursor.commitId, id, checkpoint, attempt.endOffset, attempt.identity),
      committedStep := cursor.committedStep + 1,
      nextOffset := attempt.endOffset,
      checkpoint := checkpoint,
      worldSize := attempt.identity.worldSize,
      topologyEpoch := attempt.identity.topologyEpoch,
      workManifestDigest := attempt.plan.workManifestDigest)
  }

  /** A local checkpoint must exist and hash to its declared digest. */
  predicate CheckpointBytesMatch(checkpoint: Checkpoint, files: map<string, string>) {
    checkpoint.IsLocal() ==> checkpoint.uri in files && files[checkpoint.uri] == checkpoint.sha256
  }

  function Commit(h: Hashes, rows: Rows, id: string, manifest: Manifest, checkpoint: Checkpoint, identity: Identity, files: map<string, string>): Step<Cursor> {
    if !manifest.Valid() || !checkpoint.Valid() || !identity.Valid() then Step(rows, Err(InvalidArgument))
    else if id !in rows.attempts || rows.attempts[id].status != PREPARED then Step(rows, Err(NotPrepared))
    else
      var attempt := rows.attempts[id];
      if attempt.identity != identity then Step(rows, Err(IdentityChanged))
      else if !PlanMatches(h, attempt.plan, identity, manifest) then Step(rows, Err(PlanIdentityMismatch))
      else if attempt.runKey !in rows.cursors then Step(rows, Err(UnknownRun))
      else
        var cursor := rows.cursors[attempt.runKey];
        if cursor.commitId != attempt.parentCommitId || cursor.nextOffset != attempt.startOffset then
          Step(rows, Err(StaleParent))
        else if !CheckpointBytesMatch(checkpoint, files) then Step(rows, Err(CheckpointMismatch))
        else
          var advanced := Advanced(h, cursor, id, attempt, checkpoint);
          var committed := attempt.(status := COMMITTED, checkpoint := Some(checkpoint));
          Step(Rows(rows.cursors[attempt.runKey := advanced], rows.attempts[id := committed]), Ok(advanced))
  }

  // -------------------------------------------------- the ledger as an object

  /** `ElasticCursorLedger`: the tables as fields, updated in place inside a
      transaction and restored when it raises. */
  class ElasticCursorLedger {
    const h: Hashes
    var cursors: map<string, Cursor>
    var attempts: map<string, Attempt>

    constructor (h: Hashes)
      ensures this.h == h && Tables() == Rows(map[], map[])
    {
      this.h := h;
      cursors, attempts := map[], map[];
    }

    function Tables(): Rows
      reads this
    {
      Rows(cursors, attempts)
    }

    method BootstrapRun(runKey: string, manifest: Manifest, checkpoint: Checkpoint, identity: Identity)
        returns (r: Result<Cursor, CursorError>)
      modifies this`cursors
      ensures Step(Tables(), r) == Bootstrap(h, old(Tables()), runKey, manifest, checkpoint, identity)
    {
      if !manifest.Valid() || !checkpoint.Valid() || !identity.Valid() {
        return Err(InvalidArgument);
      }
      var initial := Genesis(h, runKey, manifest, checkpoint, identity);
      if runKey !in cursors {
        cursors := cursors[runKey := initial];
      } else {
        var existing := cursors[runKey];
        if existing.datasetCommit != manifest.datasetCommit || existing.manifestDigest != h.manifest(manifest) {
          return Err(ManifestMismatch);
        }
        initial := existing;
      }
      r := Ok(initial);
    }

    method PrepareNextUpdate(runKey: string, manifest: Manifest, plan: Plan, identity: Identity, freshId: string)
        returns (r: Result<Attempt, CursorError>)
      modifies this`attempts
      ensures Step(Tables(), r) == Prepare(h, old(Tables()), runKey, manifest, plan, identity, freshId)
    {
      if !manifest.Valid() || !plan.Valid() || !identity.Valid() {
        return Err(InvalidArgument);
      }
      if !PlanMatches(h, plan, identity, manifest) {
        return Err(PlanIdentityMismatch);
      }
      if runKey !in cursors {
        return Err(UnknownRun);
      }
      var cursor := cursors[runKey];
      if !CursorMatches(h, cursor, manifest) {
        return Err(ManifestMismatch);
      }
      if PreparedIds(Tables(), runKey) != {} {
        return Err(AlreadyPrepared);
      }
      var start := cursor.nextOffset;
      var end := start + |plan.AllIds()|;
      if end > |manifest.windows| {
        return Err(RangeOutsideManifest);
      }
      var expected := manifest.Ids()[start..end];
      if ToSet(plan.AllIds()) != ToSet(expected) || |plan.AllIds()| != |expected| {
        return Err(WorkIdsMismatch);
      }
      if freshId in attempts {
        return Err(DuplicateAttemptId);
      }
      var reservation := Attempt(runKey, cursor.commitId, start, end, plan, identity, expected, PREPARED, None, None);
      attempts := attempts[freshId := reservation];
      r := Ok(reservation);
    }

    method AbortUncommitted(id: string, reason: string) returns (r: Result<(), CursorError>)
      modifies this`attempts
      ensures Step(Tables(), r) == Abort(old(Tables()), id, reason)
    {
      if Blank(reason) {
        return Err(InvalidArgument);
      }
      if id !in attempts {
        return Err(UnknownAttempt);
      }
      if attempts[id].status != PREPARED {
        return Err(NotPrepared);
      }
      attempts := attempts[id := attempts[id].(status := ABORTED, reason := Some(reason))];
      assert attempts == AbortAll(old(attempts), {id}, reason);
      r := Ok(());
    }

    /** The identity is tested only after the prepared rows were aborted, so this is
        the one transaction that rolls back updates it has already made. */
    method RecoverAfterRendezvous(runKey: string, manifest: Manifest, identity: Identity, reason: string)
        returns (r: Result<Cursor, CursorError>)
      modifies this`attempts
      ensures Step(Tables(), r) == Recover(h, old(Tables()), runKey, manifest, identity, reason)
    {
      if !manifest.Valid() || !identity.Valid() {
        return Err(InvalidArgument);
      }
      if runKey !in cursors {
        return Err(UnknownRun);
      }
      var cursor := cursors[runKey];
      if !CursorMatches(h, cursor, manifest) {
        return Err(ManifestMismatch);
      }
      var saved := attempts;
      var prepared := PreparedIds(Tables(), runKey);
      var rows := prepared;
      while rows != {}
        invariant rows <= prepared
        invariant attempts == AbortAll(saved, prepared - rows, "rendezvous_rebuild:" + reason)
        decreases |rows|
      {
        var id :| id in rows;
        attempts := attempts[id := attempts[id].(status := ABORTED, reason := Some("rendezvous_rebuild:" + reason))];
        rows := rows - {id};
      }
      assert prepared - rows == prepared;
      if identity.topologyEpoch == cursor.topologyEpoch && identity.restartCount == 0 {
        attempts := saved;
        return Err(StaleRecoveryIdentity);
      }
      r := Ok(cursor);
    }

    method CommitUpdate(id: string, manifest: Manifest, checkpoint: Checkpoint, identity: Identity, files: map<string, string>)
        returns (r: Result<Cursor, CursorError>)
      modifies this`cursors, this`attempts
      ensures Step(Tables(), r) == Commit(h, old(Tables()), id, manifest, checkpoint, identity, files)
    {
      if !manifest.Valid() || !checkpoint.Valid() || !identity.Valid() {
        return Err(InvalidArgument);
      }
      if id !in attempts || attempts[id].status != PREPARED {
        return Err(NotPrepared);
      }
      var row := attempts[id];
      if row.identity != identity {
        return Err(IdentityChanged);
      }
      if !PlanMatches(h, row.plan, identity, manifest) {
        return Err(PlanIdentityMismatch);
      }
      if row.runKey !in cursors {
        return Err(UnknownRun);
      }
      var cursor := cursors[row.runKey];
      if cursor.commitId != row.parentCommitId || cursor.nextOffset != row.startOffset {
        return Err(StaleParent);
      }
      if !CheckpointBytesMatch(checkpoint, files) {
        return Err(CheckpointMismatch);
      }
      var newCommit := h.commit(cursor.commitId, id, checkpoint, row.endOffset, identity);
      cursors := cursors[row.runKey := Cursor(
        newCommit, cursor.committedStep + 1, row.endOffset, checkpoint, cursor.datasetCommit,
        cursor.manifestDigest, identity.worldSize, identity.topologyEpoch, row.plan.workManifestDigest)];
      attempts := attempts[id := row.(status := COMMITTED, checkpoint := Some(checkpoint))];
      r := Ok(cursors[row.runKey]);
    }
  }
}

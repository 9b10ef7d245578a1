/** The tamper-evident review ledger: enrolled identities, Merkle-bound evidence, a
    signed hash chain of events, and signed anchors of its head.

    SHA-256 over the canonical JSON of a value and Ed25519 are the functions of
    `Suite`; a clock reading is an input of the call that takes it. */
module AuditLedger {
  import opened Prelude
  import opened Ordering
  import opened Merkle

  // -------------------------------------------------------------- data model

  datatype Json = Text(text: string) | Flag(flag: bool) | Obj(fields: map<string, Json>)

  datatype Artifact = Artifact(
    modality: string, uri: string, contentSha256: string, byteLength: int,
    startNs: int, endNs: int, schemaVersion: string, producerId: string)
  {
    predicate Valid() {
      && modality != "" && uri != "" && producerId != "" && schemaVersion != ""
      && |contentSha256| == 64 && (forall c :: c in contentSha256 ==> '0' <= c <= '9' || 'a' <= c <= 'f')
      && byteLength >= 0 && startNs <= endNs
    }
  }

  datatype Manifest = Manifest(
    caseId: string, episodeCommitUri: string, captureSessionId: string,
    actionSchemaVersion: string, preprocessVersion: string, artifacts: seq<Artifact>)

  datatype EventBody = EventBody(
    sequence: nat, caseId: string, eventType: string, payload: map<string, Json>,
    evidenceRoot: string, signerId: string, createdNs: int, previous: string)

  datatype Message = EventHash(hash: string) | ChainHead(sequence: nat, hash: string, createdNs: int)

  datatype Suite = Suite(
    node: string -> string,
    leaf: Artifact -> string,
    manifest: Manifest -> string,
    event: EventBody -> string,
    wellFormedKey: string -> bool,
    publicKey: string -> string,
    sign: (string, Message) -> string,
    verify: (string, Message, string) -> bool)

  /** A signature made with a key verifies under its public key. */
  ghost predicate SigningWorks(suite: Suite) {
    forall sk, m :: suite.verify(suite.publicKey(sk), m, suite.sign(sk, m))
  }

  datatype Identity = Identity(role: string, publicKey: string)

  /** `manifest` is the stored JSON, read back. */
  datatype EvidenceRow = EvidenceRow(manifest: Manifest, root: string)

  datatype EventRow = EventRow(body: EventBody, hash: string, signature: string)

  datatype AnchorRow = AnchorRow(sequence: nat, hash: string, signerId: string, createdNs: int, signature: string)

  /** The four tables; events are listed in the order of their sequence column. */
  datatype Db = Db(
    identities: map<string, Identity>, evidence: map<string, EvidenceRow>,
    events: seq<EventRow>, anchors: seq<AnchorRow>)

  datatype AuditError =
    | UnknownRole | MalformedKey | IdentityCollision | InvalidManifest | CaseCollision
    | UnknownCase | NotEnrolled | RoleForbids | WrongKey | DuplicateHash | EmptyChain | DuplicateAnchor

  datatype Step<+T> = Step(db: Db, outcome: Result<T, AuditError>)

  const GENESIS_HASH: string := "0000000000000000000000000000000000000000000000000000000000000000"
  const TOLERANCE_NS: int := 1_000_000_000
  const CALIBRATION: string := "calibration"
  const REQUIRED_MODALITIES: set<string> :=
    {"rgbd_video", "pointcloud", "robot_proprio", "executed_actions", "contact_events", "calibration"}

  predicate KnownRole(role: string) {
    role == "capture_gateway" || role == "validator" || role == "reviewer" || role == "anchor"
  }

  predicate RoleAllows(role: string, eventType: string) {
    || (role == "capture_gateway" && eventType == "EVIDENCE_REGISTERED")
    || (role == "validator" && eventType == "VALIDATION_ATTESTED")
    || (role == "reviewer" && (eventType == "REVIEW_SUBMITTED" || eventType == "REVIEW_CONFIRMED" || eventType == "REVIEW_REJECTED"))
  }

  // ------------------------------------------------------- evidence manifests

  function Modality(a: Artifact): string {
    a.modality
  }

  function Moving(artifacts: seq<Artifact>): seq<Artifact> {
    if artifacts == [] then []
    else (if artifacts[0].modality != CALIBRATION then [artifacts[0]] else []) + Moving(artifacts[1..])
  }

  function MaxStart(artifacts: seq<Artifact>): int
    requires artifacts != []
  {
    if |artifacts| == 1 then artifacts[0].startNs
    else
      var rest := MaxStart(artifacts[1..]);
      if rest > artifacts[0].startNs then rest else artifacts[0].startNs
  }

  function MinEnd(artifacts: seq<Artifact>): int
    requires artifacts != []
  {
    if |artifacts| == 1 then artifacts[0].endNs
    else
      var rest := MinEnd(artifacts[1..]);
      if rest < artifacts[0].endNs then rest else artifacts[0].endNs
  }

  /** `validate_multimodal_contract` does not raise. */
  predicate ContractOk(m: Manifest) {
    && m.caseId != "" && m.captureSessionId != "" && m.episodeCommitUri != ""
    && m.actionSchemaVersion != "" && m.preprocessVersion != ""
    && (var seen := ToSet(MapSeq(Modality, m.artifacts));
        REQUIRED_MODALITIES <= seen && |seen| == |m.artifacts|)
    && (forall a :: a in m.artifacts ==> a.Valid())
    && Moving(m.artifacts) != []
    && MaxStart(Moving(m.artifacts)) <= MinEnd(Moving(m.artifacts)) + TOLERANCE_NS
  }

  function Leaves(suite: Suite, m: Manifest): seq<string> {
    MapSeq(suite.leaf, m.artifacts)
  }

  function EvidenceRoot(suite: Suite, m: Manifest): string
    requires m.artifacts != []
  {
    RootOfLeaves(suite.node, Leaves(suite, m))
  }

  predicate ByModality(a: Artifact, b: Artifact) {
    LexLe(a.modality, b.modality)
  }

  /** What is stored: the artifacts in modality order. */
  function Canonical(m: Manifest): Manifest {
    m.(artifacts := Sort(m.artifacts, ByModality))
  }

  lemma ContractHasArtifacts(m: Manifest)
    requires ContractOk(m)
    ensures m.artifacts != []
  {
  }

  // ------------------------------------------------------------ transactions

  function Enroll(suite: Suite, db: Db, signerId: string, role: string, publicKey: string): Step<()> {
    if !KnownRole(role) then Step(db, Err(UnknownRole))
    else if !suite.wellFormedKey(publicKey) then Step(db, Err(MalformedKey))
    else if signerId !in db.identities then
      Step(db.(identities := db.identities[signerId := Identity(role, publicKey)]), Ok(()))
    else if db.identities[signerId] != Identity(role, publicKey) then Step(db, Err(IdentityCollision))
    else Step(db, Ok(()))
  }

  predicate HashTaken(events: seq<EventRow>, hash: string) {
    exists e :: e in events && e.hash == hash
  }

  predicate AnchorTaken(anchors: seq<AnchorRow>, sequence: nat, hash: string, signerId: string) {
    exists a :: a in anchors && a.sequence == sequence && a.hash == hash && a.signerId == signerId
  }

  function NextSequence(db: Db): nat {
    if db.events == [] then 1 else db.events[|db.events| - 1].body.sequence + 1
  }

  function HeadHash(db: Db): string {
    if db.events == [] then GENESIS_HASH else db.events[|db.events| - 1].hash
  }

  function Body(db: Db, caseId: string, eventType: string, payload: map<string, Json>, root: string, signerId: string, now: int): EventBody {
    EventBody(NextSequence(db), caseId, eventType, payload, root, signerId, now, HeadHash(db))
  }

  /** `_append_event_in_tx`; the event hash column is unique. */
  function AppendInTx(suite: Suite, db: Db, caseId: string, eventType: string, payload: map<string, Json>, root: string,
                      signerId: string, secret: string, now: int): Step<string> {
    if signerId !in db.identities then Step(db, Err(NotEnrolled))
    else if !RoleAllows(db.identities[signerId].role, eventType) then Step(db, Err(RoleForbids))
    else if db.identities[signerId].publicKey != suite.publicKey(secret) then Step(db, Err(WrongKey))
    else
      var body := Body(db, caseId, eventType, payload, root, signerId, now);
      var hash := suite.event(body);
      if HashTaken(db.events, hash) then Step(db, Err(DuplicateHash))
      else
        var row := EventRow(body, hash, suite.sign(secret, EventHash(hash)));
        Step(db.(events := db.events + [row]), Ok(hash))
  }

  function Append(suite: Suite, db: Db, caseId: string, eventType: string, payload: map<string, Json>,
                  signerId: string, secret: string, now: int): Step<string> {
    if caseId !in db.evidence then Step(db, Err(UnknownCase))
    else AppendInTx(suite, db, caseId, eventType, payload, db.evidence[caseId].root, signerId, secret, now)
  }

  function RegisteredPayload(suite: Suite, m: Manifest): map<string, Json> {
    map["manifest_sha256" := Text(suite.manifest(Canonical(m)))]
  }

  function Register(suite: Suite, db: Db, m: Manifest, signerId: string, secret: string, now: int): Step<string> {
    if !ContractOk(m) then Step(db, Err(InvalidManifest))
    else
      ContractHasArtifacts(m);
      var row := EvidenceRow(Canonical(m), EvidenceRoot(suite, m));
      if m.caseId in db.evidence && db.evidence[m.caseId] != row then Step(db, Err(CaseCollision))
      else
        var stored := db.(evidence := db.evidence[m.caseId := row]);
        var step := AppendInTx(suite, stored, m.caseId, "EVIDENCE_REGISTERED", RegisteredPayload(suite, m), row.root, signerId, secret, now);
        if step.outcome.Ok? then step else Step(db, step.outcome)
  }

  /** `create_anchor`; (sequence, hash, signer) is unique in the anchor table. */
  function Anchor(suite: Suite, db: Db, signerId: string, secret: string, now: int): Step<AnchorRow> {
    if signerId !in db.identities || db.identities[signerId].role != "anchor" then Step(db, Err(NotEnrolled))
    else if db.identities[signerId].publicKey != suite.publicKey(secret) then Step(db, Err(WrongKey))
    else if db.events == [] then Step(db, Err(EmptyChain))
    else
      var last := db.events[|db.events| - 1];
      var row := AnchorRow(last.body.sequence, last.hash, signerId, now,
                           suite.sign(secret, ChainHead(last.body.sequence, last.hash, now)));
      if AnchorTaken(db.anchors, row.sequence, row.hash, signerId) then
        Step(db, Err(DuplicateAnchor))
      else Step(db.(anchors := db.anchors + [row]), Ok(row))
  }

  // -------------------------------------------------------------- the verifier

  predicate EvidenceRowOk(suite: Suite, caseId: string, row: EvidenceRow) {
    && ContractOk(row.manifest) && row.manifest.caseId == caseId
    && row.manifest.artifacts != [] && EvidenceRoot(suite, row.manifest) == row.root
  }

  /** Everything `verify_integrity` asks of one event besides its place in the chain. */
  predicate EventOk(suite: Suite, db: Db, e: EventRow) {
    && e.body.signerId in db.identities
    && RoleAllows(db.identities[e.body.signerId].role, e.body.eventType)
    && e.body.caseId in db.evidence && db.evidence[e.body.caseId].root == e.body.evidenceRoot
    && suite.event(e.body) == e.hash
    && suite.verify(db.identities[e.body.signerId].publicKey, EventHash(e.hash), e.signature)
  }

  /** The first `n` sequence numbers count from 1 and each event names the hash
      before it. */
  ghost predicate LinkedUpTo(events: seq<EventRow>, n: nat)
    requires n <= |events|
  {
    && (forall i :: 0 <= i < n ==> events[i].body.sequence == i + 1)
    && (n > 0 ==> events[0].body.previous == GENESIS_HASH)
    && (forall i, j :: 0 <= i < j < n && j == i + 1 ==> events[j].body.previous == events[i].hash)
  }

  ghost predicate Linked(events: seq<EventRow>) {
    LinkedUpTo(events, |events|)
  }

  predicate AnchorOk(suite: Suite, db: Db, a: AnchorRow) {
    && a.signerId in db.identities && db.identities[a.signerId].role == "anchor"
    && (exists e :: e in db.events && e.body.sequence == a.sequence && e.hash == a.hash)
    && suite.verify(db.identities[a.signerId].publicKey, ChainHead(a.sequence, a.hash, a.createdNs), a.signature)
  }

  ghost predicate EventsVerified(suite: Suite, db: Db) {
    Linked(db.events) && forall i :: 0 <= i < |db.events| ==> EventOk(suite, db, db.events[i])
  }

  lemma AllLinked(suite: Suite, db: Db)
    requires LinkedUpTo(db.events, |db.events|) && forall i :: 0 <= i < |db.events| ==> EventOk(suite, db, db.events[i])
    ensures EventsVerified(suite, db)
  {
  }

  /** What makes the loop over the events stop. */
  lemma BrokenLink(suite: Suite, db: Db, n: nat)
    requires n < |db.events|
    requires var e := db.events[n];
             || e.body.sequence != n + 1 || !EventOk(suite, db, e)
             || e.body.previous != if n == 0 then GENESIS_HASH else db.events[n - 1].hash
    ensures !EventsVerified(suite, db)
  {
  }

  /** `verify_integrity` does not raise. */
  ghost predicate Verified(suite: Suite, db: Db) {
    && (forall c :: c in db.evidence ==> EvidenceRowOk(suite, c, db.evidence[c]))
    && EventsVerified(suite, db)
    && (forall i :: 0 <= i < |db.anchors| ==> AnchorOk(suite, db, db.anchors[i]))
  }

  // ----------------------------------------------------------------- decisions

  predicate Approves(e: EventRow, caseId: string, patch: string) {
    && e.body.caseId == caseId
    && (e.body.eventType == "REVIEW_SUBMITTED" || e.body.eventType == "REVIEW_CONFIRMED")
    && "patch_sha256" in e.body.payload && e.body.payload["patch_sha256"] == Text(patch)
    && "decision" in e.body.payload && e.body.payload["decision"] == Text("approve_for_data")
  }

  function Approvers(db: Db, caseId: string, patch: string): set<string> {
    set e | e in db.events && Approves(e, caseId, patch) :: e.body.signerId
  }

  /** `eligible_patch_for_data` */
  predicate Eligible(db: Db, caseId: string, patch: string) {
    && (exists e :: e in db.events && e.body.caseId == caseId && e.body.eventType == "VALIDATION_ATTESTED")
    && |Approvers(db, caseId, patch)| >= 2
  }

  // -------------------------------------------------- the ledger as an object

  /** `MultimodalAuditLedger` */
  class MultimodalAuditLedger {
    const suite: Suite
    var identities: map<string, Identity>
    var evidence: map<string, EvidenceRow>
    var events: seq<EventRow>
    var anchors: seq<AnchorRow>

    constructor (suite: Suite)
      ensures this.suite == suite && Tables() == Db(map[], map[], [], [])
    {
      this.suite := suite;
      identities, evidence, events, anchors := map[], map[], [], [];
    }

    function Tables(): Db
      reads this
    {
      Db(identities, evidence, events, anchors)
    }

    method EnrollIdentity(signerId: string, role: string, publicKey: string) returns (r: Result<(), AuditError>)
      modifies this`identities
      ensures Step(Tables(), r) == Enroll(suite, old(Tables()), signerId, role, publicKey)
    {
      if !KnownRole(role) {
        return Err(UnknownRole);
      }
      if !suite.wellFormedKey(publicKey) {
        return Err(MalformedKey);
      }
      if signerId !in identities {
        identities := identities[signerId := Identity(role, publicKey)];
      } else if identities[signerId].role != role || identities[signerId].publicKey != publicKey {
        return Err(IdentityCollision);
      }
      r := Ok(());
    }

    method AppendEventInTx(caseId: string, eventType: string, payload: map<string, Json>, root: string,
                           signerId: string, secret: string, now: int) returns (r: Result<string, AuditError>)
      modifies this`events
      ensures Step(Tables(), r) == AppendInTx(suite, old(Tables()), caseId, eventType, payload, root, signerId, secret, now)
      ensures r.Err? ==> events == old(events)
    {
      if signerId !in identities {
        return Err(NotEnrolled);
      }
      var identity := identities[signerId];
      if !RoleAllows(identity.role, eventType) {
        return Err(RoleForbids);
      }
      if identity.publicKey != suite.publicKey(secret) {
        return Err(WrongKey);
      }
      var sequence, previous := 1, GENESIS_HASH;
      if events != [] {
        var latest := events[|events| - 1];
        sequence, previous := latest.body.sequence + 1, latest.hash;
      }
      var unsigned := EventBody(sequence, caseId, eventType, payload, root, signerId, now, previous);
      var hash := suite.event(unsigned);
      if HashTaken(events, hash) {
        return Err(DuplicateHash);
      }
      events := events + [EventRow(unsigned, hash, suite.sign(secret, EventHash(hash)))];
      r := Ok(hash);
    }

    method AppendEvent(caseId: string, eventType: string, payload: map<string, Json>,
                       signerId: string, secret: string, now: int) returns (r: Result<string, AuditError>)
      modifies this`events
      ensures Step(Tables(), r) == Append(suite, old(Tables()), caseId, eventType, payload, signerId, secret, now)
    {
      if caseId !in evidence {
        return Err(UnknownCase);
      }
      r := AppendEventInTx(caseId, eventType, payload, evidence[caseId].root, signerId, secret, now);
    }

    /** The evidence row is written before the event is appended, and rolled back with
        it when the append raises. */
    method RegisterEvidence(m: Manifest, signerId: string, secret: string, now: int) returns (r: Result<string, AuditError>)
      modifies this`evidence, this`events
      ensures Step(Tables(), r) == Register(suite, old(Tables()), m, signerId, secret, now)
    {
      hide ContractOk, EvidenceRoot, Canonical, AppendInTx;
      if !ContractOk(m) {
        return Err(InvalidManifest);
      }
      ContractHasArtifacts(m);
      var root := EvidenceRoot(suite, m);
      var saved := evidence;
      if m.caseId !in evidence {
        evidence := evidence[m.caseId := EvidenceRow(Canonical(m), root)];
      } else if evidence[m.caseId].manifest != Canonical(m) || evidence[m.caseId].root != root {
        return Err(CaseCollision);
      }
      assert evidence == old(evidence)[m.caseId := EvidenceRow(Canonical(m), root)];
      r := AppendEventInTx(m.caseId, "EVIDENCE_REGISTERED", RegisteredPayload(suite, m), root, signerId, secret, now);
      if r.Err? {
        evidence := saved;
      }
    }

    method CreateAnchor(signerId: string, secret: string, now: int) returns (r: Result<AnchorRow, AuditError>)
      modifies this`anchors
      ensures Step(Tables(), r) == Anchor(suite, old(Tables()), signerId, secret, now)
    {
      if signerId !in identities || identities[signerId].role != "anchor" {
        return Err(NotEnrolled);
      }
      if identities[signerId].publicKey != suite.publicKey(secret) {
        return Err(WrongKey);
      }
      if events == [] {
        return Err(EmptyChain);
      }
      var latest := events[|events| - 1];
      var signature := suite.sign(secret, ChainHead(latest.body.sequence, latest.hash, now));
      if AnchorTaken(anchors, latest.body.sequence, latest.hash, signerId) {
        return Err(DuplicateAnchor);
      }
      var row := AnchorRow(latest.body.sequence, latest.hash, signerId, now, signature);
      anchors := anchors + [row];
      r := Ok(row);
    }

    /** The event loop of `verify_integrity`. */
    method VerifyEvents() returns (ok: bool)
      ensures ok <==> EventsVerified(suite, Tables())
    {
      hide EventsVerified, EventOk;
      var db := Tables();
      var previous := GENESIS_HASH;
      var expectedSequence := 1;
      for n := 0 to |events|
        invariant expectedSequence == n + 1
        invariant previous == if n == 0 then GENESIS_HASH else events[n - 1].hash
        invariant LinkedUpTo(events, n)
        invariant forall i :: 0 <= i < n ==> EventOk(suite, db, events[i])
      {
        var row := events[n];
        if row.body.sequence != expectedSequence || row.body.previous != previous || !EventOk(suite, db, row) {
          BrokenLink(suite, db, n);
          return false;
        }
        previous := row.hash;
        expectedSequence := expectedSequence + 1;
      }
      AllLinked(suite, db);
      return true;
    }

    /** `verify_integrity`: false where it raises. */
    method VerifyIntegrity() returns (ok: bool)
      ensures ok <==> Verified(suite, Tables())
    {
      hide EventsVerified, EventOk, EvidenceRowOk, AnchorOk;
      var db := Tables();
      if c :| c in evidence && !EvidenceRowOk(suite, c, evidence[c]) {
        return false;
      }
      var chained := VerifyEvents();
      if !chained {
        return false;
      }
      for n := 0 to |anchors|
        invariant forall i :: 0 <= i < n ==> AnchorOk(suite, db, anchors[i])
      {
        if !AnchorOk(suite, db, anchors[n]) {
          return false;
        }
      }
      return true;
    }

    method EligiblePatchForData(caseId: string, patch: string) returns (ok: bool)
      ensures ok == Eligible(Tables(), caseId, patch)
    {
      var validated := false;
      var approvals: set<string> := {};
      for n := 0 to |events|
        invariant validated == exists e :: e in events[..n] && e.body.caseId == caseId && e.body.eventType == "VALIDATION_ATTESTED"
        invariant approvals == set e | e in events[..n] && Approves(e, caseId, patch) :: e.body.signerId
      {
        var row := events[n];
        assert events[..n + 1] == events[..n] + [row];
        if row.body.caseId == caseId && row.body.eventType == "VALIDATION_ATTESTED" {
          validated := true;
        }
        if Approves(row, caseId, patch) {
          approvals := approvals + {row.body.signerId};
        }
      }
      assert events[..|events|] == events;
      ok := validated && |approvals| >= 2;
    }
  }
}

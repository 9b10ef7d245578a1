/** Exactly which calls the audit ledger accepts, what each writes, and when a patch
    becomes eligible. */
module AuditDecisions {
  import opened AuditLedger
  import opened AuditRuns
  import opened AuditTampering
  import opened Ordering
  import opened Prelude

  // ----------------------------------------------------------------- contract

  /** One artifact of every required modality and no modality twice, every field filled
      in, and any two recordings overlap to within a second; calibration may be older. */
  ghost predicate IsCompleteEvidence(m: Manifest) {
    && m.caseId != "" && m.captureSessionId != "" && m.episodeCommitUri != ""
    && m.actionSchemaVersion != "" && m.preprocessVersion != ""
    && Distinct(MapSeq(Modality, m.artifacts))
    && Shows(m, "rgbd_video") && Shows(m, "pointcloud") && Shows(m, "robot_proprio")
    && Shows(m, "executed_actions") && Shows(m, "contact_events") && Shows(m, "calibration")
    && (forall a :: a in m.artifacts ==> IsCompleteArtifact(a))
    && (forall a, b :: a in m.artifacts && b in m.artifacts && a.modality != "calibration" && b.modality != "calibration" ==>
          a.startNs - b.endNs <= 1_000_000_000)
  }

  predicate Shows(m: Manifest, name: string) {
    exists a :: a in m.artifacts && a.modality == name
  }

  predicate IsCompleteArtifact(a: Artifact) {
    && "" !in {a.modality, a.uri, a.producerId, a.schemaVersion}
    && |a.contentSha256| == 64 && (forall i :: 0 <= i < 64 ==> a.contentSha256[i] in "0123456789abcdef")
    && 0 <= a.byteLength && a.startNs <= a.endNs
  }

  lemma CompleteArtifactIff(a: Artifact)
    ensures a.Valid() <==> IsCompleteArtifact(a)
  {
    var hex := "0123456789abcdef";
    forall c: char ensures c in hex <==> '0' <= c <= '9' || 'a' <= c <= 'f' {
      assert '0' <= c <= '9' ==> hex[c as int - '0' as int] == c;
      assert 'a' <= c <= 'f' ==> hex[10 + (c as int - 'a' as int)] == c;
    }
    if a.Valid() {
      forall i | 0 <= i < 64 ensures a.contentSha256[i] in hex { assert a.contentSha256[i] in a.contentSha256; }
    }
  }

  lemma SeenModalities(m: Manifest)
    ensures forall name :: name in ToSet(MapSeq(Modality, m.artifacts)) <==> Shows(m, name)
  {
    var names := MapSeq(Modality, m.artifacts);
    forall name ensures name in names <==> Shows(m, name) {
      if name in names {
        var i :| 0 <= i < |names| && names[i] == name;
        assert m.artifacts[i] in m.artifacts && m.artifacts[i].modality == name;
      }
      if a :| a in m.artifacts && a.modality == name {
        var i :| 0 <= i < |m.artifacts| && m.artifacts[i] == a;
        assert names[i] == name;
      }
    }
  }

  /** The latest start against the earliest end is any start against any end. */
  lemma OverlapIff(artifacts: seq<Artifact>)
    requires Moving(artifacts) != []
    ensures MaxStart(Moving(artifacts)) <= MinEnd(Moving(artifacts)) + TOLERANCE_NS
       <==> forall a, b :: a in artifacts && b in artifacts && a.modality != "calibration" && b.modality != "calibration" ==>
              a.startNs - b.endNs <= 1_000_000_000
  {
    var moving := Moving(artifacts);
    MovingMembers(artifacts);
    MaxStartIsMax(moving);
    MinEndIsMin(moving);
    hide Moving, MaxStart, MinEnd;
  }

  lemma RequiredIff(m: Manifest)
    ensures REQUIRED_MODALITIES <= ToSet(MapSeq(Modality, m.artifacts))
       <==> && Shows(m, "rgbd_video") && Shows(m, "pointcloud") && Shows(m, "robot_proprio")
            && Shows(m, "executed_actions") && Shows(m, "contact_events") && Shows(m, "calibration")
  {
    SeenModalities(m);
    hide Shows, MapSeq, ToSet;
    var required: set<string> := REQUIRED_MODALITIES;
    assert "rgbd_video" in required && "pointcloud" in required && "robot_proprio" in required
           && "executed_actions" in required && "contact_events" in required && "calibration" in required;
  }

  lemma PointcloudMoves(m: Manifest)
    requires Shows(m, "pointcloud")
    ensures Moving(m.artifacts) != []
  {
    MovingMembers(m.artifacts);
    var a :| a in m.artifacts && a.modality == "pointcloud";
    assert "pointcloud"[0] == 'p' && CALIBRATION[0] == 'c';
    assert a in Moving(m.artifacts);
  }

  /** The contract is exactly completeness of the evidence. */
  lemma ContractMeaning(m: Manifest)
    ensures ContractOk(m) <==> IsCompleteEvidence(m)
  {
    RequiredIff(m);
    ToSetSize(MapSeq(Modality, m.artifacts));
    forall a: Artifact ensures a.Valid() <==> IsCompleteArtifact(a) { CompleteArtifactIff(a); }
    if Shows(m, "pointcloud") { PointcloudMoves(m); }
    if Moving(m.artifacts) != [] { OverlapIff(m.artifacts); }
    hide Artifact.Valid, IsCompleteArtifact, Moving, MaxStart, MinEnd, MapSeq, ToSet, Distinct, Shows;
  }

  // -------------------------------------------------------------- eligibility

  function Field(payload: map<string, Json>, name: string): Option<Json> {
    if name in payload then Some(payload[name]) else None
  }

  /** A submitted or confirmed review that decides to approve exactly this patch. */
  predicate IsApproval(e: EventRow, caseId: string, patch: string) {
    && e.body.caseId == caseId && e.body.eventType in {"REVIEW_SUBMITTED", "REVIEW_CONFIRMED"}
    && Field(e.body.payload, "decision") == Some(Text("approve_for_data"))
    && Field(e.body.payload, "patch_sha256") == Some(Text(patch))
  }

  lemma ApprovesIff(e: EventRow, caseId: string, patch: string)
    ensures Approves(e, caseId, patch) <==> IsApproval(e, caseId, patch)
  {
  }

  /** Eligible are exactly the patches of attested cases that two events with different
      signers approve; a rejection, an escalation or a review of another patch counts for
      nothing. */
  lemma EligibleIff(db: Db, caseId: string, patch: string)
    ensures Eligible(db, caseId, patch)
       <==> && (exists v :: v in db.events && v.body.caseId == caseId && v.body.eventType == "VALIDATION_ATTESTED")
            && (exists r, s :: r in db.events && s in db.events && r.body.signerId != s.body.signerId
                               && IsApproval(r, caseId, patch) && IsApproval(s, caseId, patch))
  {
    forall e ensures Approves(e, caseId, patch) <==> IsApproval(e, caseId, patch) { ApprovesIff(e, caseId, patch); }
    hide Approves, IsApproval;
    var approvers := Approvers(db, caseId, patch);
    if |approvers| >= 2 {
      var r, s := TwoApprovals(db, caseId, patch);
    }
    if r, s :| r in db.events && s in db.events && r.body.signerId != s.body.signerId
               && IsApproval(r, caseId, patch) && IsApproval(s, caseId, patch) {
      assert r.body.signerId in approvers && s.body.signerId in approvers;
      assert |approvers - {r.body.signerId}| == |approvers| - 1;
      assert s.body.signerId in approvers - {r.body.signerId};
    }
  }

  // ------------------------------------------------------- which calls succeed

  /** The signer is enrolled, and presents the key it is enrolled under. */
  predicate Presents(suite: Suite, identities: map<string, Identity>, signerId: string, secret: string)
    ensures Presents(suite, identities, signerId, secret) ==> signerId in identities
  {
    signerId in identities && identities[signerId].publicKey == suite.publicKey(secret)
  }

  /** The fields an event gets that is written now: the next number, chained to the last
      event, bound to its case's root. */
  function NextFields(suite: Suite, db: Db, caseId: string, eventType: string, payload: map<string, Json>, root: string,
                      signerId: string, now: int): EventBody
  {
    EventBody(|db.events| + 1, caseId, eventType, payload, root, signerId, now,
              if |db.events| == 0 then GENESIS_HASH else suite.event(db.events[|db.events| - 1].body))
  }

  /** The row of an event: its fields, their hash, and the signature over the hash. */
  function Entry(suite: Suite, body: EventBody, secret: string): EventRow {
    EventRow(body, suite.event(body), suite.sign(secret, EventHash(suite.event(body))))
  }

  lemma NextFieldsIff(suite: Suite, db: Db, caseId: string, eventType: string, payload: map<string, Json>, root: string, signerId: string, now: int)
    requires Verified(suite, db)
    ensures Body(db, caseId, eventType, payload, root, signerId, now) == NextFields(suite, db, caseId, eventType, payload, root, signerId, now)
    ensures NextFields(suite, db, caseId, eventType, payload, root, signerId, now) !in Bodies(db)
  {
    VerifiedParts(suite, db);
    SequenceIsPosition(db.events);
    hide Verified, EvidenceRowOk, AnchorOk, Linked;
  }

  lemma HashIsNew(suite: Suite, db: Db, body: EventBody)
    requires Verified(suite, db) && body !in Bodies(db) && CollisionFreeOn(suite.event, Bodies(db) + {body})
    ensures !HashTaken(db.events, suite.event(body))
  {
    VerifiedParts(suite, db);
    hide Verified, EvidenceRowOk, AnchorOk, Linked;
    forall e | e in db.events ensures e.hash != suite.event(body) {
      var i :| 0 <= i < |db.events| && db.events[i] == e;
      assert EventOk(suite, db, db.events[i]);
      assert e.body in Bodies(db);
    }
  }

  lemma MayRecordIff(role: string, eventType: string)
    ensures RoleAllows(role, eventType) <==> MayRecord(role, eventType)
  {
  }

  /** An event is accepted exactly from a signer that presents its own key in a role that
      signs such events; it is the next of the chain, signed. Nothing else is written. */
  lemma AppendInTxDecides(suite: Suite, db: Db, caseId: string, eventType: string, payload: map<string, Json>, root: string,
                          signerId: string, secret: string, now: int)
    requires var body := Body(db, caseId, eventType, payload, root, signerId, now); !HashTaken(db.events, suite.event(body))
    ensures var step := AppendInTx(suite, db, caseId, eventType, payload, root, signerId, secret, now);
            var body := Body(db, caseId, eventType, payload, root, signerId, now);
            && (step.outcome.Ok? <==> Presents(suite, db.identities, signerId, secret) && MayRecord(db.identities[signerId].role, eventType))
            && step.db == if step.outcome.Ok?
                          then db.(events := db.events + [Entry(suite, body, secret)])
                          else db
  {
    if signerId in db.identities { MayRecordIff(db.identities[signerId].role, eventType); }
    hide RoleAllows, MayRecord, Body;
  }

  /** `append_event` in a verified ledger, short of a hash collision: accepted exactly for
      a registered case and such a signer; it writes the next event, and only that. */
  lemma AppendAcceptedIff(suite: Suite, db: Db, caseId: string, eventType: string, payload: map<string, Json>,
                          signerId: string, secret: string, now: int)
    requires Verified(suite, db)
    requires caseId in db.evidence ==>
               CollisionFreeOn(suite.event, Bodies(db) + {NextFields(suite, db, caseId, eventType, payload, db.evidence[caseId].root, signerId, now)})
    ensures var step := Append(suite, db, caseId, eventType, payload, signerId, secret, now);
            && (step.outcome.Ok? <==>
                  caseId in db.evidence && Presents(suite, db.identities, signerId, secret) && MayRecord(db.identities[signerId].role, eventType))
            && (step.outcome.Err? ==> step.db == db)
            && (step.outcome.Ok? ==>
                  var body := NextFields(suite, db, caseId, eventType, payload, db.evidence[caseId].root, signerId, now);
                  && step.outcome.value == suite.event(body)
                  && step.db == db.(events := db.events + [Entry(suite, body, secret)]))
  {
    if caseId in db.evidence {
      var root := db.evidence[caseId].root;
      NextFieldsIff(suite, db, caseId, eventType, payload, root, signerId, now);
      HashIsNew(suite, db, NextFields(suite, db, caseId, eventType, payload, root, signerId, now));
      AppendInTxDecides(suite, db, caseId, eventType, payload, root, signerId, secret, now);
      hide Verified, HashTaken, Body, NextFields, MayRecord, RoleAllows, Bodies, AppendInTx, Entry, Presents, CollisionFreeOn;
    }
  }

  /** A registration, given that the hash of its event is new. */
  lemma RegisterDecides(suite: Suite, db: Db, m: Manifest, signerId: string, secret: string, now: int, body: EventBody)
    requires m.artifacts != [] && !HashTaken(db.events, suite.event(body))
    requires body == Body(db, m.caseId, "EVIDENCE_REGISTERED", RegisteredPayload(suite, m), EvidenceRoot(suite, m), signerId, now)
    ensures var step := Register(suite, db, m, signerId, secret, now);
            var row := EvidenceRow(Canonical(m), EvidenceRoot(suite, m));
            && (step.outcome.Ok? <==>
                  && ContractOk(m) && Presents(suite, db.identities, signerId, secret) && db.identities[signerId].role == "capture_gateway"
                  && (m.caseId in db.evidence ==> db.evidence[m.caseId] == row))
            && step.db == if step.outcome.Ok?
                          then db.(evidence := db.evidence[m.caseId := row], events := db.events + [Entry(suite, body, secret)])
                          else db
  {
    var root, payload := EvidenceRoot(suite, m), RegisteredPayload(suite, m);
    var stored := db.(evidence := db.evidence[m.caseId := EvidenceRow(Canonical(m), root)]);
    assert Body(stored, m.caseId, "EVIDENCE_REGISTERED", payload, root, signerId, now) == body;
    AppendInTxDecides(suite, stored, m.caseId, "EVIDENCE_REGISTERED", payload, root, signerId, secret, now);
    if signerId in db.identities { OnlyGatewaysRegister(db.identities[signerId].role); }
    hide HashTaken, Body, MayRecord, RoleAllows, ContractOk, Canonical, EvidenceRoot, RegisteredPayload, AppendInTx, Entry, Presents;
  }

  /** `register_evidence`: accepted exactly for complete evidence, new or already stored as
      it is, from a gateway that presents its key; it writes the row and its event. */
  lemma RegisterAcceptedIff(suite: Suite, db: Db, m: Manifest, signerId: string, secret: string, now: int)
    requires Verified(suite, db)
    requires m.artifacts != [] ==>
               CollisionFreeOn(suite.event, Bodies(db) + {NextFields(suite, db, m.caseId, "EVIDENCE_REGISTERED", RegisteredPayload(suite, m), EvidenceRoot(suite, m), signerId, now)})
    ensures var step := Register(suite, db, m, signerId, secret, now);
            && (step.outcome.Ok? <==>
                  && IsCompleteEvidence(m) && Presents(suite, db.identities, signerId, secret) && db.identities[signerId].role == "capture_gateway"
                  && (m.caseId in db.evidence ==> m.artifacts != [] && db.evidence[m.caseId] == EvidenceRow(Canonical(m), EvidenceRoot(suite, m))))
            && (step.outcome.Err? ==> step.db == db)
            && (step.outcome.Ok? ==>
                  m.artifacts != []
                  && var body := NextFields(suite, db, m.caseId, "EVIDENCE_REGISTERED", RegisteredPayload(suite, m), EvidenceRoot(suite, m), signerId, now);
                  step.db == db.(evidence := db.evidence[m.caseId := EvidenceRow(Canonical(m), EvidenceRoot(suite, m))],
                                 events := db.events + [Entry(suite, body, secret)]))
  {
    ContractMeaning(m);
    if m.artifacts == [] {
      EmptyIsRefused(suite, db, m, signerId, secret, now);
    } else {
      var body := NextFields(suite, db, m.caseId, "EVIDENCE_REGISTERED", RegisteredPayload(suite, m), EvidenceRoot(suite, m), signerId, now);
      NextFieldsIff(suite, db, m.caseId, "EVIDENCE_REGISTERED", RegisteredPayload(suite, m), EvidenceRoot(suite, m), signerId, now);
      HashIsNew(suite, db, body);
      RegisterDecides(suite, db, m, signerId, secret, now, body);
    }
    hide *;
  }

  lemma EmptyIsRefused(suite: Suite, db: Db, m: Manifest, signerId: string, secret: string, now: int)
    requires m.artifacts == []
    ensures !ContractOk(m) && Register(suite, db, m, signerId, secret, now) == Step(db, Err(InvalidManifest))
  {
    if ContractOk(m) { ContractHasArtifacts(m); }
    hide ContractOk;
  }

  lemma OnlyGatewaysRegister(role: string)
    ensures MayRecord(role, "EVIDENCE_REGISTERED") <==> role == "capture_gateway"
  {
  }

  /** `create_anchor`: accepted exactly from an enrolled anchor that presents its key, for a
      chain with an event it has not anchored yet; it signs the last one. */
  lemma AnchorAcceptedIff(suite: Suite, db: Db, signerId: string, secret: string, now: int)
    requires Verified(suite, db)
    ensures var step := Anchor(suite, db, signerId, secret, now);
            && (step.outcome.Ok? <==>
                  && Presents(suite, db.identities, signerId, secret) && db.identities[signerId].role == "anchor" && |db.events| > 0
                  && forall n :: 0 <= n < |db.anchors| && db.anchors[n].signerId == signerId ==> db.anchors[n].sequence != |db.events|)
            && (step.outcome.Err? ==> step.db == db)
            && (step.outcome.Ok? ==>
                  var hash := db.events[|db.events| - 1].hash;
                  step.db == db.(anchors := db.anchors + [AnchorRow(|db.events|, hash, signerId, now, suite.sign(secret, ChainHead(|db.events|, hash, now)))]))
  {
    if |db.events| > 0 { AnchorTakenIff(suite, db, signerId); }
    hide Verified, AnchorTaken;
  }

  lemma AnchorTakenIff(suite: Suite, db: Db, signerId: string)
    requires Verified(suite, db) && |db.events| > 0
    ensures var last := db.events[|db.events| - 1];
            && last.body.sequence == |db.events|
            && (AnchorTaken(db.anchors, |db.events|, last.hash, signerId)
                <==> exists n :: 0 <= n < |db.anchors| && db.anchors[n].signerId == signerId && db.anchors[n].sequence == |db.events|)
  {
    VerifiedParts(suite, db);
    SequenceIsPosition(db.events);
    forall n | 0 <= n < |db.anchors| ensures AnchorHolds(suite, db, db.anchors[n]) { AnchorHoldsIsOk(suite, db, db.anchors[n]); }
    hide Verified, EvidenceRowOk, EventOk, AnchorOk, Linked;
    if n :| 0 <= n < |db.anchors| && db.anchors[n].signerId == signerId && db.anchors[n].sequence == |db.events| {
      assert AnchorHolds(suite, db, db.anchors[n]) && db.anchors[n] in db.anchors;
    }
  }

  /** `enroll_identity`: accepted exactly for a known role and a well-formed key of a signer
      that is new or enrolled with just these; it writes a new signer, and only that. */
  lemma EnrollAcceptedIff(suite: Suite, db: Db, signerId: string, role: string, publicKey: string)
    ensures var step := Enroll(suite, db, signerId, role, publicKey);
            && (step.outcome.Ok? <==>
                  && role in {"capture_gateway", "validator", "reviewer", "anchor"} && suite.wellFormedKey(publicKey)
                  && (signerId in db.identities ==> db.identities[signerId].role == role && db.identities[signerId].publicKey == publicKey))
            && step.db == if step.outcome.Ok? then db.(identities := db.identities[signerId := Identity(role, publicKey)]) else db
  {
    if signerId in db.identities && db.identities[signerId] == Identity(role, publicKey) {
      assert db.identities[signerId := Identity(role, publicKey)] == db.identities;
    }
  }

  // ------------------------------------------------------------ what is stored

  lemma ByModalityIsTotalPreorder()
    ensures TotalPreorder(ByModality)
  {
    forall a, b ensures ByModality(a, b) || ByModality(b, a) { LexTotal(a.modality, b.modality); }
    forall a, b, c | ByModality(a, b) && ByModality(b, c) ensures ByModality(a, c) { LexTransitive(a.modality, b.modality, c.modality); }
  }

  lemma ModalitiesTellApart(m: Manifest)
    requires ContractOk(m)
    ensures NoTies(multiset(m.artifacts), ByModality)
  {
    var names := MapSeq(Modality, m.artifacts);
    ToSetSize(names);
    assert forall i, j :: 0 <= i < |names| && 0 <= j < |names| && names[i] == names[j] ==> i == j;
    forall a, b | a in multiset(m.artifacts) && b in multiset(m.artifacts) && ByModality(a, b) && ByModality(b, a) ensures a == b {
      LexTotal(a.modality, b.modality);
      var i :| 0 <= i < |m.artifacts| && m.artifacts[i] == a;
      var j :| 0 <= j < |m.artifacts| && m.artifacts[j] == b;
      assert names[i] == names[j];
    }
  }

  /** Evidence is stored by modality. */
  lemma StoredByModality(m: Manifest)
    ensures multiset(Canonical(m).artifacts) == multiset(m.artifacts)
    ensures forall i, j :: 0 <= i < j < |Canonical(m).artifacts| ==>
              PrefixOrSmaller(Canonical(m).artifacts[i].modality, Canonical(m).artifacts[j].modality)
  {
    ByModalityIsTotalPreorder();
    SortSorts(m.artifacts, ByModality);
    var stored := Canonical(m).artifacts;
    forall i, j | 0 <= i < j < |stored| ensures PrefixOrSmaller(stored[i].modality, stored[j].modality) {
      assert ByModality(stored[i], stored[j]);
      LexMeaning(stored[i].modality, stored[j].modality);
    }
  }

  lemma SameRowSameRegistration(suite: Suite, db: Db, m: Manifest, n: Manifest, signerId: string, secret: string, now: int)
    requires ContractOk(m) && ContractOk(n) && m.caseId == n.caseId && m.artifacts != [] && n.artifacts != []
    requires Canonical(m) == Canonical(n) && EvidenceRoot(suite, m) == EvidenceRoot(suite, n)
    ensures Register(suite, db, m, signerId, secret, now) == Register(suite, db, n, signerId, secret, now)
  {
    hide ContractOk, EvidenceRoot, Canonical, AppendInTx;
  }

  /** A registration, its row, its event and its outcome do not depend on the order in
      which the artifacts are listed. */
  lemma ListingOrderDoesNotMatter(suite: Suite, db: Db, m: Manifest, n: Manifest, signerId: string, secret: string, now: int)
    requires ContractOk(m) && n == m.(artifacts := n.artifacts) && multiset(n.artifacts) == multiset(m.artifacts)
    ensures Register(suite, db, m, signerId, secret, now) == Register(suite, db, n, signerId, secret, now)
  {
    ByModalityIsTotalPreorder();
    ModalitiesTellApart(m);
    SortForgetsOrder(m.artifacts, n.artifacts, ByModality);
    ArtifactOrderIsIrrelevant(suite, m, n);
    assert Canonical(m) == Canonical(n);
    hide ContractOk, EvidenceRoot, Canonical, AppendInTx, Register;
    SameRowSameRegistration(suite, db, m, n, signerId, secret, now);
  }

  ghost predicate HashesDiffer(db: Db) {
    forall i, j :: 0 <= i < j < |db.events| ==> db.events[i].hash != db.events[j].hash
  }

  lemma AppendKeepsHashes(suite: Suite, db: Db, caseId: string, eventType: string, payload: map<string, Json>, root: string,
                          signerId: string, secret: string, now: int)
    requires HashesDiffer(db)
    ensures HashesDiffer(AppendInTx(suite, db, caseId, eventType, payload, root, signerId, secret, now).db)
  {
    hide RoleAllows, Body;
    var after := AppendInTx(suite, db, caseId, eventType, payload, root, signerId, secret, now).db;
    forall i, j | 0 <= i < j < |after.events| ensures after.events[i].hash != after.events[j].hash {
      if j == |db.events| { assert db.events[i] in db.events; }
    }
  }

  lemma StepKeepsHashes(suite: Suite, db: Db, op: Op)
    requires HashesDiffer(db)
    ensures HashesDiffer(Apply(suite, db, op))
  {
    hide ContractOk, EvidenceRoot, Canonical, AppendInTx, HashesDiffer;
    match op
    case OpEnroll(id, role, key) => SameEventsSameHashes(db, Apply(suite, db, op));
    case OpAnchor(id, sk, now) => SameEventsSameHashes(db, Apply(suite, db, op));
    case OpAppend(c, t, p, id, sk, now) =>
      if c in db.evidence { AppendKeepsHashes(suite, db, c, t, p, db.evidence[c].root, id, sk, now); }
    case OpRegister(m, id, sk, now) =>
      if ContractOk(m) {
        ContractHasArtifacts(m);
        var stored := db.(evidence := db.evidence[m.caseId := EvidenceRow(Canonical(m), EvidenceRoot(suite, m))]);
        SameEventsSameHashes(db, stored);
        AppendKeepsHashes(suite, stored, m.caseId, "EVIDENCE_REGISTERED", RegisteredPayload(suite, m), EvidenceRoot(suite, m), id, sk, now);
      }
  }

  lemma SameEventsSameHashes(db: Db, after: Db)
    requires after.events == db.events
    ensures HashesDiffer(after) <==> HashesDiffer(db)
  {
  }

  /** No two events of a ledger carry one hash, collision of the digest or not. */
  lemma {:induction false} EventHashesAreUnique(suite: Suite, ops: seq<Op>)
    ensures HashesDiffer(Run(suite, Db(map[], map[], [], []), ops))
  {
    if ops != [] {
      hide HashesDiffer, Apply;
      EventHashesAreUnique(suite, ops[..|ops| - 1]);
      StepKeepsHashes(suite, Run(suite, Db(map[], map[], [], []), ops[..|ops| - 1]), ops[|ops| - 1]);
    }
  }
}

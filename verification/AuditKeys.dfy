/** Two reviewers or one: the audit ledger tells reviewers apart by signer ID, enrolment
    never compares keys. When do two approvals rest on two keys? */
module AuditKeys {
  import opened AuditLedger
  import opened AuditRuns
  import opened Prelude

  // ------------------------------------------------------- approvals and keys

  function KeyOf(db: Db, signerId: string): string
    requires signerId in db.identities
  {
    db.identities[signerId].publicKey
  }

  /** Two approving events of the patch that verify under different enrolled keys. */
  ghost predicate ApprovedByTwoKeys(suite: Suite, db: Db, caseId: string, patch: string) {
    exists r, s :: r in db.events && s in db.events && Approves(r, caseId, patch) && Approves(s, caseId, patch)
                   && Signed(suite, db, r) && Signed(suite, db, s)
                   && KeyOf(db, r.body.signerId) != KeyOf(db, s.body.signerId)
  }

  /** All approvers of the patch are enrolled under one key. */
  ghost predicate ApproversShareAKey(db: Db, caseId: string, patch: string) {
    forall a, b ::
      a in Approvers(db, caseId, patch) && b in Approvers(db, caseId, patch) && a in db.identities && b in db.identities ==>
        KeyOf(db, a) == KeyOf(db, b)
  }

  /** The two approvals may still come from one key holder: they rest on two different keys
      exactly when the approvers are not all enrolled under one key. */
  lemma ApprovalsRestOnTwoKeysIff(suite: Suite, db: Db, caseId: string, patch: string)
    requires Verified(suite, db)
    ensures ApprovedByTwoKeys(suite, db, caseId, patch) <==> !ApproversShareAKey(db, caseId, patch)
  {
    hide Verified, Approves, KeyOf;
    if r, s :| r in db.events && s in db.events && Approves(r, caseId, patch) && Approves(s, caseId, patch)
               && Signed(suite, db, r) && Signed(suite, db, s)
               && KeyOf(db, r.body.signerId) != KeyOf(db, s.body.signerId) {
      assert r.body.signerId in Approvers(db, caseId, patch) && s.body.signerId in Approvers(db, caseId, patch);
    }
    if !ApproversShareAKey(db, caseId, patch) {
      var a, b :| a in Approvers(db, caseId, patch) && b in Approvers(db, caseId, patch)
                  && a in db.identities && b in db.identities && KeyOf(db, a) != KeyOf(db, b);
      var r :| r in db.events && Approves(r, caseId, patch) && r.body.signerId == a;
      var s :| s in db.events && Approves(s, caseId, patch) && s.body.signerId == b;
      SignerHasRole(suite, db, r);
      SignerHasRole(suite, db, s);
      assert ApprovedByTwoKeys(suite, db, caseId, patch);
    }
  }

  // -------------------------------------------------------------- enrolment

  const REVIEWER: string := "reviewer"

  /** No two reviewers are enrolled under one key. */
  ghost predicate KeysApart(db: Db) {
    forall p, q :: p in db.identities && q in db.identities && p != q
                   && db.identities[p].role == REVIEWER && db.identities[q].role == REVIEWER ==>
                     KeyOf(db, p) != KeyOf(db, q)
  }

  /** The call enrols a new reviewer under a key another reviewer already holds. */
  predicate SharesKey(suite: Suite, db: Db, op: Op) {
    && op.OpEnroll? && op.role == REVIEWER && op.signerId !in db.identities && suite.wellFormedKey(op.publicKey)
    && exists q :: q in db.identities && db.identities[q] == Identity(REVIEWER, op.publicKey)
  }

  lemma OthersKeepIdentities(suite: Suite, db: Db, op: Op)
    requires !op.OpEnroll?
    ensures Apply(suite, db, op).identities == db.identities
  {
    hide ContractOk, Canonical, EvidenceRoot, RoleAllows;
  }

  /** Storing one more identity. */
  lemma NewcomerKeepsApartIff(db: Db, after: Db, id: string, newcomer: Identity)
    requires id !in db.identities && after.identities == db.identities[id := newcomer]
    ensures KeysApart(after)
       <==> KeysApart(db) && !(newcomer.role == REVIEWER && exists q :: q in db.identities && db.identities[q] == newcomer)
  {
    hide REVIEWER;
    assert forall p :: p in db.identities ==> p in after.identities && after.identities[p] == db.identities[p] && p != id;
    assert id in after.identities && after.identities[id] == newcomer;
    if KeysApart(after) {
      forall p, q | p in db.identities && q in db.identities && p != q
                    && db.identities[p].role == REVIEWER && db.identities[q].role == REVIEWER
        ensures KeyOf(db, p) != KeyOf(db, q)
      {
        assert KeyOf(after, p) != KeyOf(after, q);
      }
      assert newcomer.role == REVIEWER ==>
          forall q :: q in db.identities && db.identities[q].role == REVIEWER ==> KeyOf(after, q) != KeyOf(after, id);
    }
  }

  lemma EnrolmentStores(suite: Suite, db: Db, id: string, role: string, key: string)
    ensures var after := Enroll(suite, db, id, role, key).db;
            after == if KnownRole(role) && suite.wellFormedKey(key) && id !in db.identities
                     then db.(identities := db.identities[id := Identity(role, key)]) else db
  {
    hide KnownRole;
  }

  lemma StepKeepsApartIff(suite: Suite, db: Db, op: Op)
    ensures KeysApart(Apply(suite, db, op)) <==> KeysApart(db) && !SharesKey(suite, db, op)
  {
    hide KeysApart;
    if !op.OpEnroll? {
      OthersKeepIdentities(suite, db, op);
      hide Apply;
      SameIdentities(db, Apply(suite, db, op));
    } else {
      EnrolmentStores(suite, db, op.signerId, op.role, op.publicKey);
      hide Enroll;
      var after := Apply(suite, db, op);
      assert after == Enroll(suite, db, op.signerId, op.role, op.publicKey).db;
      hide Apply;
      if KnownRole(op.role) && suite.wellFormedKey(op.publicKey) && op.signerId !in db.identities {
        NewcomerKeepsApartIff(db, after, op.signerId, Identity(op.role, op.publicKey));
      }
    }
  }

  lemma SameIdentities(db: Db, after: Db)
    requires after.identities == db.identities
    ensures KeysApart(after) <==> KeysApart(db)
  {
    assert KeysApart(after) ==> forall p, q :: p in db.identities && q in db.identities ==> KeyOf(after, p) == KeyOf(db, p);
  }

  /** No call of the run enrols a reviewer under a key another reviewer holds. */
  ghost predicate NoSharedEnrolment(suite: Suite, db: Db, ops: seq<Op>) {
    forall n :: 0 <= n < |ops| ==> !SharesKey(suite, Run(suite, db, ops[..n]), ops[n])
  }

  lemma NoSharedEnrolmentSplit(suite: Suite, db: Db, ops: seq<Op>)
    requires ops != []
    ensures var last := |ops| - 1;
            (NoSharedEnrolment(suite, db, ops)
             <==> NoSharedEnrolment(suite, db, ops[..last]) && !SharesKey(suite, Run(suite, db, ops[..last]), ops[last]))
  {
    hide SharesKey, Run;
    var last := |ops| - 1;
    var init := ops[..last];
    assert forall n :: 0 <= n < last ==> init[..n] == ops[..n] && init[n] == ops[n];
    if NoSharedEnrolment(suite, db, init) && !SharesKey(suite, Run(suite, db, init), ops[last]) {
      forall n | 0 <= n < |ops| ensures !SharesKey(suite, Run(suite, db, ops[..n]), ops[n]) {
        assert n < last ==> !SharesKey(suite, Run(suite, db, init[..n]), init[n]);
      }
    }
    if NoSharedEnrolment(suite, db, ops) {
      forall n | 0 <= n < |init| ensures !SharesKey(suite, Run(suite, db, init[..n]), init[n]) {
        assert !SharesKey(suite, Run(suite, db, ops[..n]), ops[n]);
      }
    }
  }

  /** Exactly which runs keep the reviewers' keys apart: those in which no accepted
      enrolment stores a reviewer under a key that another reviewer already holds, a
      comparison `enroll_identity` does not make. */
  lemma {:induction false} KeysApartIff(suite: Suite, db: Db, ops: seq<Op>)
    requires KeysApart(db)
    ensures KeysApart(Run(suite, db, ops)) <==> NoSharedEnrolment(suite, db, ops)
  {
    if ops != [] {
      hide KeysApart, SharesKey, Apply, NoSharedEnrolment;
      var last := |ops| - 1;
      KeysApartIff(suite, db, ops[..last]);
      StepKeepsApartIff(suite, Run(suite, db, ops[..last]), ops[last]);
      NoSharedEnrolmentSplit(suite, db, ops);
    }
  }

  /** With the keys apart, an eligible patch is approved under two different keys. */
  lemma ApartMeansTwoKeys(suite: Suite, db: Db, caseId: string, patch: string)
    requires Verified(suite, db) && KeysApart(db) && Eligible(db, caseId, patch)
    ensures ApprovedByTwoKeys(suite, db, caseId, patch)
  {
    hide Verified;
    var r, s := TwoApprovals(db, caseId, patch);
    SignerHasRole(suite, db, r);
    SignerHasRole(suite, db, s);
    assert r.body.signerId in Approvers(db, caseId, patch) && s.body.signerId in Approvers(db, caseId, patch);
    ApprovalsRestOnTwoKeysIff(suite, db, caseId, patch);
  }

  // ------------------------------------------- a run in which one key approves twice

  const APPROVAL: map<string, Json> := map[
    "patch_sha256" := Text(DemoSha()), "decision" := Text("approve_for_data"), "rationale_sha256" := Text(DemoSha())]

  const ATTESTATION: map<string, Json> := map[
    "validator_version" := Text("validator-1"), "report_sha256" := Text(DemoSha()), "checks" := Obj(map["overlap" := Flag(true)])]

  /** `staff` signs for the gateway and the validator, `secret` for both reviewers. */
  function Enrolments(suite: Suite, staff: string, secret: string): seq<Op> {
    [OpEnroll("gateway-1", "capture_gateway", suite.publicKey(staff)),
     OpEnroll("validator-1", "validator", suite.publicKey(staff)),
     OpEnroll("reviewer-a", "reviewer", suite.publicKey(secret)),
     OpEnroll("reviewer-b", "reviewer", suite.publicKey(secret))]
  }

  function ReviewOps(staff: string, secret: string): seq<Op> {
    [OpRegister(Demo(), "gateway-1", staff, 0),
     OpAppend("case-1", "VALIDATION_ATTESTED", ATTESTATION, "validator-1", staff, 1),
     OpAppend("case-1", "REVIEW_SUBMITTED", APPROVAL, "reviewer-a", secret, 2),
     OpAppend("case-1", "REVIEW_CONFIRMED", APPROVAL, "reviewer-b", secret, 3)]
  }

  function NextBody(suite: Suite, previous: EventBody, eventType: string, payload: map<string, Json>, signerId: string, now: int): EventBody {
    EventBody(previous.sequence + 1, previous.caseId, eventType, payload, previous.evidenceRoot, signerId, now, suite.event(previous))
  }

  function FirstBody(suite: Suite): EventBody {
    EventBody(1, Demo().caseId, "EVIDENCE_REGISTERED", RegisteredPayload(suite, Demo()),
              EvidenceRoot(suite, Demo()), "gateway-1", 0, GENESIS_HASH)
  }

  lemma FirstBodyShape(suite: Suite)
    ensures var body := FirstBody(suite);
            && body.sequence == 1 && body.caseId == "case-1" && body.eventType == "EVIDENCE_REGISTERED"
            && body.evidenceRoot == EvidenceRoot(suite, Demo())
  {
    hide EvidenceRoot, RegisteredPayload;
  }

  /** The bodies of the four events, as they are hashed. */
  function ReviewBodies(suite: Suite): (bodies: seq<EventBody>)
    ensures |bodies| == 4
  {
    var attested := NextBody(suite, FirstBody(suite), "VALIDATION_ATTESTED", ATTESTATION, "validator-1", 1);
    var submitted := NextBody(suite, attested, "REVIEW_SUBMITTED", APPROVAL, "reviewer-a", 2);
    [FirstBody(suite), attested, submitted, NextBody(suite, submitted, "REVIEW_CONFIRMED", APPROVAL, "reviewer-b", 3)]
  }

  /** The event table holds exactly these bodies, under their hashes. */
  ghost predicate Logged(suite: Suite, db: Db, bodies: seq<EventBody>) {
    |db.events| == |bodies| && forall i :: 0 <= i < |bodies| ==> db.events[i].body == bodies[i] && db.events[i].hash == suite.event(bodies[i])
  }

  /** The event after the first `n` of `bodies` is accepted, if its hash is new. */
  lemma AppendLogs(suite: Suite, db: Db, bodies: seq<EventBody>, n: nat, caseId: string, eventType: string,
                   payload: map<string, Json>, signerId: string, secret: string, now: int)
    requires 0 < n < |bodies| && Logged(suite, db, bodies[..n]) && bodies[n - 1].caseId == caseId
    requires bodies[n] == NextBody(suite, bodies[n - 1], eventType, payload, signerId, now)
    requires caseId in db.evidence && db.evidence[caseId].root == bodies[n - 1].evidenceRoot
    requires signerId in db.identities && db.identities[signerId].publicKey == suite.publicKey(secret)
    requires RoleAllows(db.identities[signerId].role, eventType)
    requires forall i :: 0 <= i < n ==> suite.event(bodies[i]) != suite.event(bodies[n])
    ensures var after := Apply(suite, db, OpAppend(caseId, eventType, payload, signerId, secret, now));
            Logged(suite, after, bodies[..n + 1]) && after.identities == db.identities && after.evidence == db.evidence
  {
    hide RoleAllows;
    assert Body(db, caseId, eventType, payload, bodies[n - 1].evidenceRoot, signerId, now) == bodies[n];
    forall e | e in db.events ensures e.hash != suite.event(bodies[n]) {
      var i :| 0 <= i < |db.events| && db.events[i] == e;
      assert bodies[..n][i] == bodies[i];
    }
  }

  lemma FirstLogs(suite: Suite, db: Db, m: Manifest, signerId: string, secret: string)
    requires ContractOk(m) && db.evidence == map[] && db.events == [] && signerId in db.identities
    requires db.identities[signerId] == Identity("capture_gateway", suite.publicKey(secret))
    ensures m.artifacts != []
    ensures var after := Apply(suite, db, OpRegister(m, signerId, secret, 0));
            && Logged(suite, after, [EventBody(1, m.caseId, "EVIDENCE_REGISTERED", RegisteredPayload(suite, m), EvidenceRoot(suite, m), signerId, 0, GENESIS_HASH)])
            && after.identities == db.identities && m.caseId in after.evidence && after.evidence[m.caseId].root == EvidenceRoot(suite, m)
  {
    hide EvidenceRoot, Canonical, ContractOk;
    ContractHasArtifacts(m);
  }

  lemma {:induction false} RunConcat(suite: Suite, db: Db, xs: seq<Op>, ys: seq<Op>)
    ensures Run(suite, db, xs + ys) == Run(suite, Run(suite, db, xs), ys)
  {
    hide Apply;
    if ys == [] {
      assert xs + ys == xs;
    } else {
      var last := |ys| - 1;
      assert (xs + ys)[..|xs + ys| - 1] == xs + ys[..last];
      RunConcat(suite, db, xs, ys[..last]);
    }
  }

  lemma RunOfFour(suite: Suite, db: Db, a: Op, b: Op, c: Op, d: Op)
    ensures Run(suite, db, [a, b, c, d]) == Apply(suite, Apply(suite, Apply(suite, Apply(suite, db, a), b), c), d)
  {
    hide Run, Apply;
    RunOfTwo(suite, db, a, b);
    RunOfTwo(suite, Run(suite, db, [a, b]), c, d);
    RunConcat(suite, db, [a, b], [c, d]);
    assert [a, b] + [c, d] == [a, b, c, d];
  }

  function Roster(suite: Suite, staff: string, secret: string): map<string, Identity> {
    map["gateway-1" := Identity("capture_gateway", suite.publicKey(staff)),
        "validator-1" := Identity("validator", suite.publicKey(staff)),
        "reviewer-a" := Identity(REVIEWER, suite.publicKey(secret)),
        "reviewer-b" := Identity(REVIEWER, suite.publicKey(secret))]
  }

  lemma EnrolmentsEnrol(suite: Suite, staff: string, secret: string)
    requires suite.wellFormedKey(suite.publicKey(staff)) && suite.wellFormedKey(suite.publicKey(secret))
    ensures Run(suite, Db(map[], map[], [], []), Enrolments(suite, staff, secret)) == Db(Roster(suite, staff, secret), map[], [], [])
  {
    hide Run;
    var ops := Enrolments(suite, staff, secret);
    RunOfFour(suite, Db(map[], map[], [], []), ops[0], ops[1], ops[2], ops[3]);
  }

  lemma ReviewBodiesShape(suite: Suite)
    ensures var bodies := ReviewBodies(suite);
            && bodies[0] == FirstBody(suite)
            && bodies[1] == NextBody(suite, bodies[0], "VALIDATION_ATTESTED", ATTESTATION, "validator-1", 1)
            && bodies[2] == NextBody(suite, bodies[1], "REVIEW_SUBMITTED", APPROVAL, "reviewer-a", 2)
            && bodies[3] == NextBody(suite, bodies[2], "REVIEW_CONFIRMED", APPROVAL, "reviewer-b", 3)
            && (forall i :: 0 <= i < 4 ==> bodies[i].sequence == i + 1 && bodies[i].caseId == "case-1" && bodies[i].evidenceRoot == EvidenceRoot(suite, Demo()))
  {
    hide FirstBody, APPROVAL, ATTESTATION, Demo, EvidenceRoot;
    FirstBodyShape(suite);
  }

  lemma BodiesHashApart(suite: Suite)
    requires CollisionFreeOn(suite.event, ToSet(ReviewBodies(suite)))
    ensures var bodies := ReviewBodies(suite);
            forall i, j :: 0 <= i < j < 4 ==> suite.event(bodies[i]) != suite.event(bodies[j])
  {
    ReviewBodiesShape(suite);
    hide ReviewBodies, FirstBody, APPROVAL, ATTESTATION, Demo, EvidenceRoot;
    var bodies := ReviewBodies(suite);
    assert forall i :: 0 <= i < 4 ==> bodies[i].sequence == i + 1 && bodies[i] in ToSet(bodies);
  }

  /** The next of the four is accepted. */
  lemma ReviewStep(suite: Suite, db: Db, n: nat, eventType: string, payload: map<string, Json>, signerId: string, secret: string, now: int)
    requires CollisionFreeOn(suite.event, ToSet(ReviewBodies(suite)))
    requires 1 <= n < 4 && Logged(suite, db, ReviewBodies(suite)[..n])
    requires ReviewBodies(suite)[n] == NextBody(suite, ReviewBodies(suite)[n - 1], eventType, payload, signerId, now)
    requires "case-1" in db.evidence && db.evidence["case-1"].root == EvidenceRoot(suite, Demo())
    requires signerId in db.identities && db.identities[signerId].publicKey == suite.publicKey(secret)
    requires RoleAllows(db.identities[signerId].role, eventType)
    ensures var after := Apply(suite, db, OpAppend("case-1", eventType, payload, signerId, secret, now));
            && Logged(suite, after, ReviewBodies(suite)[..n + 1]) && after.identities == db.identities && after.evidence == db.evidence
  {
    var bodies := ReviewBodies(suite);
    BodiesHashApart(suite);
    ReviewBodiesShape(suite);
    hide Demo, EvidenceRoot, APPROVAL, ATTESTATION, ReviewBodies, FirstBody, Logged, Apply, RoleAllows, NextBody;
    AppendLogs(suite, db, bodies, n, "case-1", eventType, payload, signerId, secret, now);
  }

  lemma RosterRoles(suite: Suite, staff: string, secret: string)
    ensures var ids := Roster(suite, staff, secret);
            && "gateway-1" in ids && ids["gateway-1"] == Identity("capture_gateway", suite.publicKey(staff))
            && "validator-1" in ids && ids["validator-1"].publicKey == suite.publicKey(staff) && RoleAllows(ids["validator-1"].role, "VALIDATION_ATTESTED")
            && "reviewer-a" in ids && ids["reviewer-a"].publicKey == suite.publicKey(secret) && RoleAllows(ids["reviewer-a"].role, "REVIEW_SUBMITTED")
            && "reviewer-b" in ids && ids["reviewer-b"].publicKey == suite.publicKey(secret) && RoleAllows(ids["reviewer-b"].role, "REVIEW_CONFIRMED")
  {
  }

  /** The four events are accepted and logged. */
  lemma ReviewIsLogged(suite: Suite, db: Db, staff: string, secret: string)
    requires db == Db(Roster(suite, staff, secret), map[], [], [])
    requires CollisionFreeOn(suite.event, ToSet(ReviewBodies(suite)))
    ensures var after := Run(suite, db, ReviewOps(staff, secret));
            Logged(suite, after, ReviewBodies(suite)) && after.identities == db.identities
  {
    hide Run, Apply, Logged, Demo, EvidenceRoot, APPROVAL, ATTESTATION;
    var bodies, ops := ReviewBodies(suite), ReviewOps(staff, secret);
    RunOfFour(suite, db, ops[0], ops[1], ops[2], ops[3]);
    FirstIsLogged(suite, db, staff, secret);
    ReviewBodiesShape(suite);
    RosterRoles(suite, staff, secret);
    hide ReviewBodies, FirstBody, NextBody, Roster, RoleAllows, ReviewOps;
    assert bodies[..1] == [bodies[0]] && bodies[..4] == bodies;
    var one := Apply(suite, db, OpRegister(Demo(), "gateway-1", staff, 0));
    ReviewStep(suite, one, 1, "VALIDATION_ATTESTED", ATTESTATION, "validator-1", staff, 1);
    var two := Apply(suite, one, OpAppend("case-1", "VALIDATION_ATTESTED", ATTESTATION, "validator-1", staff, 1));
    ReviewStep(suite, two, 2, "REVIEW_SUBMITTED", APPROVAL, "reviewer-a", secret, 2);
    var three := Apply(suite, two, OpAppend("case-1", "REVIEW_SUBMITTED", APPROVAL, "reviewer-a", secret, 2));
    ReviewStep(suite, three, 3, "REVIEW_CONFIRMED", APPROVAL, "reviewer-b", secret, 3);
  }

  lemma FirstIsLogged(suite: Suite, db: Db, staff: string, secret: string)
    requires db == Db(Roster(suite, staff, secret), map[], [], [])
    ensures var after := Apply(suite, db, OpRegister(Demo(), "gateway-1", staff, 0));
            && Logged(suite, after, [FirstBody(suite)]) && after.identities == db.identities
            && "case-1" in after.evidence && after.evidence["case-1"].root == EvidenceRoot(suite, Demo())
  {
    assert Demo().caseId == "case-1";
    DemoMeetsContract();
    RosterRoles(suite, staff, secret);
    hide Apply, Demo, ContractOk, EvidenceRoot, Logged, Roster, RoleAllows, RegisteredPayload;
    FirstLogs(suite, db, Demo(), "gateway-1", staff);
  }

  lemma ApprovingPayload(e: EventRow)
    ensures Approves(e.(body := e.body.(caseId := "case-1", eventType := "REVIEW_SUBMITTED", payload := APPROVAL)), "case-1", DemoSha())
    ensures Approves(e.(body := e.body.(caseId := "case-1", eventType := "REVIEW_CONFIRMED", payload := APPROVAL)), "case-1", DemoSha())
  {
    hide DemoSha;
  }

  lemma OnlyReviewsApprove(e: EventRow, caseId: string, patch: string)
    requires e.body.eventType == "EVIDENCE_REGISTERED" || e.body.eventType == "VALIDATION_ATTESTED"
    ensures !Approves(e, caseId, patch)
  {
  }

  lemma LoggedApprovals(suite: Suite, db: Db)
    requires Logged(suite, db, ReviewBodies(suite))
    ensures Approvers(db, "case-1", DemoSha()) == {"reviewer-a", "reviewer-b"}
    ensures Eligible(db, "case-1", DemoSha())
  {
    ReviewBodiesShape(suite);
    FirstBodyShape(suite);
    hide DemoSha, ReviewBodies, FirstBody, APPROVAL, ATTESTATION, Demo, EvidenceRoot, Approves;
    var bodies, es := ReviewBodies(suite), db.events;
    assert es[1] in es && es[2] in es && es[3] in es;
    forall e | e in es ensures e == es[0] || e == es[1] || e == es[2] || e == es[3] {
      var i :| 0 <= i < |es| && es[i] == e;
    }
    OnlyReviewsApprove(es[0], "case-1", DemoSha());
    OnlyReviewsApprove(es[1], "case-1", DemoSha());
    ApprovingPayload(es[2]);
    ApprovingPayload(es[3]);
    assert es[2].body == bodies[2] && es[3].body == bodies[3];
    assert es[2].body.(caseId := "case-1", eventType := "REVIEW_SUBMITTED", payload := APPROVAL) == es[2].body;
    assert es[3].body.(caseId := "case-1", eventType := "REVIEW_CONFIRMED", payload := APPROVAL) == es[3].body;
    assert Approvers(db, "case-1", DemoSha()) == {"reviewer-a", "reviewer-b"};
    assert |{"reviewer-a", "reviewer-b"}| == 2;
  }

  /** One holder of one secret enrols as two reviewers, submits and confirms the
      review: the ledger verifies, the patch is eligible, and no second key approved it. */
  lemma OneKeyApprovesTwice(suite: Suite, staff: string, secret: string)
    requires SigningWorks(suite) && suite.wellFormedKey(suite.publicKey(staff)) && suite.wellFormedKey(suite.publicKey(secret))
    requires CollisionFreeOn(suite.event, ToSet(ReviewBodies(suite)))
    ensures var db := Run(suite, Db(map[], map[], [], []), Enrolments(suite, staff, secret) + ReviewOps(staff, secret));
            && Verified(suite, db) && Eligible(db, "case-1", DemoSha())
            && Approvers(db, "case-1", DemoSha()) == {"reviewer-a", "reviewer-b"}
            && !KeysApart(db) && !ApprovedByTwoKeys(suite, db, "case-1", DemoSha())
  {
    hide Verified, Run, SigningWorks, Eligible, Signed, Logged;
    var empty := Db(map[], map[], [], []);
    var enrolments, reviews := Enrolments(suite, staff, secret), ReviewOps(staff, secret);
    hide Enrolments, ReviewOps, ReviewBodies, DemoSha;
    EnrolmentsEnrol(suite, staff, secret);
    var enrolled := Run(suite, empty, enrolments);
    ReviewIsLogged(suite, enrolled, staff, secret);
    RunConcat(suite, empty, enrolments, reviews);
    var db := Run(suite, enrolled, reviews);
    LoggedApprovals(suite, db);
    EmptyLedgerIsVerified(suite);
    VerifierAcceptsEveryRun(suite, empty, enrolments + reviews);
    assert KeyOf(db, "reviewer-a") == KeyOf(db, "reviewer-b") == suite.publicKey(secret);
    ApprovalsRestOnTwoKeysIff(suite, db, "case-1", DemoSha());
  }
}

/** What the audit ledger guarantees: the verifier accepts everything the ledger
    writes, and a head hash pins down the whole history behind it. */
module AuditRuns {
  import opened Prelude
  import opened Ordering
  import opened Merkle
  import opened AuditLedger

  // ---------------------------------- the contract ignores the artifact order

  lemma {:induction false} MovingMembers(artifacts: seq<Artifact>)
    ensures forall a :: a in Moving(artifacts) <==> a in artifacts && a.modality != CALIBRATION
  {
    if artifacts != [] {
      MovingMembers(artifacts[1..]);
      assert artifacts == [artifacts[0]] + artifacts[1..];
    }
  }

  lemma {:induction false} MaxStartIsMax(artifacts: seq<Artifact>)
    requires artifacts != []
    ensures forall a :: a in artifacts ==> a.startNs <= MaxStart(artifacts)
    ensures exists a :: a in artifacts && a.startNs == MaxStart(artifacts)
  {
    if |artifacts| > 1 {
      MaxStartIsMax(artifacts[1..]);
      assert artifacts == [artifacts[0]] + artifacts[1..];
      var a :| a in artifacts[1..] && a.startNs == MaxStart(artifacts[1..]);
      assert artifacts[0] in artifacts && a in artifacts;
    } else {
      assert artifacts[0] in artifacts;
    }
  }

  lemma {:induction false} MinEndIsMin(artifacts: seq<Artifact>)
    requires artifacts != []
    ensures forall a :: a in artifacts ==> MinEnd(artifacts) <= a.endNs
    ensures exists a :: a in artifacts && a.endNs == MinEnd(artifacts)
  {
    if |artifacts| > 1 {
      MinEndIsMin(artifacts[1..]);
      assert artifacts == [artifacts[0]] + artifacts[1..];
      var a :| a in artifacts[1..] && a.endNs == MinEnd(artifacts[1..]);
      assert artifacts[0] in artifacts && a in artifacts;
    } else {
      assert artifacts[0] in artifacts;
    }
  }

  lemma SameExtremes(xs: seq<Artifact>, ys: seq<Artifact>)
    requires xs != [] && forall a :: a in xs <==> a in ys
    ensures ys != [] && MaxStart(xs) == MaxStart(ys) && MinEnd(xs) == MinEnd(ys)
  {
    assert xs[0] in ys;
    MaxStartIsMax(xs);
    MaxStartIsMax(ys);
    MinEndIsMin(xs);
    MinEndIsMin(ys);
  }

  /** The contract and the evidence root of a manifest do not depend on the order in
      which its artifacts are listed. */
  lemma ArtifactOrderIsIrrelevant(suite: Suite, m: Manifest, n: Manifest)
    requires ContractOk(m) && n == m.(artifacts := n.artifacts) && multiset(n.artifacts) == multiset(m.artifacts)
    ensures ContractOk(n) && m.artifacts != [] && n.artifacts != [] && EvidenceRoot(suite, n) == EvidenceRoot(suite, m)
  {
    ContractHasArtifacts(m);
    PermutationFacts(m.artifacts, n.artifacts);
    forall a ensures a in m.artifacts <==> a in n.artifacts {
      assert a in ToSet(m.artifacts) <==> a in ToSet(n.artifacts);
    }
    MovingMembers(m.artifacts);
    MovingMembers(n.artifacts);
    SameExtremes(Moving(m.artifacts), Moving(n.artifacts));
    MapPermutes(Modality, m.artifacts, n.artifacts);
    PermutationFacts(MapSeq(Modality, m.artifacts), MapSeq(Modality, n.artifacts));
    MapPermutes(suite.leaf, m.artifacts, n.artifacts);
    PermutationInvariance(suite.node, Leaves(suite, m), Leaves(suite, n));
  }

  /** The manifest that is stored, read back and re-hashed has the root that was
      stored beside it. */
  lemma StoredManifestKeepsRoot(suite: Suite, m: Manifest)
    requires ContractOk(m)
    ensures m.artifacts != [] && EvidenceRowOk(suite, m.caseId, EvidenceRow(Canonical(m), EvidenceRoot(suite, m)))
  {
    ArtifactOrderIsIrrelevant(suite, m, Canonical(m));
  }

  // ---------------------------------------- the verifier accepts what is written

  datatype Op =
    | OpEnroll(signerId: string, role: string, publicKey: string)
    | OpRegister(manifest: Manifest, signerId: string, secret: string, now: int)
    | OpAppend(caseId: string, eventType: string, payload: map<string, Json>, signerId: string, secret: string, now: int)
    | OpAnchor(signerId: string, secret: string, now: int)

  function Apply(suite: Suite, db: Db, op: Op): Db {
    match op
    case OpEnroll(id, role, key) => Enroll(suite, db, id, role, key).db
    case OpRegister(m, id, sk, now) => Register(suite, db, m, id, sk, now).db
    case OpAppend(c, t, p, id, sk, now) => Append(suite, db, c, t, p, id, sk, now).db
    case OpAnchor(id, sk, now) => Anchor(suite, db, id, sk, now).db
  }

  function Run(suite: Suite, db: Db, ops: seq<Op>): Db {
    if ops == [] then db else Apply(suite, Run(suite, db, ops[..|ops| - 1]), ops[|ops| - 1])
  }

  /** Rows are only ever added. */
  ghost predicate Extends(db: Db, after: Db) {
    && (forall id :: id in db.identities ==> id in after.identities && after.identities[id] == db.identities[id])
    && (forall c :: c in db.evidence ==> c in after.evidence && after.evidence[c] == db.evidence[c])
    && db.events <= after.events && db.anchors <= after.anchors
  }

  lemma EventsStayOk(suite: Suite, db: Db, after: Db)
    requires Extends(db, after)
    ensures forall e :: EventOk(suite, db, e) ==> EventOk(suite, after, e)
    ensures forall a :: AnchorOk(suite, db, a) ==> AnchorOk(suite, after, a)
  {
  }

  lemma ExtendsTransitive(a: Db, b: Db, c: Db)
    requires Extends(a, b) && Extends(b, c)
    ensures Extends(a, c)
  {
  }

  /** New identities and new evidence do not disturb what was verified. */
  lemma GrowthKeepsVerified(suite: Suite, db: Db, after: Db)
    requires Verified(suite, db) && Extends(db, after) && after.events == db.events && after.anchors == db.anchors
    requires forall c :: c in after.evidence && c !in db.evidence ==> EvidenceRowOk(suite, c, after.evidence[c])
    ensures Verified(suite, after)
  {
    hide EventOk, AnchorOk, EvidenceRowOk;
    EventsStayOk(suite, db, after);
  }

  lemma AppendedEventIsLinked(suite: Suite, db: Db, row: EventRow)
    requires EventsVerified(suite, db) && EventOk(suite, db, row)
    requires row.body.sequence == NextSequence(db) && row.body.previous == HeadHash(db)
    ensures EventsVerified(suite, db.(events := db.events + [row]))
  {
  }

  lemma AppendedRow(suite: Suite, db: Db, caseId: string, eventType: string, payload: map<string, Json>, root: string,
                    signerId: string, secret: string, now: int) returns (row: EventRow)
    requires SigningWorks(suite) && caseId in db.evidence && db.evidence[caseId].root == root
    ensures var step := AppendInTx(suite, db, caseId, eventType, payload, root, signerId, secret, now);
            if step.outcome.Ok? then
              step.db == db.(events := db.events + [row]) && EventOk(suite, db, row)
              && row.body.sequence == NextSequence(db) && row.body.previous == HeadHash(db)
            else step.db == db
  {
    var body := Body(db, caseId, eventType, payload, root, signerId, now);
    row := EventRow(body, suite.event(body), suite.sign(secret, EventHash(suite.event(body))));
  }

  lemma AppendKeepsVerified(suite: Suite, db: Db, caseId: string, eventType: string, payload: map<string, Json>, root: string,
                            signerId: string, secret: string, now: int)
    requires SigningWorks(suite) && Verified(suite, db) && caseId in db.evidence && db.evidence[caseId].root == root
    ensures var step := AppendInTx(suite, db, caseId, eventType, payload, root, signerId, secret, now);
            Verified(suite, step.db) && Extends(db, step.db) && (step.outcome.Err? ==> step.db == db)
  {
    hide AppendInTx, EvidenceRowOk, EventOk, EventsVerified, AnchorOk;
    var step := AppendInTx(suite, db, caseId, eventType, payload, root, signerId, secret, now);
    var row := AppendedRow(suite, db, caseId, eventType, payload, root, signerId, secret, now);
    if step.outcome.Ok? {
      AppendedEventIsLinked(suite, db, row);
      EventsStayOk(suite, db, step.db);
    }
  }

  lemma RegisterKeepsVerified(suite: Suite, db: Db, m: Manifest, signerId: string, secret: string, now: int)
    requires SigningWorks(suite) && Verified(suite, db)
    ensures Verified(suite, Register(suite, db, m, signerId, secret, now).db)
    ensures Extends(db, Register(suite, db, m, signerId, secret, now).db)
  {
    hide Verified, ContractOk, EvidenceRowOk, EvidenceRoot, Canonical, AppendInTx, SigningWorks;
    if ContractOk(m) {
      StoredManifestKeepsRoot(suite, m);
      var row := EvidenceRow(Canonical(m), EvidenceRoot(suite, m));
      if m.caseId !in db.evidence || db.evidence[m.caseId] == row {
        var stored := db.(evidence := db.evidence[m.caseId := row]);
        GrowthKeepsVerified(suite, db, stored);
        AppendKeepsVerified(suite, stored, m.caseId, "EVIDENCE_REGISTERED", RegisteredPayload(suite, m), row.root, signerId, secret, now);
        ExtendsTransitive(db, stored,
          AppendInTx(suite, stored, m.caseId, "EVIDENCE_REGISTERED", RegisteredPayload(suite, m), row.root, signerId, secret, now).db);
      }
    }
  }

  lemma AnchoredRow(suite: Suite, db: Db, signerId: string, secret: string, now: int)
    requires SigningWorks(suite)
    ensures var step := Anchor(suite, db, signerId, secret, now);
            if step.outcome.Ok? then
              step.db == db.(anchors := db.anchors + [step.outcome.value]) && AnchorOk(suite, db, step.outcome.value)
            else step.db == db
  {
  }

  lemma AnchorKeepsVerified(suite: Suite, db: Db, signerId: string, secret: string, now: int)
    requires SigningWorks(suite) && Verified(suite, db)
    ensures Verified(suite, Anchor(suite, db, signerId, secret, now).db)
    ensures Extends(db, Anchor(suite, db, signerId, secret, now).db)
  {
    hide Anchor, AnchorOk, EventOk, EvidenceRowOk;
    AnchoredRow(suite, db, signerId, secret, now);
    EventsStayOk(suite, db, Anchor(suite, db, signerId, secret, now).db);
  }

  lemma StepKeepsVerified(suite: Suite, db: Db, op: Op)
    requires SigningWorks(suite) && Verified(suite, db)
    ensures Verified(suite, Apply(suite, db, op)) && Extends(db, Apply(suite, db, op))
  {
    hide Verified, SigningWorks, Register, AppendInTx, Anchor, EvidenceRowOk;
    match op
    case OpEnroll(id, role, key) => GrowthKeepsVerified(suite, db, Apply(suite, db, op));
    case OpRegister(m, id, sk, now) => RegisterKeepsVerified(suite, db, m, id, sk, now);
    case OpAppend(c, t, p, id, sk, now) =>
      if c in db.evidence { AppendKeepsVerified(suite, db, c, t, p, db.evidence[c].root, id, sk, now); }
    case OpAnchor(id, sk, now) => AnchorKeepsVerified(suite, db, id, sk, now);
  }

  /** The verifier accepts every ledger that the operations can produce, whatever mix
      of accepted and refused calls came before; and rows are never rewritten. */
  lemma {:induction false} VerifierAcceptsEveryRun(suite: Suite, db: Db, ops: seq<Op>)
    requires SigningWorks(suite) && Verified(suite, db)
    ensures Verified(suite, Run(suite, db, ops)) && Extends(db, Run(suite, db, ops))
  {
    hide Verified, Apply, SigningWorks;
    if ops != [] {
      var before := Run(suite, db, ops[..|ops| - 1]);
      VerifierAcceptsEveryRun(suite, db, ops[..|ops| - 1]);
      StepKeepsVerified(suite, before, ops[|ops| - 1]);
      ExtendsTransitive(db, before, Run(suite, db, ops));
    }
  }

  lemma EmptyLedgerIsVerified(suite: Suite)
    ensures Verified(suite, Db(map[], map[], [], []))
  {
  }

  // ------------------------------------------------------------ tamper evidence

  ghost function Bodies(db: Db): set<EventBody> {
    set i | 0 <= i < |db.events| :: db.events[i].body
  }

  /** Two ledgers that both verify and have the same hash at sequence `n` agree on
      every hashed field of the first `n` events. */
  lemma {:induction false} HeadPinsHistory(suite: Suite, a: Db, b: Db, n: nat)
    requires EventsVerified(suite, a) && EventsVerified(suite, b)
    requires 0 < n <= |a.events| && n <= |b.events| && a.events[n - 1].hash == b.events[n - 1].hash
    requires CollisionFreeOn(suite.event, Bodies(a) + Bodies(b))
    ensures forall i :: 0 <= i < n ==> a.events[i].body == b.events[i].body && a.events[i].hash == b.events[i].hash
  {
    var x, y := a.events[n - 1], b.events[n - 1];
    assert EventOk(suite, a, x) && EventOk(suite, b, y);
    assert x.body in Bodies(a) && y.body in Bodies(b);
    if n > 1 {
      var i := n - 2;
      assert a.events[i].hash == x.body.previous == y.body.previous == b.events[i].hash;
      HeadPinsHistory(suite, a, b, n - 1);
    }
  }

  /** An anchor kept elsewhere does the same for any two verified ledgers that carry
      it, even when one of them was rebuilt from scratch. */
  lemma AnchorPinsHistory(suite: Suite, a: Db, b: Db, x: AnchorRow, y: AnchorRow)
    requires Verified(suite, a) && Verified(suite, b) && x in a.anchors && y in b.anchors
    requires x.sequence == y.sequence && x.hash == y.hash
    requires CollisionFreeOn(suite.event, Bodies(a) + Bodies(b))
    ensures 0 < x.sequence <= |a.events| && x.sequence <= |b.events|
    ensures forall i :: 0 <= i < x.sequence ==> a.events[i].body == b.events[i].body
  {
    AnchorNamesItsEvent(suite, a, x);
    AnchorNamesItsEvent(suite, b, y);
    HeadPinsHistory(suite, a, b, x.sequence);
  }

  lemma AnchorNamesItsEvent(suite: Suite, db: Db, x: AnchorRow)
    requires Verified(suite, db) && x in db.anchors
    ensures 0 < x.sequence <= |db.events| && db.events[x.sequence - 1].hash == x.hash
  {
    hide EventOk, EvidenceRowOk;
    var i :| 0 <= i < |db.anchors| && db.anchors[i] == x;
    assert AnchorOk(suite, db, db.anchors[i]);
    var e :| e in db.events && e.body.sequence == x.sequence && e.hash == x.hash;
    var j :| 0 <= j < |db.events| && db.events[j] == e;
    assert db.events[j].body.sequence == j + 1;
  }

  /** Every message hashed for the evidence roots of two manifests. */
  ghost function EvidenceMessages(suite: Suite, m: Manifest, n: Manifest): set<string>
    requires m.artifacts != [] && n.artifacts != []
  {
    HashInputs(suite.node, Sort(Leaves(suite, m), LexLe)) + HashInputs(suite.node, Sort(Leaves(suite, n), LexLe))
  }

  /** SHA-256 is used on these two manifests without a collision, neither between
      artifacts, nor between pairs of nodes, nor between an artifact and a pair. */
  ghost predicate EvidenceHashesApart(suite: Suite, m: Manifest, n: Manifest, w: nat)
    requires m.artifacts != [] && n.artifacts != []
  {
    && FixedWidth(suite.node, w) && (forall x :: |suite.leaf(x)| == w)
    && CollisionFreeOn(suite.leaf, ToSet(m.artifacts) + ToSet(n.artifacts))
    && CollisionFreeOn(suite.node, EvidenceMessages(suite, m, n))
    && LeavesAreNotNodes(suite.node, Leaves(suite, m), EvidenceMessages(suite, m, n))
    && LeavesAreNotNodes(suite.node, Leaves(suite, n), EvidenceMessages(suite, m, n))
  }

  lemma DistinctArtifacts(suite: Suite, m: Manifest, others: set<Artifact>)
    requires ContractOk(m) && CollisionFreeOn(suite.leaf, ToSet(m.artifacts) + others)
    ensures Distinct(m.artifacts) && Distinct(Leaves(suite, m))
  {
    var modalities := MapSeq(Modality, m.artifacts);
    ToSetSize(modalities);
    forall i, j | 0 <= i < j < |m.artifacts| ensures m.artifacts[i] != m.artifacts[j] && Leaves(suite, m)[i] != Leaves(suite, m)[j] {
      assert modalities[i] != modalities[j];
      assert m.artifacts[i] in ToSet(m.artifacts) && m.artifacts[j] in ToSet(m.artifacts);
    }
  }

  lemma SameLeavesSameArtifacts(suite: Suite, m: Manifest, n: Manifest)
    requires CollisionFreeOn(suite.leaf, ToSet(m.artifacts) + ToSet(n.artifacts))
    requires multiset(Leaves(suite, m)) == multiset(Leaves(suite, n))
    ensures ToSet(m.artifacts) <= ToSet(n.artifacts)
  {
    forall a | a in m.artifacts ensures a in n.artifacts {
      var i :| 0 <= i < |m.artifacts| && m.artifacts[i] == a;
      assert Leaves(suite, m)[i] in multiset(Leaves(suite, n));
      var j :| 0 <= j < |n.artifacts| && Leaves(suite, n)[j] == Leaves(suite, m)[i];
      assert a in ToSet(m.artifacts) && n.artifacts[j] in ToSet(n.artifacts);
    }
  }

  /** The evidence root binds the artifacts, all their fields, up to listing order:
      any number of modalities, so trees of any two heights. */
  lemma RootBindsArtifacts(suite: Suite, m: Manifest, n: Manifest, w: nat)
    requires ContractOk(m) && ContractOk(n) && m.artifacts != [] && n.artifacts != []
    requires EvidenceHashesApart(suite, m, n, w)
    ensures EvidenceRoot(suite, m) == EvidenceRoot(suite, n) <==> multiset(m.artifacts) == multiset(n.artifacts)
  {
    hide ContractOk;
    DistinctArtifacts(suite, m, ToSet(n.artifacts));
    assert ToSet(n.artifacts) + ToSet(m.artifacts) == ToSet(m.artifacts) + ToSet(n.artifacts);
    DistinctArtifacts(suite, n, ToSet(m.artifacts));
    RootBindsLeaves(suite.node, Leaves(suite, m), Leaves(suite, n), w);
    if EvidenceRoot(suite, m) == EvidenceRoot(suite, n) {
      SameLeavesSameArtifacts(suite, m, n);
      SameLeavesSameArtifacts(suite, n, m);
      DistinctMultiset(m.artifacts);
      DistinctMultiset(n.artifacts);
    }
    if multiset(m.artifacts) == multiset(n.artifacts) {
      MapPermutes(suite.leaf, m.artifacts, n.artifacts);
    }
  }

  /** End to end: two verified ledgers with the same hash at sequence `n` hold the
      same artifacts for the case of every event up to `n`. */
  lemma HeadPinsEvidence(suite: Suite, a: Db, b: Db, n: nat, i: nat, w: nat)
    requires Verified(suite, a) && Verified(suite, b)
    requires i < n <= |a.events| && n <= |b.events| && a.events[n - 1].hash == b.events[n - 1].hash
    requires CollisionFreeOn(suite.event, Bodies(a) + Bodies(b))
    requires var c := a.events[i].body.caseId;
             && c in a.evidence && a.evidence[c].manifest.artifacts != []
             && c in b.evidence && b.evidence[c].manifest.artifacts != []
             && EvidenceHashesApart(suite, a.evidence[c].manifest, b.evidence[c].manifest, w)
    ensures var c := a.events[i].body.caseId;
            b.events[i].body.caseId == c
            && multiset(a.evidence[c].manifest.artifacts) == multiset(b.evidence[c].manifest.artifacts)
  {
    HeadPinsHistory(suite, a, b, n);
    var c := a.events[i].body.caseId;
    assert EventOk(suite, a, a.events[i]) && EventOk(suite, b, b.events[i]);
    assert EvidenceRowOk(suite, c, a.evidence[c]) && EvidenceRowOk(suite, c, b.evidence[c]);
    hide ContractOk, EventsVerified, EvidenceHashesApart;
    RootBindsArtifacts(suite, a.evidence[c].manifest, b.evidence[c].manifest, w);
  }

  /** What the verifier does not bind: it accepts another stored manifest for a case
      exactly when that manifest meets the contract, names the case and has the same
      root. The fields outside the artifacts are free. */
  lemma StoredManifestIsBoundByRootOnly(suite: Suite, db: Db, caseId: string, other: Manifest)
    requires Verified(suite, db) && caseId in db.evidence
    ensures var edited := db.(evidence := db.evidence[caseId := db.evidence[caseId].(manifest := other)]);
            Verified(suite, edited) <==>
              ContractOk(other) && other.caseId == caseId && other.artifacts != [] && EvidenceRoot(suite, other) == db.evidence[caseId].root
  {
    hide Verified, EvidenceRoot, ContractOk, EvidenceRowOk;
    var row := db.evidence[caseId].(manifest := other);
    var edited := db.(evidence := db.evidence[caseId := row]);
    EvidenceRowMeans(suite, caseId, row);
    SameRootsSameVerdict(suite, db, edited);
    assert edited.evidence[caseId] == row && forall c :: c in edited.evidence && c != caseId ==> edited.evidence[c] == db.evidence[c];
    VerifiedEvidence(suite, db);
  }

  lemma EvidenceRowMeans(suite: Suite, caseId: string, row: EvidenceRow)
    ensures EvidenceRowOk(suite, caseId, row) <==>
              ContractOk(row.manifest) && row.manifest.caseId == caseId && row.manifest.artifacts != [] && EvidenceRoot(suite, row.manifest) == row.root
  {
  }

  lemma VerifiedEvidence(suite: Suite, db: Db)
    requires Verified(suite, db)
    ensures forall c :: c in db.evidence ==> EvidenceRowOk(suite, c, db.evidence[c])
  {
  }

  /** Events and anchors look at the roots of the evidence rows, not at the manifests. */
  lemma SameRootsSameEvents(suite: Suite, a: Db, b: Db)
    requires a.identities == b.identities && a.events == b.events && a.anchors == b.anchors
    requires forall c :: (c in a.evidence <==> c in b.evidence) && (c in a.evidence ==> a.evidence[c].root == b.evidence[c].root)
    ensures forall e :: EventOk(suite, a, e) <==> EventOk(suite, b, e)
    ensures forall x :: AnchorOk(suite, a, x) <==> AnchorOk(suite, b, x)
  {
  }

  lemma SameRootsSameVerdict(suite: Suite, a: Db, b: Db)
    requires a.identities == b.identities && a.events == b.events && a.anchors == b.anchors
    requires forall c :: (c in a.evidence <==> c in b.evidence) && (c in a.evidence ==> a.evidence[c].root == b.evidence[c].root)
    requires Verified(suite, a)
    ensures Verified(suite, b) <==> forall c :: c in b.evidence ==> EvidenceRowOk(suite, c, b.evidence[c])
  {
    hide EventOk, AnchorOk, EvidenceRowOk;
    SameRootsSameEvents(suite, a, b);
    assert EventsVerified(suite, b);
  }

  /** In any verified ledger the preprocessing version of any case can be rewritten without
      the verifier noticing. */
  lemma VersionEditGoesUnnoticed(suite: Suite, db: Db, caseId: string, version: string)
    requires Verified(suite, db) && caseId in db.evidence && version != ""
    ensures var row := db.evidence[caseId];
            Verified(suite, db.(evidence := db.evidence[caseId := row.(manifest := row.manifest.(preprocessVersion := version))]))
  {
    hide Verified, EvidenceRowOk;
    var m := db.evidence[caseId].manifest;
    VerifiedEvidence(suite, db);
    EvidenceRowMeans(suite, caseId, db.evidence[caseId]);
    StoredManifestIsBoundByRootOnly(suite, db, caseId, m.(preprocessVersion := version));
  }

  function DemoSha(): string {
    seq(64, i => 'a')
  }

  function DemoArtifact(modality: string): Artifact {
    Artifact(modality, "s3://rig/" + modality, DemoSha(), 10, 1000, 2000, "artifact-v1", "rig-1")
  }

  function Demo(): Manifest {
    Manifest("case-1", "s3://episode", "session-1", "action-v1", "preprocess-v1",
             [DemoArtifact("calibration"), DemoArtifact("contact_events"), DemoArtifact("executed_actions"),
              DemoArtifact("pointcloud"), DemoArtifact("rgbd_video"), DemoArtifact("robot_proprio")])
  }

  lemma DemoModalities()
    ensures ToSet(MapSeq(Modality, Demo().artifacts)) == REQUIRED_MODALITIES && |REQUIRED_MODALITIES| == 6
  {
    var names := ["calibration", "contact_events", "executed_actions", "pointcloud", "rgbd_video", "robot_proprio"];
    assert MapSeq(Modality, Demo().artifacts) == names;
    assert ToSet(names) == REQUIRED_MODALITIES;
    assert forall i, j :: 0 <= i < j < 6 ==> names[i] != names[j];
    ToSetSize(names);
  }

  lemma DemoTimes()
    ensures forall a :: a in Demo().artifacts ==> a.startNs == 1000 && a.endNs == 2000
    ensures DemoArtifact("pointcloud") in Demo().artifacts && DemoArtifact("pointcloud").modality != CALIBRATION
  {
    assert Demo().artifacts[3] == DemoArtifact("pointcloud");
  }

  lemma DemoIsConcurrent()
    ensures Moving(Demo().artifacts) != [] && MaxStart(Moving(Demo().artifacts)) <= MinEnd(Moving(Demo().artifacts)) + TOLERANCE_NS
  {
    DemoTimes();
    hide Demo, Moving, MaxStart, MinEnd, DemoArtifact;
    var moving := Moving(Demo().artifacts);
    MovingMembers(Demo().artifacts);
    assert DemoArtifact("pointcloud") in moving;
    MaxStartIsMax(moving);
    MinEndIsMin(moving);
  }

  lemma DemoArtifactIsValid(modality: string)
    requires modality != ""
    ensures DemoArtifact(modality).Valid()
  {
    assert forall c :: c in DemoSha() ==> c == 'a';
  }

  lemma DemoArtifactsAreValid()
    ensures forall a :: a in Demo().artifacts ==> a.Valid()
  {
    hide Artifact.Valid;
    DemoArtifactIsValid("calibration");
    DemoArtifactIsValid("contact_events");
    DemoArtifactIsValid("executed_actions");
    DemoArtifactIsValid("pointcloud");
    DemoArtifactIsValid("rgbd_video");
    DemoArtifactIsValid("robot_proprio");
  }

  lemma DemoMeetsContract()
    ensures ContractOk(Demo())
  {
    DemoModalities();
    DemoIsConcurrent();
    DemoArtifactsAreValid();
    hide Artifact.Valid, Moving, MaxStart, MinEnd, ToSet, MapSeq, DemoArtifact;
  }

  lemma RegisterFirst(suite: Suite, db: Db, m: Manifest, signerId: string, secret: string, now: int)
    requires ContractOk(m) && db.evidence == map[] && db.events == [] && signerId in db.identities
    requires db.identities[signerId] == Identity("capture_gateway", suite.publicKey(secret))
    ensures m.artifacts != []
    ensures var after := Register(suite, db, m, signerId, secret, now).db;
            after.evidence == map[m.caseId := EvidenceRow(Canonical(m), EvidenceRoot(suite, m))] && |after.events| == 1
  {
    hide EvidenceRoot, Canonical, ContractOk;
    ContractHasArtifacts(m);
  }

  lemma RunOfTwo(suite: Suite, db: Db, first: Op, second: Op)
    ensures Run(suite, db, [first, second]) == Apply(suite, Apply(suite, db, first), second)
  {
    hide Apply;
    assert [first, second][..1] == [first] && [first][..0] == [];
    assert Run(suite, db, [first]) == Apply(suite, db, first);
  }

  /** A fresh ledger, one gateway, one case. */
  function FirstCase(suite: Suite, m: Manifest, secret: string): Db {
    Run(suite, Db(map[], map[], [], []),
        [OpEnroll("gateway-1", "capture_gateway", suite.publicKey(secret)), OpRegister(m, "gateway-1", secret, 0)])
  }

  lemma FirstCaseShape(suite: Suite, m: Manifest, secret: string)
    requires suite.wellFormedKey(suite.publicKey(secret)) && ContractOk(m)
    ensures var db := FirstCase(suite, m, secret);
            m.caseId in db.evidence && db.evidence[m.caseId].manifest.preprocessVersion == m.preprocessVersion && |db.events| == 1
  {
    hide Register, ContractOk, Canonical, EvidenceRoot, Run;
    var empty := Db(map[], map[], [], []);
    var enrolled := empty.(identities := map["gateway-1" := Identity("capture_gateway", suite.publicKey(secret))]);
    RunOfTwo(suite, empty, OpEnroll("gateway-1", "capture_gateway", suite.publicKey(secret)), OpRegister(m, "gateway-1", secret, 0));
    RegisterFirst(suite, enrolled, m, "gateway-1", secret, 0);
    CanonicalKeepsVersion(m);
  }

  /** A ledger the operations produce, whose one stored manifest was edited outside its
      artifacts, and which still verifies. */
  lemma EditedManifestStillVerifies(suite: Suite, secret: string)
    requires SigningWorks(suite) && suite.wellFormedKey(suite.publicKey(secret))
    ensures var db := FirstCase(suite, Demo(), secret);
            && "case-1" in db.evidence && db.evidence["case-1"].manifest.preprocessVersion == "preprocess-v1" && |db.events| == 1
            && var row := db.evidence["case-1"];
               Verified(suite, db.(evidence := db.evidence["case-1" := row.(manifest := row.manifest.(preprocessVersion := "preprocess-v2"))]))
  {
    var empty := Db(map[], map[], [], []);
    var ops := [OpEnroll("gateway-1", "capture_gateway", suite.publicKey(secret)), OpRegister(Demo(), "gateway-1", secret, 0)];
    EmptyLedgerIsVerified(suite);
    DemoMeetsContract();
    assert Demo().caseId == "case-1" && Demo().preprocessVersion == "preprocess-v1";
    hide Verified, SigningWorks, Run, Demo, ContractOk;
    FirstCaseShape(suite, Demo(), secret);
    VerifierAcceptsEveryRun(suite, empty, ops);
    VersionEditGoesUnnoticed(suite, FirstCase(suite, Demo(), secret), "case-1", "preprocess-v2");
  }

  lemma CanonicalKeepsVersion(m: Manifest)
    ensures Canonical(m).preprocessVersion == m.preprocessVersion
  {
  }

  // ---------------------------------------------------------------- eligibility

  /** The event carries a valid signature, over the hash of its fields, of the key its
      signer is enrolled under. */
  predicate Signed(suite: Suite, db: Db, e: EventRow) {
    && e.body.signerId in db.identities && e.hash == suite.event(e.body)
    && suite.verify(db.identities[e.body.signerId].publicKey, EventHash(e.hash), e.signature)
  }

  /** In a verified ledger an eligible patch rests on three different enrolled
      signer IDs: a validator who attested the case, and two reviewers who signed approvals
      of exactly this patch. */
  lemma EligibilityNeedsThreeSigners(suite: Suite, db: Db, caseId: string, patch: string)
    requires Verified(suite, db) && Eligible(db, caseId, patch)
    ensures exists v, r, s ::
      && v in db.events && r in db.events && s in db.events
      && v.body.caseId == caseId && v.body.eventType == "VALIDATION_ATTESTED"
      && Approves(r, caseId, patch) && Approves(s, caseId, patch)
      && v.body.signerId != r.body.signerId && v.body.signerId != s.body.signerId && r.body.signerId != s.body.signerId
      && Signed(suite, db, v) && Signed(suite, db, r) && Signed(suite, db, s)
      && db.identities[v.body.signerId].role == "validator"
      && db.identities[r.body.signerId].role == "reviewer" && db.identities[s.body.signerId].role == "reviewer"
  {
    hide Verified, Signed;
    var v :| v in db.events && v.body.caseId == caseId && v.body.eventType == "VALIDATION_ATTESTED";
    var r, s := TwoApprovals(db, caseId, patch);
    SignerHasRole(suite, db, v);
    SignerHasRole(suite, db, r);
    SignerHasRole(suite, db, s);
  }

  lemma TwoApprovals(db: Db, caseId: string, patch: string) returns (r: EventRow, s: EventRow)
    requires |Approvers(db, caseId, patch)| >= 2
    ensures r in db.events && s in db.events && Approves(r, caseId, patch) && Approves(s, caseId, patch)
    ensures r.body.signerId != s.body.signerId
  {
    var approvers := Approvers(db, caseId, patch);
    var p :| p in approvers;
    assert |approvers - {p}| == |approvers| - 1;
    var q :| q in approvers - {p};
    r :| r in db.events && Approves(r, caseId, patch) && r.body.signerId == p;
    s :| s in db.events && Approves(s, caseId, patch) && s.body.signerId == q;
  }

  lemma SignerHasRole(suite: Suite, db: Db, e: EventRow)
    requires Verified(suite, db) && e in db.events
    ensures Signed(suite, db, e)
    ensures e.body.eventType == "VALIDATION_ATTESTED" ==> db.identities[e.body.signerId].role == "validator"
    ensures e.body.eventType == "REVIEW_SUBMITTED" || e.body.eventType == "REVIEW_CONFIRMED" ==>
              db.identities[e.body.signerId].role == "reviewer"
  {
    hide Verified, RoleAllows;
    EventIsOk(suite, db, e);
    RolesAreSeparate(db.identities[e.body.signerId].role, e.body.eventType);
  }

  lemma RolesAreSeparate(role: string, eventType: string)
    requires RoleAllows(role, eventType)
    ensures eventType == "VALIDATION_ATTESTED" ==> role == "validator"
    ensures eventType == "REVIEW_SUBMITTED" || eventType == "REVIEW_CONFIRMED" ==> role == "reviewer"
  {
  }

  lemma EventIsOk(suite: Suite, db: Db, e: EventRow)
    requires Verified(suite, db) && e in db.events
    ensures EventOk(suite, db, e)
  {
    hide EventOk, EvidenceRowOk, AnchorOk;
    var i :| 0 <= i < |db.events| && db.events[i] == e;
  }

  /** Eligibility is never lost: a later rejection does not withdraw it. */
  lemma EligibilityIsKept(suite: Suite, db: Db, ops: seq<Op>, caseId: string, patch: string)
    requires SigningWorks(suite) && Verified(suite, db) && Eligible(db, caseId, patch)
    ensures Eligible(Run(suite, db, ops), caseId, patch)
  {
    hide Verified, Run;
    var after := Run(suite, db, ops);
    VerifierAcceptsEveryRun(suite, db, ops);
    assert forall e :: e in db.events ==> e in after.events;
    var before, now := Approvers(db, caseId, patch), Approvers(after, caseId, patch);
    assert before <= now;
    assert |now| == |before| + |now - before| by { assert now == before + (now - before); }
  }
}

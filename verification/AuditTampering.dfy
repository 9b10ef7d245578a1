/** What the verifier notices: exactly which replacements of a stored row leave a verified
    ledger verified, spelled out down to the signature check. */
module AuditTampering {
  import opened AuditLedger
  import opened AuditRuns
  import opened Prelude

  // ------------------------------------------------------------------ events

  function WithEvent(db: Db, i: nat, e: EventRow): (after: Db)
    requires i < |db.events|
    ensures after.identities == db.identities && after.evidence == db.evidence && after.anchors == db.anchors
    ensures after.events == db.events[i := e]
  {
    db.(events := db.events[i := e])
  }

  /** The replacement sits in the chain where the old row sat. */
  predicate FitsChain(events: seq<EventRow>, i: nat, e: EventRow)
    requires i < |events|
  {
    && e.body.sequence == i + 1
    && e.body.previous == (if i == 0 then GENESIS_HASH else events[i - 1].hash)
    && (i + 1 < |events| ==> events[i + 1].body.previous == e.hash)
  }

  /** Which events each role signs; anchors sign none. */
  predicate MayRecord(role: string, eventType: string) {
    match role
    case "capture_gateway" => eventType == "EVIDENCE_REGISTERED"
    case "validator" => eventType == "VALIDATION_ATTESTED"
    case "reviewer" => eventType in {"REVIEW_SUBMITTED", "REVIEW_CONFIRMED", "REVIEW_REJECTED"}
    case _ => false
  }

  /** Its signer is enrolled in a role that may sign this, it is bound to the root of its
      case, its hash is the hash of its fields, and the signature is the signer's. */
  predicate Authentic(suite: Suite, db: Db, e: EventRow) {
    && e.body.signerId in db.identities
    && MayRecord(db.identities[e.body.signerId].role, e.body.eventType)
    && e.body.caseId in db.evidence && db.evidence[e.body.caseId].root == e.body.evidenceRoot
    && e.hash == suite.event(e.body)
    && suite.verify(db.identities[e.body.signerId].publicKey, EventHash(e.hash), e.signature)
  }

  lemma AuthenticIsOk(suite: Suite, db: Db, e: EventRow)
    ensures Authentic(suite, db, e) <==> EventOk(suite, db, e)
  {
  }

  lemma SameTablesSameEvents(suite: Suite, a: Db, b: Db)
    requires a.identities == b.identities && a.evidence == b.evidence
    ensures forall e :: EventOk(suite, a, e) <==> EventOk(suite, b, e)
  {
  }

  lemma ChainWithEvent(events: seq<EventRow>, i: nat, e: EventRow)
    requires i < |events| && Linked(events)
    ensures Linked(events[i := e]) <==> FitsChain(events, i, e)
  {
    var after := events[i := e];
    if Linked(after) {
      assert after[i] == e;
      if i > 0 { assert after[i - 1] == events[i - 1]; }
      if i + 1 < |events| { assert after[i + 1] == events[i + 1]; }
    }
    if FitsChain(events, i, e) {
      forall j, k | 0 <= j < k < |after| && k == j + 1 ensures after[k].body.previous == after[j].hash {
        assert events[k].body.previous == events[j].hash;
      }
      assert forall j :: 0 <= j < |after| ==> events[j].body.sequence == j + 1;
    }
  }

  /** No anchor of event `i` names another hash. */
  ghost predicate KeepsAnchors(db: Db, i: nat, e: EventRow) {
    forall n :: 0 <= n < |db.anchors| && db.anchors[n].sequence == i + 1 ==> db.anchors[n].hash == e.hash
  }

  lemma AnchorWithEvent(suite: Suite, db: Db, i: nat, e: EventRow, a: AnchorRow)
    requires i < |db.events| && Linked(db.events) && e.body.sequence == i + 1 && AnchorOk(suite, db, a)
    ensures AnchorOk(suite, WithEvent(db, i, e), a) <==> (a.sequence == i + 1 ==> a.hash == e.hash)
  {
    var after := WithEvent(db, i, e);
    hide Linked, WithEvent;
    var x :| x in db.events && x.body.sequence == a.sequence && x.hash == a.hash;
    var j :| 0 <= j < |db.events| && db.events[j] == x;
    SequenceIsPosition(db.events);
    assert forall k :: 0 <= k < |db.events| && k != i ==> after.events[k] == db.events[k];
    if a.sequence == i + 1 {
      assert after.events[i] == e;
      forall y | y in after.events && y.body.sequence == a.sequence ensures y == e {
        var k :| 0 <= k < |after.events| && after.events[k] == y;
      }
    } else {
      assert after.events[j] == x;
    }
  }

  lemma SequenceIsPosition(events: seq<EventRow>)
    requires Linked(events)
    ensures forall i :: 0 <= i < |events| ==> events[i].body.sequence == i + 1
  {
  }

  lemma VerifiedParts(suite: Suite, db: Db)
    ensures Verified(suite, db) <==>
            && (forall c :: c in db.evidence ==> EvidenceRowOk(suite, c, db.evidence[c]))
            && Linked(db.events) && (forall i :: 0 <= i < |db.events| ==> EventOk(suite, db, db.events[i]))
            && (forall n :: 0 <= n < |db.anchors| ==> AnchorOk(suite, db, db.anchors[n]))
  {
    hide EvidenceRowOk, EventOk, AnchorOk, Linked;
  }

  /** Every other row passes as before. */
  lemma OtherRowsPass(suite: Suite, db: Db, i: nat, e: EventRow)
    requires i < |db.events| && forall j :: 0 <= j < |db.events| ==> EventOk(suite, db, db.events[j])
    ensures (forall j :: 0 <= j < |db.events| ==> EventOk(suite, WithEvent(db, i, e), WithEvent(db, i, e).events[j])) <==> EventOk(suite, db, e)
  {
    var after := WithEvent(db, i, e);
    SameTablesSameEvents(suite, db, after);
    hide EventOk, WithEvent;
    assert after.events[i] == e;
    forall j | 0 <= j < |after.events| && j != i ensures EventOk(suite, db, after.events[j]) {
      assert after.events[j] == db.events[j];
    }
  }

  lemma AnchorsPass(suite: Suite, db: Db, i: nat, e: EventRow)
    requires i < |db.events| && Linked(db.events) && e.body.sequence == i + 1
    requires forall n :: 0 <= n < |db.anchors| ==> AnchorOk(suite, db, db.anchors[n])
    ensures (forall n :: 0 <= n < |db.anchors| ==> AnchorOk(suite, WithEvent(db, i, e), db.anchors[n])) <==> KeepsAnchors(db, i, e)
  {
    hide AnchorOk, WithEvent, Linked;
    forall n | 0 <= n < |db.anchors|
      ensures AnchorOk(suite, WithEvent(db, i, e), db.anchors[n]) <==> (db.anchors[n].sequence == i + 1 ==> db.anchors[n].hash == e.hash)
    {
      AnchorWithEvent(suite, db, i, e, db.anchors[n]);
    }
  }

  /** An event of a verified ledger can be replaced without the verifier noticing exactly
      by a row that is authentic, fits the chain, and is what the anchors of that position
      name. */
  lemma ReplacedEventVerifiesIff(suite: Suite, db: Db, i: nat, e: EventRow)
    requires Verified(suite, db) && i < |db.events|
    ensures Verified(suite, WithEvent(db, i, e)) <==> Authentic(suite, db, e) && FitsChain(db.events, i, e) && KeepsAnchors(db, i, e)
  {
    var after := WithEvent(db, i, e);
    VerifiedParts(suite, db);
    VerifiedParts(suite, after);
    ChainWithEvent(db.events, i, e);
    AuthenticIsOk(suite, db, e);
    OtherRowsPass(suite, db, i, e);
    if FitsChain(db.events, i, e) { AnchorsPass(suite, db, i, e); }
    hide Verified, EvidenceRowOk, EventOk, AnchorOk, Linked, WithEvent, Authentic, KeepsAnchors;
  }

  lemma StoredEventPasses(suite: Suite, db: Db, i: nat)
    requires Verified(suite, db) && i < |db.events|
    ensures Authentic(suite, db, db.events[i]) && FitsChain(db.events, i, db.events[i]) && KeepsAnchors(db, i, db.events[i])
  {
    hide Verified, Authentic, FitsChain, KeepsAnchors;
    WithSameEvent(db, i);
    ReplacedEventVerifiesIff(suite, db, i, db.events[i]);
  }

  lemma WithSameEvent(db: Db, i: nat)
    requires i < |db.events|
    ensures WithEvent(db, i, db.events[i]) == db
  {
    assert db.events[i := db.events[i]] == db.events;
  }

  lemma SameButSigned(suite: Suite, db: Db, i: nat, e: EventRow)
    requires i < |db.events| && e.body == db.events[i].body && e.hash == db.events[i].hash
    requires Authentic(suite, db, db.events[i]) && FitsChain(db.events, i, db.events[i]) && KeepsAnchors(db, i, db.events[i])
    ensures e.body.signerId in db.identities && FitsChain(db.events, i, e) && KeepsAnchors(db, i, e)
    ensures Authentic(suite, db, e) <==> suite.verify(db.identities[e.body.signerId].publicKey, EventHash(e.hash), e.signature)
  {
  }

  /** The signature column alone: another signature passes exactly when it verifies under
      the key enrolled for the signer. */
  lemma ReplacedSignatureVerifiesIff(suite: Suite, db: Db, i: nat, signature: string)
    requires Verified(suite, db) && i < |db.events|
    ensures var e := db.events[i];
            && e.body.signerId in db.identities
            && (Verified(suite, db.(events := db.events[i := e.(signature := signature)]))
                <==> suite.verify(db.identities[e.body.signerId].publicKey, EventHash(e.hash), signature))
  {
    var e := db.events[i].(signature := signature);
    StoredEventPasses(suite, db, i);
    ReplacedEventVerifiesIff(suite, db, i, e);
    SameButSigned(suite, db, i, e);
    hide Verified, Authentic, FitsChain, KeepsAnchors;
  }

  /** Somebody holds the hash of event `i`: the next event, or an anchor. */
  ghost predicate Held(db: Db, i: nat)
    requires i < |db.events|
  {
    i + 1 < |db.events| || exists n :: 0 <= n < |db.anchors| && db.anchors[n].sequence == i + 1
  }

  /** Of an event that the next one or an anchor holds, only the signature can be
      exchanged, and only for another valid one of the same signer. */
  lemma HeldEventIsFixed(suite: Suite, db: Db, i: nat, e: EventRow)
    requires Verified(suite, db) && i < |db.events| && Held(db, i)
    requires CollisionFreeOn(suite.event, {db.events[i].body, e.body})
    ensures Verified(suite, db.(events := db.events[i := e]))
       <==> && e.body == db.events[i].body && e.hash == db.events[i].hash
            && e.body.signerId in db.identities
            && suite.verify(db.identities[e.body.signerId].publicKey, EventHash(e.hash), e.signature)
  {
    StoredEventPasses(suite, db, i);
    ReplacedEventVerifiesIff(suite, db, i, e);
    HeldMeansSameHash(suite, db, i, e);
    if e.body == db.events[i].body && e.hash == db.events[i].hash { SameButSigned(suite, db, i, e); }
    hide Verified, FitsChain, KeepsAnchors, Authentic;
  }

  lemma HeldMeansSameHash(suite: Suite, db: Db, i: nat, e: EventRow)
    requires i < |db.events| && Held(db, i) && CollisionFreeOn(suite.event, {db.events[i].body, e.body})
    requires Authentic(suite, db, db.events[i]) && FitsChain(db.events, i, db.events[i]) && KeepsAnchors(db, i, db.events[i])
    ensures Authentic(suite, db, e) && FitsChain(db.events, i, e) && KeepsAnchors(db, i, e) ==>
              e.hash == db.events[i].hash && e.body == db.events[i].body
  {
  }

  // ----------------------------------------------------------------- anchors

  /** The anchor names the hash at its sequence number, signed by an enrolled anchor. */
  predicate AnchorHolds(suite: Suite, db: Db, a: AnchorRow) {
    && a.signerId in db.identities && db.identities[a.signerId].role == "anchor"
    && 0 < a.sequence <= |db.events| && db.events[a.sequence - 1].hash == a.hash
    && suite.verify(db.identities[a.signerId].publicKey, ChainHead(a.sequence, a.hash, a.createdNs), a.signature)
  }

  lemma AnchorHoldsIsOk(suite: Suite, db: Db, a: AnchorRow)
    requires Linked(db.events)
    ensures AnchorHolds(suite, db, a) <==> AnchorOk(suite, db, a)
  {
    SequenceIsPosition(db.events);
    hide Linked;
    if AnchorOk(suite, db, a) {
      var e :| e in db.events && e.body.sequence == a.sequence && e.hash == a.hash;
      var i :| 0 <= i < |db.events| && db.events[i] == e;
    }
    if AnchorHolds(suite, db, a) { assert db.events[a.sequence - 1] in db.events; }
  }

  lemma SameRowsSameAnchors(suite: Suite, a: Db, b: Db)
    requires a.identities == b.identities && a.events == b.events
    ensures forall x :: AnchorOk(suite, a, x) <==> AnchorOk(suite, b, x)
  {
  }

  /** With other anchors only the anchors have to be looked at. */
  lemma OtherAnchors(suite: Suite, db: Db, anchors: seq<AnchorRow>)
    requires Verified(suite, db)
    ensures Verified(suite, db.(anchors := anchors)) <==> forall n :: 0 <= n < |anchors| ==> AnchorHolds(suite, db, anchors[n])
  {
    var after := db.(anchors := anchors);
    VerifiedParts(suite, db);
    VerifiedParts(suite, after);
    SameTablesSameEvents(suite, db, after);
    SameRowsSameAnchors(suite, db, after);
    hide Verified, EvidenceRowOk, EventOk, AnchorOk, Linked, AnchorHolds;
    forall n | 0 <= n < |anchors| ensures AnchorHolds(suite, db, anchors[n]) <==> AnchorOk(suite, db, anchors[n]) {
      AnchorHoldsIsOk(suite, db, anchors[n]);
    }
  }

  /** An anchor of a verified ledger can be replaced exactly by one that names a hash of
      the chain at its position, under a valid signature of an enrolled anchor. */
  lemma ReplacedAnchorVerifiesIff(suite: Suite, db: Db, n: nat, a: AnchorRow)
    requires Verified(suite, db) && n < |db.anchors|
    ensures Verified(suite, db.(anchors := db.anchors[n := a])) <==> AnchorHolds(suite, db, a)
  {
    hide Verified, AnchorHolds;
    OtherAnchors(suite, db, db.anchors[n := a]);
    assert db.(anchors := db.anchors) == db;
    OtherAnchors(suite, db, db.anchors);
    assert db.anchors[n := a][n] == a;
    assert forall m :: 0 <= m < |db.anchors| && m != n ==> db.anchors[n := a][m] == db.anchors[m];
  }

  /** The signature column of an anchor alone. */
  lemma ReplacedAnchorSignatureVerifiesIff(suite: Suite, db: Db, n: nat, signature: string)
    requires Verified(suite, db) && n < |db.anchors|
    ensures var a := db.anchors[n];
            && a.signerId in db.identities
            && (Verified(suite, db.(anchors := db.anchors[n := a.(signature := signature)]))
                <==> suite.verify(db.identities[a.signerId].publicKey, ChainHead(a.sequence, a.hash, a.createdNs), signature))
  {
    VerifiedParts(suite, db);
    AnchorHoldsIsOk(suite, db, db.anchors[n]);
    ReplacedAnchorVerifiesIff(suite, db, n, db.anchors[n].(signature := signature));
    hide Verified, EvidenceRowOk, EventOk, AnchorOk, Linked;
  }

  // ---------------------------------------------------------------- evidence

  /** An evidence row can be replaced exactly by one whose manifest meets the contract,
      names the case and has the stored root, if that is the root the case's events name. */
  lemma ReplacedEvidenceVerifiesIff(suite: Suite, db: Db, caseId: string, row: EvidenceRow)
    requires Verified(suite, db) && caseId in db.evidence
    ensures Verified(suite, db.(evidence := db.evidence[caseId := row]))
       <==> && ContractOk(row.manifest) && row.manifest.caseId == caseId
            && row.manifest.artifacts != [] && EvidenceRoot(suite, row.manifest) == row.root
            && EventsName(db, caseId, row.root)
  {
    hide Verified, ContractOk, EvidenceRoot, EvidenceRowOk, EventOk, EventsName;
    EvidenceRowMeans(suite, caseId, row);
    EventsWithRow(suite, db, caseId, row);
    OtherEvidence(suite, db, db.evidence[caseId := row]);
    VerifiedEvidence(suite, db);
    assert db.evidence[caseId := row][caseId] == row;
    assert forall c :: c in db.evidence && c != caseId ==> db.evidence[caseId := row][c] == db.evidence[c];
  }

  /** With other evidence only the evidence and its bindings have to be looked at. */
  lemma OtherEvidence(suite: Suite, db: Db, evidence: map<string, EvidenceRow>)
    requires Verified(suite, db)
    ensures Verified(suite, db.(evidence := evidence))
       <==> && (forall c :: c in evidence ==> EvidenceRowOk(suite, c, evidence[c]))
            && (forall i :: 0 <= i < |db.events| ==> EventOk(suite, db.(evidence := evidence), db.events[i]))
  {
    EvidenceParts(suite, db, db.evidence);
    EvidenceParts(suite, db, evidence);
    assert db.(evidence := db.evidence) == db;
    hide Verified, EvidenceRowOk, EventOk;
  }

  lemma EvidenceParts(suite: Suite, db: Db, evidence: map<string, EvidenceRow>)
    ensures Verified(suite, db.(evidence := evidence))
       <==> && (forall c :: c in evidence ==> EvidenceRowOk(suite, c, evidence[c]))
            && (forall i :: 0 <= i < |db.events| ==> EventOk(suite, db.(evidence := evidence), db.events[i]))
            && Linked(db.events) && (forall n :: 0 <= n < |db.anchors| ==> AnchorOk(suite, db, db.anchors[n]))
  {
    var after := db.(evidence := evidence);
    VerifiedParts(suite, after);
    SameRowsSameAnchors(suite, db, after);
    hide Verified, EvidenceRowOk, EventOk, AnchorOk, Linked;
  }

  /** The events of the case name this root. */
  predicate EventsName(db: Db, caseId: string, root: string) {
    forall i :: 0 <= i < |db.events| && db.events[i].body.caseId == caseId ==> db.events[i].body.evidenceRoot == root
  }

  lemma EventsWithRow(suite: Suite, db: Db, caseId: string, row: EvidenceRow)
    requires caseId in db.evidence && Verified(suite, db)
    ensures (forall i :: 0 <= i < |db.events| ==> EventOk(suite, db.(evidence := db.evidence[caseId := row]), db.events[i]))
       <==> EventsName(db, caseId, row.root)
  {
    VerifiedParts(suite, db);
    hide Verified, EventOk, Linked, EvidenceRowOk, AnchorOk;
    forall i | 0 <= i < |db.events|
      ensures EventOk(suite, db.(evidence := db.evidence[caseId := row]), db.events[i])
              <==> (db.events[i].body.caseId == caseId ==> db.events[i].body.evidenceRoot == row.root)
    {
      EventWithRow(suite, db, caseId, row, db.events[i]);
    }
  }

  lemma EventWithRow(suite: Suite, db: Db, caseId: string, row: EvidenceRow, e: EventRow)
    requires caseId in db.evidence && EventOk(suite, db, e)
    ensures EventOk(suite, db.(evidence := db.evidence[caseId := row]), e) <==> (e.body.caseId == caseId ==> e.body.evidenceRoot == row.root)
  {
    hide RoleAllows;
  }
}

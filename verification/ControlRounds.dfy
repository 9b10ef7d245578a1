/** The control plane rank by rank: a round in which every rank runs its own program and
    the collectives are rendezvous, and the topology round that starts an epoch. */
module ControlRounds {
  import opened ControlPlane
  import opened ControlPlaneProofs
  import opened Ordering
  import opened Prelude
  import opened UpdatePlanner

  // ------------------------------------------------------ one rank, one program

  /** Where a rank is in the receiving half of `broadcast_topology_aware_plan`: at its own
      checks, in the exchange of digest lengths, in the exchange of padded digests, or
      out of it. */
  datatype Pc = Checking | AtLengths | AtDigests | Finished(out: Outcome<UpdatePlan>)

  /** One rank's local step, or an exchange that every rank has entered. */
  datatype Move = Local(rank: nat) | ExchangeLengths | ExchangeDigests

  datatype Setting = Setting(c: Codec, views: seq<RankView>, received: seq<Bytes>) {
    predicate Valid() {
      |views| == |received| > 0
    }

    function Digests(): (ds: seq<Bytes>)
      ensures |ds| == |received|
    {
      MapSeq(c.digest, received)
    }
  }

  /** A rank raises on its own, or enters the length exchange. */
  function LocalStep(s: Setting, r: nat): Pc
    requires s.Valid() && r < |s.received|
  {
    if Accepted(s.c, s.views[r], |s.received|, s.received[r]) && Sendable(s.Digests()[r], MAX_DIGEST_BYTES) then AtLengths
    else Finished(Raised)
  }

  /** Every rank looks at the lengths it was handed. */
  function AfterLengths(lengths: seq<int>): Pc {
    if exists q :: 0 <= q < |lengths| && !(0 < lengths[q] <= MAX_DIGEST_BYTES) then Finished(Raised) else AtDigests
  }

  /** Rank `r` trims the tensors it was handed and compares them. */
  function AfterDigests(s: Setting, r: nat, wires: seq<Bytes>, lengths: seq<int>): Pc
    requires s.Valid() && r < |s.received| && wires != []
    requires |wires| == |lengths| && forall q :: 0 <= q < |wires| ==> 0 <= lengths[q] <= |wires[q]|
  {
    if DiffersFromFirst(Trimmed(wires, lengths)) then Finished(Raised)
    else if s.c.plan(s.received[r]).None? then Finished(Raised)
    else Finished(Returned(s.c.plan(s.received[r]).value))
  }

  predicate AllAt(pcs: seq<Pc>, pc: Pc) {
    forall r :: 0 <= r < |pcs| ==> pcs[r] == pc
  }

  function Apply(s: Setting, pcs: seq<Pc>, move: Move): (after: seq<Pc>)
    requires s.Valid() && |pcs| == |s.received|
    ensures |after| == |pcs|
  {
    match move
    case Local(r) => if r < |pcs| && pcs[r].Checking? then pcs[r := LocalStep(s, r)] else pcs
    case ExchangeLengths =>
      if AllAt(pcs, AtLengths) then seq(|pcs|, r => AfterLengths(MapSeq(Length, s.Digests()))) else pcs
    case ExchangeDigests =>
      if AllAt(pcs, AtDigests) then
        TrimUndoesPad(s.Digests());
        seq(|pcs|, r requires 0 <= r < |pcs| => AfterDigests(s, r, Wires(s.Digests()), MapSeq(Length, s.Digests())))
      else pcs
  }

  function Exec(s: Setting, moves: seq<Move>): (pcs: seq<Pc>)
    requires s.Valid()
    ensures |pcs| == |s.received|
  {
    if moves == [] then seq(|s.received|, r => Checking) else Apply(s, Exec(s, moves[..|moves| - 1]), moves[|moves| - 1])
  }

  /** No move changes anything any more. */
  ghost predicate Settled(s: Setting, pcs: seq<Pc>)
    requires s.Valid() && |pcs| == |s.received|
  {
    forall move :: Apply(s, pcs, move) == pcs
  }

  function Observed(pc: Pc): Outcome<UpdatePlan> {
    if pc.Finished? then pc.out else Blocked
  }

  // --------------------------------------------------------------- every schedule

  ghost predicate Passes(s: Setting, r: nat)
    requires s.Valid() && r < |s.received|
  {
    Accepted(s.c, s.views[r], |s.received|, s.received[r])
  }

  /** Before the exchanges each rank is where its own checks put it; after them all ranks
      passed and all have the outcome of the round. */
  ghost predicate Inv(s: Setting, pcs: seq<Pc>)
    requires s.Valid() && |pcs| == |s.received|
  {
    || (forall r :: 0 <= r < |pcs| ==>
          pcs[r].Checking? || (pcs[r].AtLengths? && Passes(s, r)) || (pcs[r] == Finished(Raised) && !Passes(s, r)))
    || (AllAt(pcs, AtDigests) && forall r :: 0 <= r < |pcs| ==> Passes(s, r))
    || ((forall r :: 0 <= r < |pcs| ==> Passes(s, r))
        && forall r :: 0 <= r < |pcs| ==> pcs[r] == Finished(ReceivePlan(s.c, s.views, s.received)[r]))
  }

  ghost predicate DigestsAreFull(s: Setting) {
    forall b :: b in s.received ==> |s.c.digest(b)| == DIGEST_BYTES
  }

  lemma LengthsPass(s: Setting)
    requires s.Valid() && DigestsAreFull(s)
    ensures AfterLengths(MapSeq(Length, s.Digests())) == AtDigests
    ensures forall r :: 0 <= r < |s.received| ==> Sendable(s.Digests()[r], MAX_DIGEST_BYTES)
  {
  }

  lemma PassedMeansDecoded(s: Setting, r: nat)
    requires s.Valid() && r < |s.received| && Passes(s, r)
    ensures s.c.plan(s.received[r]).Some?
  {
  }

  lemma PassedRound(s: Setting, r: nat)
    requires s.Valid() && r < |s.received| && forall q :: 0 <= q < |s.received| ==> Passes(s, q)
    ensures s.c.plan(s.received[r]).Some?
    ensures var agreed := AssertIdentical(s.c.digest, s.received)[r];
            ReceivePlan(s.c, s.views, s.received)[r]
            == if agreed.Returned? then Returned(s.c.plan(s.received[r]).value) else if agreed.Blocked? then Blocked else Raised
  {
    PassedMeansDecoded(s, r);
    hide AssertIdentical, Accepted;
    assert forall q :: 0 <= q < |s.received| ==> Passes(s, q) && Accepted(s.c, s.views[q], |s.received|, s.received[q]);
  }

  lemma PassedComparison(s: Setting, r: nat)
    requires s.Valid() && DigestsAreFull(s) && r < |s.received|
    ensures AssertIdentical(s.c.digest, s.received)[r] == if DiffersFromFirst(s.Digests()) then Raised else Returned(())
  {
    LengthsPass(s);
    AllGatherIsExact(s.Digests(), MAX_DIGEST_BYTES);
    hide AllGather, DiffersFromFirst;
  }

  /** What a rank concludes from the padded tensors is what the round as a whole says. */
  lemma ComparisonIsTheRound(s: Setting, r: nat)
    requires s.Valid() && DigestsAreFull(s) && r < |s.received|
    requires forall q :: 0 <= q < |s.received| ==> Passes(s, q)
    ensures var ds := s.Digests();
            && (forall q :: 0 <= q < |ds| ==> 0 <= MapSeq(Length, ds)[q] <= |Wires(ds)[q]|)
            && AfterDigests(s, r, Wires(ds), MapSeq(Length, ds)) == Finished(ReceivePlan(s.c, s.views, s.received)[r])
  {
    TrimUndoesPad(s.Digests());
    PassedRound(s, r);
    PassedComparison(s, r);
    hide AssertIdentical, ReceivePlan, Trimmed, Wires, DiffersFromFirst, Passes, DigestsAreFull;
  }

  lemma ApplyKeepsInv(s: Setting, pcs: seq<Pc>, move: Move)
    requires s.Valid() && DigestsAreFull(s) && |pcs| == |s.received| && Inv(s, pcs)
    ensures Inv(s, Apply(s, pcs, move))
  {
    LengthsPass(s);
    if move.ExchangeDigests? && AllAt(pcs, AtDigests) {
      assert forall r :: 0 <= r < |pcs| ==> pcs[r].AtDigests?;
      assert pcs[0].AtDigests?;
      forall r | 0 <= r < |pcs| ensures Apply(s, pcs, move)[r] == Finished(ReceivePlan(s.c, s.views, s.received)[r]) {
        ComparisonIsTheRound(s, r);
      }
    } else if move.ExchangeLengths? && AllAt(pcs, AtLengths) {
      assert pcs[0].AtLengths?;
      hide AfterLengths, Accepted, ReceivePlan;
    } else {
      hide ReceivePlan, Accepted, AfterLengths, AfterDigests;
    }
  }

  lemma {:induction false} ExecKeepsInv(s: Setting, moves: seq<Move>)
    requires s.Valid() && DigestsAreFull(s)
    ensures Inv(s, Exec(s, moves))
  {
    if moves != [] {
      hide Inv, Apply;
      ExecKeepsInv(s, moves[..|moves| - 1]);
      ApplyKeepsInv(s, Exec(s, moves[..|moves| - 1]), moves[|moves| - 1]);
    } else {
      hide Accepted, ReceivePlan;
    }
  }

  /** A round at rest before the digests were exchanged: somebody did not pass. */
  lemma RestingOutcome(s: Setting, pcs: seq<Pc>, r: nat)
    requires s.Valid() && |pcs| == |s.received| && r < |pcs| && !AllAt(pcs, AtLengths)
    requires forall q :: 0 <= q < |pcs| ==> (pcs[q].AtLengths? && Passes(s, q)) || (pcs[q] == Finished(Raised) && !Passes(s, q))
    ensures Observed(pcs[r]) == ReceivePlan(s.c, s.views, s.received)[r]
  {
    var q :| 0 <= q < |pcs| && pcs[q] != AtLengths;
    assert !Passes(s, q);
    assert !Accepted(s.c, s.views[q], |s.received|, s.received[q]);
    assert Passes(s, r) <==> Accepted(s.c, s.views[r], |s.received|, s.received[r]);
    hide Accepted, AssertIdentical;
  }

  /** However the ranks are scheduled, a round that has come to rest shows at every rank
      the outcome `ReceivePlan` gives; ranks left in an exchange are the blocked ones. */
  lemma EveryScheduleEndsAlike(s: Setting, moves: seq<Move>, r: nat)
    requires s.Valid() && DigestsAreFull(s) && Settled(s, Exec(s, moves)) && r < |s.received|
    ensures Observed(Exec(s, moves)[r]) == ReceivePlan(s.c, s.views, s.received)[r]
  {
    var pcs := Exec(s, moves);
    ExecKeepsInv(s, moves);
    SettledShape(s, pcs);
    hide ReceivePlan, Passes, Settled, Exec, DigestsAreFull;
    if pcs[r] != Finished(ReceivePlan(s.c, s.views, s.received)[r]) {
      RestingOutcome(s, pcs, r);
    }
  }

  /** From any point of any schedule the round can be brought to rest. */
  lemma EveryRoundComesToRest(s: Setting, moves: seq<Move>) returns (more: seq<Move>)
    requires s.Valid() && DigestsAreFull(s)
    ensures Settled(s, Exec(s, moves + more))
  {
    var locals := LocalsDone(s, moves, |s.received|);
    more := locals + [ExchangeLengths] + [ExchangeDigests];
    ExecSnoc(s, moves + locals, ExchangeLengths);
    ExecSnoc(s, moves + locals + [ExchangeLengths], ExchangeDigests);
    assert moves + more == moves + locals + [ExchangeLengths] + [ExchangeDigests];
    LengthsPass(s);
    ExchangesSettle(s, Exec(s, moves + locals));
  }

  lemma ExecSnoc(s: Setting, moves: seq<Move>, move: Move)
    requires s.Valid()
    ensures Exec(s, moves + [move]) == Apply(s, Exec(s, moves), move)
  {
    assert (moves + [move])[..|moves|] == moves;
  }

  lemma {:induction false} LocalsDone(s: Setting, moves: seq<Move>, n: nat) returns (locals: seq<Move>)
    requires s.Valid() && n <= |s.received|
    ensures forall r :: 0 <= r < n ==> !Exec(s, moves + locals)[r].Checking?
  {
    if n == 0 {
      locals := [];
    } else {
      var rest := LocalsDone(s, moves, n - 1);
      locals := rest + [Local(n - 1)];
      ExecSnoc(s, moves + rest, Local(n - 1));
      assert moves + locals == moves + rest + [Local(n - 1)];
    }
  }

  lemma ExchangesSettle(s: Setting, pcs: seq<Pc>)
    requires s.Valid() && |pcs| == |s.received| && forall r :: 0 <= r < |pcs| ==> !pcs[r].Checking?
    requires AfterLengths(MapSeq(Length, s.Digests())) == AtDigests
    ensures Settled(s, Apply(s, Apply(s, pcs, ExchangeLengths), ExchangeDigests))
  {
    hide AfterLengths, LocalStep;
    var after := Apply(s, Apply(s, pcs, ExchangeLengths), ExchangeDigests);
    assert forall r :: 0 <= r < |after| ==> !after[r].Checking?;
    assert AllAt(pcs, AtLengths) || AllAt(pcs, AtDigests) ==> after[0].Finished?;
  }

  /** A round at rest: nobody is checking, and no exchange is complete. */
  lemma SettledShape(s: Setting, pcs: seq<Pc>)
    requires s.Valid() && DigestsAreFull(s) && |pcs| == |s.received| && Settled(s, pcs)
    ensures forall r :: 0 <= r < |pcs| ==> !pcs[r].Checking?
    ensures !AllAt(pcs, AtLengths) && !AllAt(pcs, AtDigests)
  {
    forall r | 0 <= r < |pcs| ensures !pcs[r].Checking? {
      assert Apply(s, pcs, Local(r))[r] == pcs[r];
    }
    LengthsPass(s);
    assert Apply(s, pcs, ExchangeLengths)[0] == pcs[0];
    assert Apply(s, pcs, ExchangeDigests)[0] == pcs[0];
  }

  /** Agreement at every moment of every schedule: once any rank has returned a plan, all
      ranks have, and it is one plan. */
  lemma OneReturnMeansAll(s: Setting, moves: seq<Move>, r: nat, q: nat)
    requires s.Valid() && DigestsAreFull(s) && CollisionFreeOn(s.c.digest, ToSet(s.received))
    requires r < |s.received| && q < |s.received|
    requires Exec(s, moves)[r].Finished? && Exec(s, moves)[r].out.Returned?
    ensures Exec(s, moves)[q] == Exec(s, moves)[r]
  {
    ExecKeepsInv(s, moves);
    AllContinueOrNone(s.c, s.views, s.received);
    hide ReceivePlan, Accepted;
  }

  // ------------------------------------------------------- the topology round

  /** The manifest rank 0 would build: its own epoch over all records. */
  function RootOf(c: ManifestCodec, elastics: seq<Elastic>, records: seq<TopologyRecord>): Topology
    requires elastics != []
  {
    Topology(BuildEpoch(c, elastics[0], records), |records|, records)
  }

  /** Every rank reports its own valid record, no place is claimed twice, and everything
      fits the wire. */
  ghost predicate Reportable(c: ManifestCodec, elastics: seq<Elastic>, records: seq<TopologyRecord>)
    requires elastics != []
  {
    && (forall r :: 0 <= r < |records| ==> OwnRecordOk(records, r))
    && Distinct(MapSeq(Place, records))
    && AllSendable(MapSeq(c.record.encode, records), MAX_CONTROL_BYTES)
    && Sendable(c.encode(RootOf(c, elastics, records)), MAX_CONTROL_BYTES)
  }

  ghost predicate CodecWorks(c: ManifestCodec, elastics: seq<Elastic>, records: seq<TopologyRecord>)
    requires elastics != []
  {
    var root := RootOf(c, elastics, records);
    && (forall x :: x in records ==> c.record.decode(c.record.encode(x)) == Some(x))
    && c.decode(c.encode(root)) == Some(root) && |c.digest(c.encode(root))| == DIGEST_BYTES
  }

  lemma ReceivedManifestIff(c: ManifestCodec, elastics: seq<Elastic>, raw: Bytes)
    requires elastics != [] && |c.digest(raw)| == DIGEST_BYTES
    ensures if forall r :: 0 <= r < |elastics| ==> ManifestAccepted(c, elastics[r], raw) then
              c.decode(raw).Some? && forall r :: 0 <= r < |elastics| ==> ReceiveManifest(c, elastics, raw)[r] == Returned(c.decode(raw).value)
            else forall r :: 0 <= r < |elastics| ==> !ReceiveManifest(c, elastics, raw)[r].Returned?
  {
    var received := seq(|elastics|, r => raw);
    assert received[0] == raw && forall x :: x in received ==> x == raw;
    AssertIdenticalOutcome(c.digest, received);
    assert Identical(received);
    if forall r :: 0 <= r < |elastics| ==> ManifestAccepted(c, elastics[r], raw) {
      assert ManifestAccepted(c, elastics[0], raw);
    }
    hide AssertIdentical;
  }

  /** Whatever bytes the broadcast delivers, a manifest that is returned is the one they
      carry, valid, and built in the elastic environment of every rank. */
  lemma ReturnedManifestIsEveryones(c: ManifestCodec, elastics: seq<Elastic>, raw: Bytes, at: nat)
    requires at < |elastics| && ReceiveManifest(c, elastics, raw)[at].Returned?
    ensures var manifest := ReceiveManifest(c, elastics, raw)[at].value;
            && c.decode(raw) == Some(manifest) && manifest.Valid()
            && forall r :: 0 <= r < |elastics| ==> manifest.epoch == BuildEpoch(c, elastics[r], manifest.ranks)
  {
    hide Topology.Valid, AssertIdentical, BuildEpoch;
    assert forall r :: 0 <= r < |elastics| ==> ManifestAccepted(c, elastics[r], raw);
    assert ManifestAccepted(c, elastics[at], raw);
  }

  lemma OwnRecords(records: seq<TopologyRecord>)
    requires forall r :: 0 <= r < |records| ==> OwnRecordOk(records, r)
    ensures forall r :: 0 <= r < |records| ==> records[r].rank == r && records[r].Valid()
  {
    forall r | 0 <= r < |records| ensures records[r].rank == r && records[r].Valid() {
      assert OwnRecordOk(records, r);
    }
  }

  lemma RootBuiltIff(c: ManifestCodec, elastics: seq<Elastic>, records: seq<TopologyRecord>)
    requires |elastics| == |records| > 0 && CodecWorks(c, elastics, records)
    requires forall r :: 0 <= r < |records| ==> OwnRecordOk(records, r)
    ensures RootManifest(c.record, EpochIn(c, elastics[0]), MapSeq(c.record.encode, records))
            == if Distinct(MapSeq(Place, records)) then Some(RootOf(c, elastics, records)) else None
  {
    OwnRecords(records);
    ManifestCarriesEveryRecord(c.record, EpochIn(c, elastics[0]), records);
    hide RootManifest, Distinct, AllGather, BuildEpoch, OwnRecordOk, TopologyRecord.Valid;
  }

  lemma OwnEpochDecides(c: ManifestCodec, elastics: seq<Elastic>, records: seq<TopologyRecord>, r: nat)
    requires |elastics| == |records| > 0 && CodecWorks(c, elastics, records) && r < |elastics|
    requires RootOf(c, elastics, records).Valid()
    ensures ManifestAccepted(c, elastics[r], c.encode(RootOf(c, elastics, records)))
            <==> BuildEpoch(c, elastics[r], records) == BuildEpoch(c, elastics[0], records)
  {
    hide Topology.Valid, Sort;
  }

  lemma ReportableIsReceived(c: ManifestCodec, elastics: seq<Elastic>, records: seq<TopologyRecord>)
    requires |elastics| == |records| > 0 && CodecWorks(c, elastics, records) && Reportable(c, elastics, records)
    ensures GatherManifest(c, elastics, records) == ReceiveManifest(c, elastics, c.encode(RootOf(c, elastics, records)))
  {
    RootBuiltIff(c, elastics, records);
    AllSendableIff(MapSeq(c.record.encode, records), MAX_CONTROL_BYTES);
    hide AllSendable, Sendable, RootManifest, ReceiveManifest, OwnRecordOk, Distinct, RootOf, EpochIn, CodecWorks, Stopped;
  }

  lemma UnreportableStops(c: ManifestCodec, elastics: seq<Elastic>, records: seq<TopologyRecord>, r: nat)
    requires |elastics| == |records| > r && CodecWorks(c, elastics, records) && !Reportable(c, elastics, records)
    ensures !GatherManifest(c, elastics, records)[r].Returned?
  {
    if forall q :: 0 <= q < |records| ==> OwnRecordOk(records, q) { RootBuiltIff(c, elastics, records); }
    AllSendableIff(MapSeq(c.record.encode, records), MAX_CONTROL_BYTES);
    hide AllSendable, Sendable, RootManifest, ReceiveManifest, OwnRecordOk, Distinct, RootOf, EpochIn, CodecWorks;
  }

  /** The topology round: every rank returns one and the same manifest, with every rank's
      own record, if the records are reportable and every rank's own environment gives
      rank 0's epoch; otherwise no rank returns one. */
  lemma ManifestReturnedIff(c: ManifestCodec, elastics: seq<Elastic>, records: seq<TopologyRecord>)
    requires |elastics| == |records| > 0 && CodecWorks(c, elastics, records)
    ensures var together := forall r :: 0 <= r < |elastics| ==> BuildEpoch(c, elastics[r], records) == BuildEpoch(c, elastics[0], records);
            if Reportable(c, elastics, records) && together
            then forall r :: 0 <= r < |records| ==> GatherManifest(c, elastics, records)[r] == Returned(RootOf(c, elastics, records))
            else forall r :: 0 <= r < |records| ==> !GatherManifest(c, elastics, records)[r].Returned?
  {
    var raw := c.encode(RootOf(c, elastics, records));
    assert c.decode(raw) == Some(RootOf(c, elastics, records)) && |c.digest(raw)| == DIGEST_BYTES;
    hide GatherManifest, ReceiveManifest, ManifestAccepted, Reportable, RootOf, BuildEpoch, CodecWorks;
    if Reportable(c, elastics, records) {
      RootIsValid(c, elastics, records);
      forall r | 0 <= r < |elastics|
        ensures ManifestAccepted(c, elastics[r], raw) <==> BuildEpoch(c, elastics[r], records) == BuildEpoch(c, elastics[0], records)
      {
        OwnEpochDecides(c, elastics, records, r);
      }
      ReportableIsReceived(c, elastics, records);
      ReceivedManifestIff(c, elastics, raw);
    } else {
      forall r | 0 <= r < |records| ensures !GatherManifest(c, elastics, records)[r].Returned? {
        UnreportableStops(c, elastics, records, r);
      }
    }
  }

  lemma RootIsValid(c: ManifestCodec, elastics: seq<Elastic>, records: seq<TopologyRecord>)
    requires |elastics| == |records| > 0 && Reportable(c, elastics, records)
    ensures RootOf(c, elastics, records).Valid()
  {
    OwnRecords(records);
    hide OwnRecordOk, Distinct, Topology.Valid, TopologyRecord.Valid, BuildEpoch;
    OrderedTopologyIsValidIff(BuildEpoch(c, elastics[0], records), records);
  }

  /** So a rank left over from another run or another restart keeps every rank from
      continuing: a reportable round succeeds exactly when all ranks share one elastic
      environment. */
  lemma OnlyOneRestartContinues(c: ManifestCodec, elastics: seq<Elastic>, records: seq<TopologyRecord>, at: nat)
    requires |elastics| == |records| > at && CodecWorks(c, elastics, records) && Reportable(c, elastics, records)
    requires CollisionFreeOn(c.epoch, set r | 0 <= r < |elastics| :: EpochInput(elastics[r], Sort(records, ByRank)))
    ensures GatherManifest(c, elastics, records)[at].Returned? <==> forall r :: 0 <= r < |elastics| ==> elastics[r] == elastics[0]
  {
    ManifestReturnedIff(c, elastics, records);
    hide GatherManifest, Reportable, CodecWorks, RootOf, Sort;
    var inputs := set r | 0 <= r < |elastics| :: EpochInput(elastics[r], Sort(records, ByRank));
    forall r | 0 <= r < |elastics|
      ensures BuildEpoch(c, elastics[r], records) == BuildEpoch(c, elastics[0], records) <==> elastics[r] == elastics[0]
    {
      assert EpochInput(elastics[r], Sort(records, ByRank)) in inputs && EpochInput(elastics[0], Sort(records, ByRank)) in inputs;
    }
  }
}

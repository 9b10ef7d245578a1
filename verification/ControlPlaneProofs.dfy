/** What the control plane guarantees at all ranks at once. */
module ControlPlaneProofs {
  import opened Arithmetic
  import opened ControlPlane
  import opened Ordering
  import opened Prelude
  import opened UpdatePlanner

  ghost predicate AllSendable(raws: seq<Bytes>, maxBytes: int) {
    forall r :: 0 <= r < |raws| ==> 0 < |raws[r]| <= maxBytes
  }

  lemma AllSendableIff(raws: seq<Bytes>, maxBytes: int)
    ensures AllSendable(raws, maxBytes) <==> forall r :: 0 <= r < |raws| ==> Sendable(raws[r], maxBytes)
  {
  }

  lemma TrimUndoesPad(raws: seq<Bytes>)
    requires raws != []
    ensures forall r :: 0 <= r < |raws| ==> 0 <= MapSeq(Length, raws)[r] <= |Wires(raws)[r]|
    ensures Trimmed(Wires(raws), MapSeq(Length, raws)) == raws
  {
  }

  /** The padded all-gather is exact: it returns anywhere only if every rank's payload is
      sendable, and then gives every rank every rank's bytes, whatever their lengths.
      Otherwise the offending ranks raise and all others wait. */
  lemma AllGatherIsExact(raws: seq<Bytes>, maxBytes: int)
    requires raws != []
    ensures AllSendable(raws, maxBytes) ==> forall r :: 0 <= r < |raws| ==> AllGather(raws, maxBytes)[r] == Returned(raws)
    ensures !AllSendable(raws, maxBytes) ==>
              forall r :: 0 <= r < |raws| ==>
                AllGather(raws, maxBytes)[r] == if 0 < |raws[r]| <= maxBytes then Blocked else Raised
  {
    if AllSendable(raws, maxBytes) {
      TrimUndoesPad(raws);
    }
  }

  ghost predicate Identical(xs: seq<Bytes>) {
    forall r, q :: 0 <= r < |xs| && 0 <= q < |xs| ==> xs[r] == xs[q]
  }

  /** The two digest comparisons of the repository agree at every rank: whether a rank
      compares the gathered digests with the first or with its own, all ranks reach the
      same verdict, and it is "some two differ". */
  lemma VerdictIsUnanimous(digests: seq<Bytes>, mine: nat)
    requires mine < |digests|
    ensures DiffersFromMine(digests, mine) <==> DiffersFromFirst(digests)
    ensures DiffersFromFirst(digests) <==> !Identical(digests)
  {
  }

  lemma DigestsAgreeIff(digest: Bytes -> Bytes, received: seq<Bytes>)
    requires CollisionFreeOn(digest, ToSet(received))
    ensures Identical(MapSeq(digest, received)) <==> Identical(received)
  {
  }

  lemma AssertIdenticalOutcome(digest: Bytes -> Bytes, received: seq<Bytes>)
    requires received != [] && CollisionFreeOn(digest, ToSet(received))
    requires forall b :: b in received ==> |digest(b)| == DIGEST_BYTES
    ensures forall r :: 0 <= r < |received| ==>
              AssertIdentical(digest, received)[r] == if Identical(received) then Returned(()) else Raised
  {
    var ds := MapSeq(digest, received);
    assert AllSendable(ds, MAX_DIGEST_BYTES);
    AllGatherIsExact(ds, MAX_DIGEST_BYTES);
    VerdictIsUnanimous(ds, 0);
    DigestsAgreeIff(digest, received);
  }

  ghost predicate AllAccept(c: Codec, views: seq<RankView>, received: seq<Bytes>)
    requires |views| == |received|
  {
    forall r :: 0 <= r < |received| ==> Accepted(c, views[r], |received|, received[r])
  }

  /** Consensus, whatever each rank received. Either every rank returns the same plan, or
      no rank returns; it is the former exactly when every rank accepts its bytes and all
      received the same ones. */
  lemma AllContinueOrNone(c: Codec, views: seq<RankView>, received: seq<Bytes>)
    requires |views| == |received| > 0 && CollisionFreeOn(c.digest, ToSet(received))
    requires forall b :: b in received ==> |c.digest(b)| == DIGEST_BYTES
    ensures AllAccept(c, views, received) && Identical(received) ==>
              forall r :: 0 <= r < |received| ==> ReceivePlan(c, views, received)[r] == Returned(c.plan(received[0]).value)
    ensures !(AllAccept(c, views, received) && Identical(received)) ==>
              forall r :: 0 <= r < |received| ==> !ReceivePlan(c, views, received)[r].Returned?
  {
    hide Accepted;
    AssertIdenticalOutcome(c.digest, received);
    hide AssertIdentical;
    if AllAccept(c, views, received) && Identical(received) {
      assert forall r :: 0 <= r < |received| ==> received[r] == received[0];
    }
  }

  /** A failing round does not always raise everywhere: every rank raises exactly when the
      ranks all accept different bytes, or none accepts; a rank that rejects its bytes
      while another accepts leaves that one waiting in the digest exchange. */
  lemma AllRaiseIff(c: Codec, views: seq<RankView>, received: seq<Bytes>)
    requires |views| == |received| > 0 && CollisionFreeOn(c.digest, ToSet(received))
    requires forall b :: b in received ==> |c.digest(b)| == DIGEST_BYTES
    ensures (forall r :: 0 <= r < |received| ==> ReceivePlan(c, views, received)[r] == Raised)
            <==> (AllAccept(c, views, received) && !Identical(received))
                 || forall r :: 0 <= r < |received| ==> !Accepted(c, views[r], |received|, received[r])
  {
    hide Accepted;
    AssertIdenticalOutcome(c.digest, received);
    hide AssertIdentical;
    var out := ReceivePlan(c, views, received);
    if AllAccept(c, views, received) {
      assert if Identical(received) then out[0].Returned? else forall r :: 0 <= r < |received| ==> out[r] == Raised;
    } else {
      assert forall r :: 0 <= r < |received| ==>
          out[r] == if Accepted(c, views[r], |received|, received[r]) then Blocked else Raised;
    }
  }

  /** The plan rank 0 holds fits the control channel and is valid for every rank's own
      view. */
  ghost predicate Adoptable(c: Codec, views: seq<RankView>, plan: UpdatePlan) {
    && 0 < |c.encode(plan)| <= 131_072
    && forall r :: 0 <= r < |views| ==> ValidateUpdatePlan(c.digests, plan, views[r].topology, views[r].items, |views|).None?
  }

  /** A fault-free broadcast: every rank returns exactly the plan rank 0 built if that plan
      is sendable and valid for every rank; otherwise no rank returns. */
  lemma BroadcastAdoptedIff(c: Codec, views: seq<RankView>, root: Option<UpdatePlan>)
    requires views != []
    requires root.Some? ==> c.plan(c.encode(root.value)) == root && |c.digest(c.encode(root.value))| == DIGEST_BYTES
    ensures root.Some? && Adoptable(c, views, root.value) ==>
              forall r :: 0 <= r < |views| ==> BroadcastPlan(c, views, root)[r] == Returned(root.value)
    ensures !(root.Some? && Adoptable(c, views, root.value)) ==>
              forall r :: 0 <= r < |views| ==> !BroadcastPlan(c, views, root)[r].Returned?
  {
    if root.Some? && ValidateUpdatePlan(c.digests, root.value, views[0].topology, views[0].items, |views|).None?
       && Sendable(c.encode(root.value), MAX_CONTROL_BYTES) {
      hide ValidateUpdatePlan;
      var received := seq(|views|, r => c.encode(root.value));
      AllContinueOrNone(c, views, received);
      hide ReceivePlan;
      assert Identical(received);
      assert AllAccept(c, views, received) <==> Adoptable(c, views, root.value) by {
        forall r | 0 <= r < |views|
          ensures Accepted(c, views[r], |received|, received[r])
                  <==> ValidateUpdatePlan(c.digests, root.value, views[r].topology, views[r].items, |views|).None?
        {
        }
      }
    }
  }

  /** Without a plan that is valid for its own view and fits the channel rank 0 raises before
      the broadcast, and all others wait in it. */
  lemma InvalidRootBlocksTheRest(c: Codec, views: seq<RankView>, root: Option<UpdatePlan>, r: nat)
    requires r < |views|
    requires root.None? || ValidateUpdatePlan(c.digests, root.value, views[0].topology, views[0].items, |views|).Some?
             || c.encode(root.value) == [] || |c.encode(root.value)| > 131_072
    ensures BroadcastPlan(c, views, root)[r] == if r == 0 then Raised else Blocked
  {
    hide ValidateUpdatePlan, ReceivePlan;
  }

  // ------------------------------------------------- a lone rejection

  function TwoRanks(epoch: string): Topology {
    Topology(epoch, 2, [TopologyRecord(0, "node-a", 0, "gpu-0", 0, "nic-0", "rail-0", 1, 8.0, "inventory"),
                        TopologyRecord(1, "node-b", 0, "gpu-1", 0, "nic-0", "rail-1", 3, 20.0, "inventory")])
  }

  const TWO_ITEMS: seq<WorkItem> := [WorkItem("w0", 2.0, [], "p0"), WorkItem("w1", 1.0, [], "p1")]

  function TwoRankPlan(digests: Digests): UpdatePlan {
    UpdatePlan(1, "epoch-1", digests.topology(TwoRanks("epoch-1")), WorkDigest(digests, TWO_ITEMS), 120.0, 2, 2,
               [RankPlan(0, "node-a", 0, "nic-0", "rail-0", 1, 1, 1, 1.0, 95.0, 8.0, ["w0"]),
                RankPlan(1, "node-b", 0, "nic-0", "rail-1", 1, 1, 1, 1.0, 83.0, 20.0, ["w1"])])
  }

  lemma TwoRanksAreValid(epoch: string)
    ensures TwoRanks(epoch).Valid()
  {
    assert MapSeq(Place, TwoRanks(epoch).ranks) == [("node-a", 0), ("node-b", 0)];
    TwoDistinct(("node-a", 0), ("node-b", 0));
  }

  lemma TwoRanksCoverTheWork(ps: seq<RankPlan>)
    requires |ps| == 2 && ps[0].workItemIds == ["w0"] && ps[1].workItemIds == ["w1"]
    ensures Flatten(MapSeq(WorkIds, ps)) == MapSeq(Id, TWO_ITEMS) == ["w0", "w1"]
  {
    assert MapSeq(WorkIds, ps) == [["w0"], ["w1"]];
    assert [["w0"], ["w1"]][1..] == [["w1"]] && [["w1"]][1..] == [];
    assert Flatten([["w1"]]) == ["w1"];
  }

  lemma TwoEntriesPass(ps: seq<RankPlan>, records: seq<TopologyRecord>, scale: real)
    requires |ps| == |records| == 2
    requires RankEntryError(ps[0], records[0], scale).None? && RankEntryError(ps[1], records[1], scale).None?
    ensures RankEntriesError(ps, records, scale).None?
  {
    hide RankEntryError;
    assert RankEntriesError(ps[1..], records[1..], scale).None?;
  }

  lemma TwoRankPlanIsValid(digests: Digests)
    ensures ValidateUpdatePlan(digests, TwoRankPlan(digests), TwoRanks("epoch-1"), TWO_ITEMS, 2).None?
  {
    var plan, topology := TwoRankPlan(digests), TwoRanks("epoch-1");
    TwoRanksAreValid("epoch-1");
    TwoRanksCoverTheWork(plan.ranks);
    TwoDistinct("w0", "w1");
    assert MapSeq(LocalSamples, plan.ranks) == [1, 1];
    SumOfTwo(1, 1);
    TwoEntriesPass(plan.ranks, topology.ranks, 1.0);
    hide Topology.Valid, RankEntriesError, Flatten, Sum, ToSet, MapSeq;
  }

  lemma TwoDistinct<T>(x: T, y: T)
    requires x != y
    ensures |ToSet([x, y])| == 2
  {
    assert ToSet([x, y]) == {x, y};
  }

  lemma SumOfTwo(a: int, b: int)
    ensures Sum([a, b]) == a + b
  {
    assert Sum([a]) == a by { assert [a][..0] == []; }
    assert [a, b][..1] == [a];
  }

  /** A round of two ranks in which rank 1 has meanwhile rebuilt its topology: it rejects
      the plan and raises, and rank 0, which accepts it, waits in the digest exchange. */
  lemma LoneRejectionBlocksTheRest(c: Codec)
    requires c.plan(c.encode(TwoRankPlan(c.digests))) == Some(TwoRankPlan(c.digests))
    requires Sendable(c.encode(TwoRankPlan(c.digests)), MAX_CONTROL_BYTES)
    ensures BroadcastPlan(c, [RankView(TwoRanks("epoch-1"), TWO_ITEMS), RankView(TwoRanks("epoch-2"), TWO_ITEMS)], Some(TwoRankPlan(c.digests)))
            == [Blocked, Raised]
  {
    var views := [RankView(TwoRanks("epoch-1"), TWO_ITEMS), RankView(TwoRanks("epoch-2"), TWO_ITEMS)];
    var raw := c.encode(TwoRankPlan(c.digests));
    TwoRankPlanIsValid(c.digests);
    assert ValidateUpdatePlan(c.digests, TwoRankPlan(c.digests), views[1].topology, TWO_ITEMS, 2).Some?;
    assert Accepted(c, views[0], 2, raw) && !Accepted(c, views[1], 2, raw);
    hide Accepted, ValidateUpdatePlan;
    var received := seq(2, r => raw);
    assert ReceivePlan(c, views, received) == [Blocked, Raised];
    assert BroadcastPlan(c, views, Some(TwoRankPlan(c.digests))) == ReceivePlan(c, views, received);
  }

  lemma AcceptedMeansSameDigests(c: Codec, view: RankView, group: int, raw: Bytes)
    requires Accepted(c, view, group, raw)
    ensures c.plan(raw).value.topologyDigest == c.digests.topology(view.topology)
    ensures c.plan(raw).value.workManifestDigest == c.digests.work(Sort(view.items, ByWorkId))
  {
  }

  /** When any rank continues, all ranks planned from the same topology and the same
      work, although each checked the plan only against its own. */
  lemma ContinuingRanksShareInputs(c: Codec, views: seq<RankView>, received: seq<Bytes>, r: nat, q: nat, at: nat)
    requires |views| == |received| > 0 && r < |views| && q < |views| && at < |views|
    requires forall b :: b in received ==> |c.digest(b)| == DIGEST_BYTES
    requires CollisionFreeOn(c.digest, ToSet(received))
    requires CollisionFreeOn(c.digests.topology, {views[r].topology, views[q].topology})
    requires CollisionFreeOn(c.digests.work, {Sort(views[r].items, ByWorkId), Sort(views[q].items, ByWorkId)})
    requires ReceivePlan(c, views, received)[at].Returned?
    ensures views[r].topology == views[q].topology && multiset(views[r].items) == multiset(views[q].items)
  {
    AllContinueOrNone(c, views, received);
    hide ReceivePlan, Accepted;
    assert Accepted(c, views[r], |received|, received[r]) && Accepted(c, views[q], |received|, received[q]);
    assert received[r] == received[q];
    AcceptedMeansSameDigests(c, views[r], |received|, received[r]);
    AcceptedMeansSameDigests(c, views[q], |received|, received[q]);
  }

  // ---------------------------------------------------------- manifest

  lemma {:induction false} DecodeUndoesEncode(c: RecordCodec, records: seq<TopologyRecord>)
    requires forall x :: x in records ==> c.decode(c.encode(x)) == Some(x)
    ensures DecodeAll(c, MapSeq(c.encode, records)) == Some(records)
  {
    if records != [] {
      DecodeUndoesEncode(c, records[1..]);
      assert MapSeq(c.encode, records)[1..] == MapSeq(c.encode, records[1..]);
      assert records[0] in records && records == [records[0]] + records[1..];
    }
  }

  /** The manifest gathered from ranks that each report their own rank holds exactly the
      ranks' own records, in rank order; it is built exactly when every record is valid
      and no two ranks claim one place. */
  lemma ManifestCarriesEveryRecord(c: RecordCodec, epoch: seq<TopologyRecord> -> string, records: seq<TopologyRecord>)
    requires records != [] && forall r :: 0 <= r < |records| ==> records[r].rank == r
    requires forall x :: x in records ==> c.decode(c.encode(x)) == Some(x)
    ensures AllSendable(MapSeq(c.encode, records), MAX_CONTROL_BYTES) ==>
              AllGather(MapSeq(c.encode, records), MAX_CONTROL_BYTES)[0] == Returned(MapSeq(c.encode, records))
    ensures RootManifest(c, epoch, MapSeq(c.encode, records)) ==
            if Distinct(MapSeq(Place, records)) && forall r :: 0 <= r < |records| ==> records[r].Valid()
            then Some(Topology(epoch(records), |records|, records)) else None
  {
    AllGatherIsExact(MapSeq(c.encode, records), MAX_CONTROL_BYTES);
    DecodeUndoesEncode(c, records);
    assert SortedBy(records, ByRank);
    SortOfSorted(records, ByRank);
    OrderedTopologyIsValidIff(epoch(records), records);
    hide AllGather, DecodeAll, Topology.Valid, TopologyRecord.Valid, Distinct, Sort;
  }

  lemma OrderedTopologyIsValidIff(epoch: string, records: seq<TopologyRecord>)
    requires records != [] && forall r :: 0 <= r < |records| ==> records[r].rank == r
    ensures Topology(epoch, |records|, records).Valid()
            <==> Distinct(MapSeq(Place, records)) && forall r :: 0 <= r < |records| ==> records[r].Valid()
  {
    hide TopologyRecord.Valid;
    ToSetSize(MapSeq(Place, records));
  }
}

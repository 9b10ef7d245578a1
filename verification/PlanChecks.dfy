/** Exactly what the planners and the two plan validators ask for. */
module PlanChecks {
  import opened Arithmetic
  import opened Ordering
  import opened Prelude
  import G = GradientScaling
  import P = UpdatePlanner
  import PP = UpdatePlannerProofs

  // ---------------------------------------------------- the topology-aware plan

  /** A rank's entry is about this rank, runs one micro-batch per item, counts its samples
      and scales its losses. */
  predicate EntryFits(entry: P.RankPlan, record: P.TopologyRecord, scale: real) {
    && entry.nodeId == record.nodeId && entry.localRank == record.localRank
    && entry.nicId == record.nicId && entry.railId == record.railId
    && 1 <= entry.microBatches == |entry.workItemIds|
    && entry.localSamples == entry.microBatches * entry.samplesPerMicroBatch
    && scale - 0.000000000001 <= entry.lossSumScale <= scale + 0.000000000001
  }

  /** The plan of this group, for this topology and work, covering each item once. */
  ghost predicate PlanFits(digests: P.Digests, plan: P.UpdatePlan, topology: P.Topology, items: seq<P.WorkItem>, group: int) {
    && topology.Valid() && (forall x :: x in items ==> x.Valid())
    && plan.worldSize == group == topology.worldSize == |plan.ranks|
    && plan.topologyEpoch == topology.epoch && plan.topologyDigest == digests.topology(topology)
    && plan.workManifestDigest == digests.work(Sort(items, P.ByWorkId))
    && plan.planVersion >= 1 && plan.globalSamples > 0
    && plan.globalSamples == Sum(MapSeq(P.LocalSamples, plan.ranks))
    && Distinct(Flatten(MapSeq(P.WorkIds, plan.ranks)))
    && (forall id :: id in Flatten(MapSeq(P.WorkIds, plan.ranks)) <==> exists i :: 0 <= i < |items| && items[i].workId == id)
    && forall r :: 0 <= r < |plan.ranks| ==>
         plan.ranks[r].rank == r && r < |topology.ranks| && EntryFits(plan.ranks[r], topology.ranks[r], group as real / plan.globalSamples as real)
  }

  lemma EntryFitsIff(entry: P.RankPlan, record: P.TopologyRecord, scale: real)
    ensures P.RankEntryError(entry, record, scale).None? <==> EntryFits(entry, record, scale)
  {
  }

  lemma GivenIds(items: seq<P.WorkItem>)
    ensures forall id :: id in ToSet(MapSeq(P.Id, items)) <==> exists i :: 0 <= i < |items| && items[i].workId == id
  {
    var ids := MapSeq(P.Id, items);
    forall id ensures id in ids <==> exists i :: 0 <= i < |items| && items[i].workId == id {
      if id in ids {
        var i :| 0 <= i < |ids| && ids[i] == id;
        assert items[i].workId == id;
      }
      if i :| 0 <= i < |items| && items[i].workId == id { assert ids[i] == id; }
    }
  }

  lemma AssignmentIff(planned: seq<string>, items: seq<P.WorkItem>)
    ensures var expected := ToSet(MapSeq(P.Id, items));
            (ToSet(planned) == expected && |planned| == |expected|)
            <==> && Distinct(planned)
                 && forall id :: id in planned <==> exists i :: 0 <= i < |items| && items[i].workId == id
  {
    GivenIds(items);
    ToSetSize(planned);
    var expected := ToSet(MapSeq(P.Id, items));
    hide MapSeq;
    if forall id :: id in planned <==> exists i :: 0 <= i < |items| && items[i].workId == id {
      assert forall id :: id in ToSet(planned) <==> id in expected;
      assert ToSet(planned) == expected;
    }
    if ToSet(planned) == expected {
      forall id ensures id in planned <==> exists i :: 0 <= i < |items| && items[i].workId == id {
        assert id in planned <==> id in ToSet(planned);
      }
    }
  }

  lemma EntriesFitIff(plan: P.UpdatePlan, topology: P.Topology, scale: real)
    requires |plan.ranks| == |topology.ranks|
    ensures P.RankEntriesError(plan.ranks, topology.ranks, scale).None?
       <==> forall r :: 0 <= r < |plan.ranks| ==> EntryFits(plan.ranks[r], topology.ranks[r], scale)
  {
    PP.RankEntriesPassIff(plan.ranks, topology.ranks, scale);
    hide P.RankEntriesError, P.RankEntryError, EntryFits;
    forall r | 0 <= r < |plan.ranks|
      ensures P.RankEntryError(plan.ranks[r], topology.ranks[r], scale).None? <==> EntryFits(plan.ranks[r], topology.ranks[r], scale)
    {
      EntryFitsIff(plan.ranks[r], topology.ranks[r], scale);
    }
  }

  /** The validator passes exactly the plans that fit. */
  lemma UpdatePlanIsValidIff(digests: P.Digests, plan: P.UpdatePlan, topology: P.Topology, items: seq<P.WorkItem>, group: int)
    ensures P.ValidateUpdatePlan(digests, plan, topology, items, group).None? <==> PlanFits(digests, plan, topology, items, group)
  {
    AssignmentIff(Flatten(MapSeq(P.WorkIds, plan.ranks)), items);
    TopologyHasItsRanks(topology);
    if topology.Valid() && |plan.ranks| == topology.worldSize && plan.globalSamples > 0 {
      EntriesFitIff(plan, topology, topology.worldSize as real / plan.globalSamples as real);
    }
    hide P.RankEntriesError, EntryFits, P.Topology.Valid, P.WorkItem.Valid, Distinct, ToSet, Flatten, MapSeq, Sum, Sort;
    assert (exists i :: 0 <= i < |items| && !items[i].Valid()) <==> !(forall x :: x in items ==> x.Valid());
  }

  lemma TopologyHasItsRanks(topology: P.Topology)
    ensures topology.Valid() ==> topology.worldSize == |topology.ranks| > 0
  {
  }

  // ------------------------------------------------------- the planner's inputs

  /** Exactly the ranks 0 to n-1 have facts. */
  ghost predicate CoversRanks<T>(facts: map<int, T>, n: nat) {
    forall r :: r in facts <==> 0 <= r < n
  }

  /** One healthy, plausible last record and a positive batch size for every rank of a
      valid topology and for no other, and valid items with different IDs. */
  ghost predicate InputsFit(inputs: P.Inputs) {
    && inputs.topology.Valid()
    && CoversRanks(P.TelemetryByRank(inputs.telemetry), |inputs.topology.ranks|) && CoversRanks(inputs.sizes, |inputs.topology.ranks|)
    && (forall r :: r in inputs.sizes ==> inputs.sizes[r] > 0)
    && (forall r :: r in P.TelemetryByRank(inputs.telemetry) ==>
          var t := P.TelemetryByRank(inputs.telemetry)[r];
          && t.healthy && t.samplesPerSecond > 0.0
          && 0.0 <= t.p95DataMs && 0.0 <= t.p95AllreduceMs && 0.0 <= t.freeMemoryGb)
    && (forall x :: x in inputs.items ==> IsWork(x))
    && (forall i, j :: 0 <= i < j < |inputs.items| ==> inputs.items[i].workId != inputs.items[j].workId)
  }

  ghost predicate IsWork(x: P.WorkItem) {
    |x.workId| > 0 && 0.0 < x.cost && Distinct(x.preferredNodes)
  }

  lemma WorkIff(x: P.WorkItem)
    ensures x.Valid() <==> IsWork(x)
  {
    ToSetSize(x.preferredNodes);
  }

  lemma DifferentIdsIff(items: seq<P.WorkItem>)
    ensures |ToSet(MapSeq(P.Id, items))| == |items| <==> forall i, j :: 0 <= i < j < |items| ==> items[i].workId != items[j].workId
  {
    var ids := MapSeq(P.Id, items);
    ToSetSize(ids);
    if Distinct(ids) {
      forall i, j | 0 <= i < j < |items| ensures items[i].workId != items[j].workId { assert ids[i] != ids[j]; }
    }
  }

  lemma RankSetIs(topology: P.Topology)
    requires topology.Valid()
    ensures forall r :: r in P.RankSet(topology) <==> 0 <= r < |topology.ranks|
  {
    forall r | 0 <= r < |topology.ranks| ensures r in P.RankSet(topology) { assert topology.ranks[r].rank == r; }
  }

  lemma RecordsAreTheirs(telemetry: seq<P.Telemetry>)
    ensures forall r :: r in P.TelemetryByRank(telemetry) ==> P.TelemetryByRank(telemetry)[r].rank == r
  {
  }

  lemma RanksCoveredIff<T>(facts: map<int, T>, topology: P.Topology)
    requires topology.Valid()
    ensures facts.Keys == P.RankSet(topology) <==> CoversRanks(facts, |topology.ranks|)
  {
    RankSetIs(topology);
    hide P.RankSet;
    if CoversRanks(facts, |topology.ranks|) {
      assert forall r :: r in facts.Keys <==> r in P.RankSet(topology);
    }
    if facts.Keys == P.RankSet(topology) {
      assert forall r :: r in facts <==> r in facts.Keys;
    }
  }

  lemma TelemetryIff(t: P.Telemetry)
    requires t.rank >= 0
    ensures t.Valid() <==> t.samplesPerSecond > 0.0 && 0.0 <= t.p95DataMs && 0.0 <= t.p95AllreduceMs && 0.0 <= t.freeMemoryGb
  {
  }

  /** The argument checks pass exactly such inputs. */
  lemma InputsAcceptedIff(inputs: P.Inputs)
    ensures P.InputError(inputs).None? <==> InputsFit(inputs)
  {
    var t := P.TelemetryByRank(inputs.telemetry);
    RecordsAreTheirs(inputs.telemetry);
    if inputs.topology.Valid() {
      RanksCoveredIff(t, inputs.topology);
      RanksCoveredIff(inputs.sizes, inputs.topology);
    }
    DifferentIdsIff(inputs.items);
    forall x | x in inputs.items ensures x.Valid() <==> IsWork(x) { WorkIff(x); }
    forall r | r in t && r >= 0
      ensures t[r].Valid() <==> t[r].samplesPerSecond > 0.0 && 0.0 <= t[r].p95DataMs && 0.0 <= t[r].p95AllreduceMs && 0.0 <= t[r].freeMemoryGb
    {
      TelemetryIff(t[r]);
    }
    hide P.Topology.Valid, P.WorkItem.Valid, P.Telemetry.Valid, IsWork, P.TelemetryByRank, P.RankSet, ToSet, MapSeq;
    assert (exists i :: 0 <= i < |inputs.items| && !inputs.items[i].Valid()) <==> !(forall x :: x in inputs.items ==> x.Valid());
  }

  lemma ByWorkIdIsTotalPreorder()
    ensures TotalPreorder(P.ByWorkId)
  {
    forall a, b ensures P.ByWorkId(a, b) || P.ByWorkId(b, a) { LexTotal(a.workId, b.workId); }
    forall a, b, c | P.ByWorkId(a, b) && P.ByWorkId(b, c) ensures P.ByWorkId(a, c) { LexTransitive(a.workId, b.workId, c.workId); }
  }

  /** The work digest does not depend on the listing order. */
  lemma WorkDigestIgnoresOrder(digests: P.Digests, items: seq<P.WorkItem>, listed: seq<P.WorkItem>)
    requires multiset(items) == multiset(listed)
    requires forall i, j :: 0 <= i < j < |items| ==> items[i].workId != items[j].workId
    ensures P.WorkDigest(digests, items) == P.WorkDigest(digests, listed)
  {
    ByWorkIdIsTotalPreorder();
    forall x, y | x in multiset(items) && y in multiset(items) && P.ByWorkId(x, y) && P.ByWorkId(y, x) ensures x == y {
      LexTotal(x.workId, y.workId);
      var i :| 0 <= i < |items| && items[i] == x;
      var j :| 0 <= j < |items| && items[j] == y;
    }
    SortForgetsOrder(items, listed, P.ByWorkId);
  }

  // ------------------------------------------------------- the accumulation plan

  predicate LegacyEntryFits(entry: G.RankUpdatePlan, scale: real) {
    && entry.microBatches >= 1 && entry.samplesPerMicroBatch >= 1
    && entry.localSamples == entry.microBatches * entry.samplesPerMicroBatch
    && scale - 0.000000000001 <= entry.lossSumScale <= scale + 0.000000000001
  }

  /** The structural validator passes exactly the plans of this group whose entries are in
      rank order, add up, and scale by group size over samples. */
  lemma PlanStructureIsValidIff(plan: G.UpdatePlan, group: int)
    ensures G.ValidatePlanStructure(plan, group).None?
       <==> && plan.planVersion >= 1 && plan.targetUpdateMs > 0.0
            && plan.worldSize == group == |plan.ranks|
            && plan.globalSamples == Sum(MapSeq(G.LocalSamples, plan.ranks)) && plan.globalSamples > 0
            && forall r :: 0 <= r < |plan.ranks| ==>
                 plan.ranks[r].rank == r && LegacyEntryFits(plan.ranks[r], group as real / plan.globalSamples as real)
  {
    if plan.globalSamples != 0 {
      var scale := plan.worldSize as real / plan.globalSamples as real;
      G.EntriesPassIff(plan.ranks, scale);
      forall r | 0 <= r < |plan.ranks| ensures G.EntryError(plan.ranks[r], scale).None? <==> LegacyEntryFits(plan.ranks[r], scale) {
      }
    }
    hide G.EntriesError, G.EntryError, LegacyEntryFits, Sum, MapSeq;
  }

  /** What the accumulation planner does: it needs a healthy rank and a batch size for
      exactly the healthy ranks, none of them zero; then the version is spent, and only
      global samples of zero still fail it. */
  lemma AccumulationOutcome(settings: G.Settings, version: int, telemetry: seq<G.RankTelemetry>, sizes: map<int, int>)
    ensures var (r, after) := G.Plan(settings, version, telemetry, sizes);
            var known := && (exists t :: t in telemetry && t.healthy)
                         && (forall k :: k in sizes <==> exists t :: t in telemetry && t.healthy && t.rank == k)
                         && (forall k :: k in sizes ==> sizes[k] != 0);
            && after == (if known then version + 1 else version)
            && (r.Ok? ==> known && r.value.planVersion == version + 1 && r.value.targetUpdateMs == settings.targetUpdateMs
                          && r.value.globalSamples == Sum(MapSeq(G.LocalSamples, r.value.ranks)) != 0
                          && r.value.worldSize == |r.value.ranks|)
            && (known && r.Err? ==> r == Err(G.DivisionByZero) && G.Divisible(G.Records(telemetry), sizes)
                                    && Sum(G.SampleCounts(G.Records(telemetry), G.Budgets(settings, G.Records(telemetry), sizes), sizes)) == 0)
  {
    var records := G.Records(telemetry);
    HealthyRecords(telemetry);
    KnownRanks(records, sizes);
    hide G.Records, G.MicroBatches, ToSet;
    if G.Divisible(records, sizes) {
      var ks := G.Budgets(settings, records, sizes);
      var n := Sum(G.SampleCounts(records, ks, sizes));
      if n != 0 {
        assert MapSeq(G.LocalSamples, G.Entries(records, ks, sizes, |records| as real / n as real)) == G.SampleCounts(records, ks, sizes);
      }
    }
  }

  lemma HealthyRecords(telemetry: seq<G.RankTelemetry>)
    ensures forall t :: t in G.Records(telemetry) <==> t in telemetry && t.healthy
  {
    forall t ensures t in G.Records(telemetry) <==> t in telemetry && t.healthy {
      assert t in multiset(G.Records(telemetry)) <==> t in multiset(G.Healthy(telemetry));
    }
  }

  lemma KnownRanks(records: seq<G.RankTelemetry>, sizes: map<int, int>)
    ensures ToSet(MapSeq(G.RankOf, records)) == sizes.Keys
       <==> forall k :: k in sizes <==> exists t :: t in records && t.rank == k
    ensures ToSet(MapSeq(G.RankOf, records)) == sizes.Keys ==>
              (G.Divisible(records, sizes) <==> forall k :: k in sizes ==> sizes[k] != 0)
  {
    var ranks := MapSeq(G.RankOf, records);
    forall k ensures k in ranks <==> exists t :: t in records && t.rank == k {
      if k in ranks {
        var i :| 0 <= i < |ranks| && ranks[i] == k;
        assert records[i] in records && records[i].rank == k;
      }
      if t :| t in records && t.rank == k {
        var i :| 0 <= i < |records| && records[i] == t;
        assert ranks[i] == k;
      }
    }
    if ToSet(ranks) == sizes.Keys {
      forall k ensures k in sizes <==> k in ranks { assert k in ToSet(ranks) <==> k in sizes.Keys; }
    }
    if forall k :: k in sizes <==> exists t :: t in records && t.rank == k {
      assert forall k :: k in ToSet(ranks) <==> k in sizes.Keys;
    }
  }
}

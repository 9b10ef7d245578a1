/** How many micro-batches the two planners give a rank: the throughput over the time it
    has, divided by the batch size, to the nearest integer and within the bounds. */
module MicroBatchCounts {
  import opened Arithmetic
  import opened Ordering
  import opened Prelude
  import G = GradientScaling
  import P = UpdatePlanner

  // -------------------------------------------------------------- rounding

  /** `k` is the integer nearest to `work / unit`; of two equally near ones the even one. */
  predicate IsNearest(work: real, unit: real, k: int) {
    var off := Abs(work - k as real * unit);
    2.0 * off < unit || (2.0 * off == unit && k % 2 == 0)
  }

  /** Half way between `n` and `n + 1`. */
  function Edge(n: int, unit: real): real {
    (n as real + 0.5) * unit
  }

  /** The nearest integer is above `hi`, or below `lo`. */
  predicate Exceeds(work: real, unit: real, hi: int) {
    work > Edge(hi, unit) || (work == Edge(hi, unit) && hi % 2 == 1)
  }

  predicate FallsShort(work: real, unit: real, lo: int) {
    work < Edge(lo - 1, unit) || (work == Edge(lo - 1, unit) && lo % 2 == 1)
  }

  /** What a planned count is: a bound where the nearest integer lies beyond it, else the
      nearest integer. */
  predicate IsCount(work: real, unit: real, lo: int, hi: int, k: int) {
    && lo <= k <= hi
    && (Exceeds(work, unit, hi) ==> k == hi)
    && (FallsShort(work, unit, lo) ==> k == lo)
    && (!Exceeds(work, unit, hi) && !FallsShort(work, unit, lo) ==> IsNearest(work, unit, k))
  }

  lemma NearestIff(work: real, unit: real, k: int)
    requires unit > 0.0
    ensures IsNearest(work, unit, k) <==> !Exceeds(work, unit, k) && !FallsShort(work, unit, k)
  {
    assert Edge(k, unit) == k as real * unit + 0.5 * unit && Edge(k - 1, unit) == k as real * unit - 0.5 * unit;
  }

  lemma EdgesGrow(j: int, k: int, unit: real)
    requires unit > 0.0
    ensures j < k ==> Edge(j, unit) < Edge(k, unit)
  {
    if j < k { assert Edge(k, unit) - Edge(j, unit) == (k - j) as real * unit; }
  }

  lemma SmallerIsFurther(work: real, unit: real, j: int, k: int)
    requires unit > 0.0 && j < k
    ensures !(IsNearest(work, unit, j) && IsNearest(work, unit, k))
  {
    NearestIff(work, unit, j);
    NearestIff(work, unit, k);
    EdgesGrow(j, k - 1, unit);
    hide IsNearest, Edge;
  }

  lemma NearestIsUnique(work: real, unit: real, j: int, k: int)
    requires unit > 0.0 && IsNearest(work, unit, j) && IsNearest(work, unit, k)
    ensures j == k
  {
    hide IsNearest;
    if j < k { SmallerIsFurther(work, unit, j, k); }
    if k < j { SmallerIsFurther(work, unit, k, j); }
  }

  /** So the description leaves no choice. */
  lemma CountIsUnique(work: real, unit: real, lo: int, hi: int, j: int, k: int)
    requires unit > 0.0 && IsCount(work, unit, lo, hi, j) && IsCount(work, unit, lo, hi, k)
    ensures j == k
  {
    if !Exceeds(work, unit, hi) && !FallsShort(work, unit, lo) { NearestIsUnique(work, unit, j, k); }
  }

  lemma RoundsToNearest(x: real)
    ensures IsNearest(x, 1.0, Round(x))
    ensures forall n: int :: Round(x) > n <==> Exceeds(x, 1.0, n)
    ensures forall n: int :: Round(x) < n <==> FallsShort(x, 1.0, n)
  {
  }

  lemma ScaleEdge(x: real, work: real, unit: real, n: int)
    requires unit > 0.0 && x * unit == work
    ensures x < Edge(n, 1.0) <==> work < Edge(n, unit)
    ensures x > Edge(n, 1.0) <==> work > Edge(n, unit)
  {
    var edge := n as real + 0.5;
    assert Edge(n, 1.0) == edge && Edge(n, unit) == edge * unit;
    Compare(x, edge, unit);
  }

  lemma Scale(x: real, work: real, unit: real, n: int)
    requires unit > 0.0 && x * unit == work
    ensures IsNearest(x, 1.0, n) <==> IsNearest(work, unit, n)
    ensures Exceeds(x, 1.0, n) <==> Exceeds(work, unit, n)
    ensures FallsShort(x, 1.0, n) <==> FallsShort(work, unit, n)
  {
    NearestIff(x, 1.0, n);
    NearestIff(work, unit, n);
    hide IsNearest;
    ScaleEdge(x, work, unit, n);
    ScaleEdge(x, work, unit, n - 1);
    hide Edge;
  }

  lemma Compare(x: real, y: real, unit: real)
    requires unit > 0.0
    ensures x < y <==> x * unit < y * unit
    ensures x == y <==> x * unit == y * unit
  {
    if x < y { assert (y - x) * unit > 0.0; }
    if x > y { assert (x - y) * unit > 0.0; }
  }

  lemma ClampedIsCount(x: real, work: real, unit: real, lo: int, hi: int)
    requires unit > 0.0 && x * unit == work && lo <= hi
    ensures IsCount(work, unit, lo, hi, ClampedRound(x, lo, hi))
  {
    RoundsToNearest(x);
    Scale(x, work, unit, ClampedRound(x, lo, hi));
    Scale(x, work, unit, lo);
    Scale(x, work, unit, hi);
    hide IsNearest, Exceeds, FallsShort, Round, Edge;
  }

  /** The samples processed in `ms` milliseconds, and a batch, in thousandths of a sample. */
  function Work(rate: real, ms: real): real {
    rate * ms
  }

  function Unit(size: int): real {
    1000.0 * size as real
  }

  lemma Quotient(rate: real, time: real, size: int)
    requires size != 0
    ensures (rate * (time / 1000.0) / size as real) * Unit(size) == Work(rate, time)
    ensures size > 0 ==> Unit(size) > 0.0
  {
    var n, seconds := size as real, time / 1000.0;
    assert (rate * seconds / n) * n == rate * seconds;
    assert (rate * seconds / n) * (1000.0 * n) == 1000.0 * ((rate * seconds / n) * n);
    assert 1000.0 * (rate * seconds) == rate * (1000.0 * seconds);
  }

  // -------------------------------------------------- the accumulation planner

  /** The throughput over the target duration, per batch. A negative batch size, which only
      the validator refuses, turns both signs. */
  lemma AccumulationCount(settings: G.Settings, t: G.RankTelemetry, size: int)
    requires size != 0
    ensures var k, work, unit := G.MicroBatches(settings, t, size), Work(t.samplesPerSecond, settings.targetUpdateMs), Unit(size);
            && (settings.minMicroBatches > settings.maxMicroBatches ==> k == settings.minMicroBatches)
            && (settings.minMicroBatches <= settings.maxMicroBatches ==>
                  && (size > 0 ==> IsCount(work, unit, settings.minMicroBatches, settings.maxMicroBatches, k))
                  && (size < 0 ==> IsCount(-work, -unit, settings.minMicroBatches, settings.maxMicroBatches, k)))
  {
    var x, work, unit := G.Capacity(settings, t, size), Work(t.samplesPerSecond, settings.targetUpdateMs), Unit(size);
    Quotient(t.samplesPerSecond, settings.targetUpdateMs, size);
    assert x * unit == work;
    hide ClampedRound, IsCount, G.Capacity;
    if settings.minMicroBatches <= settings.maxMicroBatches {
      if size > 0 {
        ClampedIsCount(x, work, unit, settings.minMicroBatches, settings.maxMicroBatches);
      } else {
        assert x * (-unit) == -work;
        ClampedIsCount(x, -work, -unit, settings.minMicroBatches, settings.maxMicroBatches);
      }
    }
  }

  /** A returned plan has one entry for each healthy record, by rank, with its batch size
      and the count of its throughput. */
  lemma AccumulationPlanCounts(settings: G.Settings, version: int, telemetry: seq<G.RankTelemetry>, sizes: map<int, int>, plan: G.UpdatePlan)
    requires G.Plan(settings, version, telemetry, sizes).0 == Result.Ok(plan) && settings.minMicroBatches <= settings.maxMicroBatches
    ensures |plan.ranks| == |G.Records(telemetry)| && multiset(G.Records(telemetry)) == multiset(G.Healthy(telemetry))
    ensures SortedBy(G.Records(telemetry), G.RankLe)
    ensures forall i :: 0 <= i < |plan.ranks| ==>
              var t, entry := G.Records(telemetry)[i], plan.ranks[i];
              && entry.rank == t.rank && t.rank in sizes && entry.samplesPerMicroBatch == sizes[t.rank]
              && (sizes[t.rank] > 0 ==>
                    IsCount(Work(t.samplesPerSecond, settings.targetUpdateMs), Unit(sizes[t.rank]),
                            settings.minMicroBatches, settings.maxMicroBatches, entry.microBatches))
  {
    var records := G.Records(telemetry);
    RecordsAreSorted(telemetry);
    forall i | 0 <= i < |plan.ranks|
      ensures var t, entry := records[i], plan.ranks[i];
              && entry.rank == t.rank && t.rank in sizes && entry.samplesPerMicroBatch == sizes[t.rank]
              && (sizes[t.rank] > 0 ==>
                    IsCount(Work(t.samplesPerSecond, settings.targetUpdateMs), Unit(sizes[t.rank]),
                            settings.minMicroBatches, settings.maxMicroBatches, entry.microBatches))
    {
      AccumulationEntry(settings, version, telemetry, sizes, plan, i);
      hide *;
      AccumulationCount(settings, records[i], sizes[records[i].rank]);
    }
    AccumulationLength(settings, version, telemetry, sizes, plan);
    hide *;
  }

  lemma RecordsAreSorted(telemetry: seq<G.RankTelemetry>)
    ensures multiset(G.Records(telemetry)) == multiset(G.Healthy(telemetry)) && SortedBy(G.Records(telemetry), G.RankLe)
  {
    SortSorts(G.Healthy(telemetry), G.RankLe);
  }

  lemma AccumulationLength(settings: G.Settings, version: int, telemetry: seq<G.RankTelemetry>, sizes: map<int, int>, plan: G.UpdatePlan)
    requires G.Plan(settings, version, telemetry, sizes).0 == Result.Ok(plan)
    ensures |plan.ranks| == |G.Records(telemetry)|
  {
    hide G.Records, G.MicroBatches, ToSet, MapSeq;
  }

  lemma AccumulationEntry(settings: G.Settings, version: int, telemetry: seq<G.RankTelemetry>, sizes: map<int, int>, plan: G.UpdatePlan, i: nat)
    requires G.Plan(settings, version, telemetry, sizes).0 == Result.Ok(plan) && i < |plan.ranks|
    ensures i < |G.Records(telemetry)|
    ensures var t, entry := G.Records(telemetry)[i], plan.ranks[i];
            && entry.rank == t.rank && t.rank in sizes && sizes[t.rank] != 0 && entry.samplesPerMicroBatch == sizes[t.rank]
            && entry.microBatches == G.MicroBatches(settings, t, sizes[t.rank])
  {
    hide G.Records, G.MicroBatches, ToSet, MapSeq;
  }

  // ------------------------------------------------- the topology-aware planner

  /** Of several records for a rank the last one counts. */
  lemma {:induction false} LastRecordCounts(telemetry: seq<P.Telemetry>, rank: int)
    ensures rank in P.TelemetryByRank(telemetry) <==> exists i :: 0 <= i < |telemetry| && telemetry[i].rank == rank
    ensures rank in P.TelemetryByRank(telemetry) ==>
              exists i :: && 0 <= i < |telemetry| && telemetry[i].rank == rank && P.TelemetryByRank(telemetry)[rank] == telemetry[i]
                          && forall j :: i < j < |telemetry| ==> telemetry[j].rank != rank
  {
    if telemetry != [] {
      var before := telemetry[..|telemetry| - 1];
      LastRecordCounts(before, rank);
      assert forall i :: 0 <= i < |before| ==> before[i] == telemetry[i];
      if telemetry[|telemetry| - 1].rank != rank && rank in P.TelemetryByRank(before) {
        var i :| 0 <= i < |before| && before[i].rank == rank && P.TelemetryByRank(before)[rank] == before[i]
                 && forall j :: i < j < |before| ==> before[j].rank != rank;
        assert telemetry[i].rank == rank;
      }
    }
  }

  /** The time a rank has for computing: the target less its data time, the larger of its
      observed and its expected collective time, and the safety margin. */
  predicate HasTime(settings: P.Settings, record: P.TopologyRecord, t: P.Telemetry, guard: real, budget: real) {
    && t.p95AllreduceMs <= guard && record.collectiveFloorMs <= guard
    && (guard == t.p95AllreduceMs || guard == record.collectiveFloorMs)
    && budget + guard + t.p95DataMs + settings.safetyJitterMs == settings.targetUpdateMs && budget > 0.0
  }

  /** In a returned plan every rank has time, and the count of its throughput over it. */
  lemma TopologyPlanCounts(settings: P.Settings, digests: P.Digests, version: int, inputs: P.Inputs, group: int, plan: P.UpdatePlan, r: nat)
    requires settings.Valid() && P.Plan(settings, digests, version, inputs, group).0 == Result.Ok(plan) && r < |plan.ranks|
    ensures |plan.ranks| == |inputs.topology.ranks| && r in inputs.sizes && r in P.TelemetryByRank(inputs.telemetry)
    ensures var entry, record, t := plan.ranks[r], inputs.topology.ranks[r], P.TelemetryByRank(inputs.telemetry)[r];
            && entry.rank == record.rank == r && entry.nodeId == record.nodeId && entry.localRank == record.localRank
            && entry.samplesPerMicroBatch == inputs.sizes[r] > 0
            && HasTime(settings, record, t, entry.networkGuardMs, entry.computeBudgetMs)
            && IsCount(Work(t.samplesPerSecond, entry.computeBudgetMs), Unit(inputs.sizes[r]),
                       settings.minMicroBatches, settings.maxMicroBatches, entry.microBatches)
  {
    PlanEntry(settings, digests, version, inputs, group, plan, r);
    hide *;
    var record, t, size := inputs.topology.ranks[r], P.TelemetryByRank(inputs.telemetry)[r], inputs.sizes[r];
    BudgetIsTime(settings, record, t);
    TopologyCount(settings, record, t, size);
  }

  lemma BudgetIsTime(settings: P.Settings, record: P.TopologyRecord, t: P.Telemetry)
    ensures P.ComputeBudget(settings, record, t) > 0.0
       <==> HasTime(settings, record, t, P.NetworkGuard(record, t), P.ComputeBudget(settings, record, t))
  {
  }

  lemma TopologyCount(settings: P.Settings, record: P.TopologyRecord, t: P.Telemetry, size: int)
    requires settings.Valid() && size > 0
    ensures IsCount(Work(t.samplesPerSecond, P.ComputeBudget(settings, record, t)), Unit(size),
                    settings.minMicroBatches, settings.maxMicroBatches, P.MicroBatches(settings, record, t, size))
  {
    var budget := P.ComputeBudget(settings, record, t);
    Quotient(t.samplesPerSecond, budget, size);
    assert P.Capacity(settings, record, t, size) * Unit(size) == Work(t.samplesPerSecond, budget);
    hide P.ComputeBudget, P.Capacity, IsCount, ClampedRound, Work, Unit;
    ClampedIsCount(P.Capacity(settings, record, t, size), Work(t.samplesPerSecond, budget), Unit(size),
                   settings.minMicroBatches, settings.maxMicroBatches);
  }

  lemma PlanEntry(settings: P.Settings, digests: P.Digests, version: int, inputs: P.Inputs, group: int, plan: P.UpdatePlan, r: nat)
    requires settings.Valid() && P.Plan(settings, digests, version, inputs, group).0 == Result.Ok(plan) && r < |plan.ranks|
    ensures |plan.ranks| == |inputs.topology.ranks| && inputs.topology.ranks[r].rank == r
    ensures r in inputs.sizes && inputs.sizes[r] > 0 && r in P.TelemetryByRank(inputs.telemetry)
    ensures var record, t, size, entry := inputs.topology.ranks[r], P.TelemetryByRank(inputs.telemetry)[r], inputs.sizes[r], plan.ranks[r];
            && P.ComputeBudget(settings, record, t) > 0.0
            && entry.rank == record.rank && entry.nodeId == record.nodeId && entry.localRank == record.localRank
            && entry.samplesPerMicroBatch == size && entry.microBatches == P.MicroBatches(settings, record, t, size)
            && entry.computeBudgetMs == P.ComputeBudget(settings, record, t) && entry.networkGuardMs == P.NetworkGuard(record, t)
  {
    hide P.ValidateUpdatePlan, P.AssignWork, P.MicroBatches, P.ComputeBudget, P.NetworkGuard, P.GlobalSamples, P.WorkDigest, P.TelemetryByRank;
    P.InputsCoverRanks(inputs);
  }
}

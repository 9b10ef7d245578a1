/** The topology-aware planner: how many micro-batches each rank runs in the next
    update, which work items it runs them on, and the independent validator every rank
    applies to the result.

    Costs and times are reals, so every value is finite; digests are functions of the
    canonical value they are taken of. */
module UpdatePlanner {
  import opened Prelude
  import opened Ordering
  import opened Arithmetic

  // -------------------------------------------------------------- data model

  datatype TopologyRecord = TopologyRecord(
    rank: int, nodeId: string, localRank: int, gpuId: string, numaNode: int, nicId: string,
    railId: string, gpuNicDistance: int, collectiveFloorMs: real, inventoryEpoch: string)
  {
    predicate Valid() {
      && rank >= 0 && localRank >= 0 && numaNode >= 0 && gpuNicDistance >= 0
      && nodeId != "" && gpuId != "" && nicId != "" && railId != "" && inventoryEpoch != ""
      && collectiveFloorMs >= 0.0
    }
  }

  function Place(r: TopologyRecord): (string, int) {
    (r.nodeId, r.localRank)
  }

  datatype Topology = Topology(epoch: string, worldSize: int, ranks: seq<TopologyRecord>) {
    predicate Valid() {
      && worldSize > 0 && |ranks| == worldSize
      && (forall i :: 0 <= i < |ranks| ==> ranks[i].rank == i)
      && |ToSet(MapSeq(Place, ranks))| == worldSize
      && (forall i :: 0 <= i < |ranks| ==> ranks[i].Valid())
    }
  }

  datatype Telemetry = Telemetry(
    rank: int, samplesPerSecond: real, p95DataMs: real, p95AllreduceMs: real, freeMemoryGb: real, healthy: bool)
  {
    predicate Valid() {
      rank >= 0 && samplesPerSecond > 0.0 && p95DataMs >= 0.0 && p95AllreduceMs >= 0.0 && freeMemoryGb >= 0.0
    }
  }

  datatype WorkItem = WorkItem(workId: string, cost: real, preferredNodes: seq<string>, provenanceHash: string) {
    predicate Valid() {
      workId != "" && cost > 0.0 && |ToSet(preferredNodes)| == |preferredNodes|
    }
  }

  datatype RankPlan = RankPlan(
    rank: int, nodeId: string, localRank: int, nicId: string, railId: string,
    microBatches: int, samplesPerMicroBatch: int, localSamples: int, lossSumScale: real,
    computeBudgetMs: real, networkGuardMs: real, workItemIds: seq<string>)

  datatype UpdatePlan = UpdatePlan(
    planVersion: int, topologyEpoch: string, topologyDigest: string, workManifestDigest: string,
    targetUpdateMs: real, worldSize: int, globalSamples: int, ranks: seq<RankPlan>)

  datatype Settings = Settings(
    targetUpdateMs: real, minMicroBatches: int, maxMicroBatches: int,
    safetyJitterMs: real, remoteWorkPenaltyMs: real, distancePenaltyMs: real)
  {
    predicate Valid() {
      targetUpdateMs > 0.0 && 1 <= minMicroBatches <= maxMicroBatches
    }
  }

  datatype Digests = Digests(topology: Topology -> string, work: seq<WorkItem> -> string)

  datatype PlanError =
    | InvalidTopology | MissingRankFacts | UnhealthyRank | InvalidBatchSize | InvalidTelemetry
    | InvalidWorkItem | DuplicateWork | NoComputeBudget | WorkCountMismatch | SlotsExhausted
    | WorldSizesDisagree | StaleTopology | WorkManifestDiffers | InvalidMetadata | InvalidRankEntries
    | WorkAssignmentDiffers | GlobalSamplesDiffer | RankFactsDiffer | MicroBatchCountDiffers
    | LocalSamplesInvalid | LossScaleInvalid

  function Id(item: WorkItem): string {
    item.workId
  }

  // ------------------------------------------------------ micro-batch counts

  function NetworkGuard(record: TopologyRecord, t: Telemetry): real {
    if t.p95AllreduceMs >= record.collectiveFloorMs then t.p95AllreduceMs else record.collectiveFloorMs
  }

  function ComputeBudget(settings: Settings, record: TopologyRecord, t: Telemetry): real {
    settings.targetUpdateMs - (t.p95DataMs + NetworkGuard(record, t) + settings.safetyJitterMs)
  }

  /** Batches the throughput fills in the time left for computing. */
  function Capacity(settings: Settings, record: TopologyRecord, t: Telemetry, size: int): real
    requires size > 0
  {
    t.samplesPerSecond * (ComputeBudget(settings, record, t) / 1000.0) / size as real
  }

  function MicroBatches(settings: Settings, record: TopologyRecord, t: Telemetry, size: int): int
    requires size > 0
  {
    ClampedRound(Capacity(settings, record, t, size), settings.minMicroBatches, settings.maxMicroBatches)
  }

  lemma CountsInRange(settings: Settings, records: seq<TopologyRecord>, t: seq<Telemetry>, sizes: seq<int>)
    requires settings.Valid() && |records| == |t| == |sizes| && forall r :: 0 <= r < |sizes| ==> sizes[r] > 0
    ensures forall r :: 0 <= r < |t| ==>
              settings.minMicroBatches <= MicroBatches(settings, records[r], t[r], sizes[r]) <= settings.maxMicroBatches
  {
    hide Round, Capacity;
  }

  // ------------------------------------------------------- greedy assignment

  /** What the assignment knows of the ranks; `caps` is the planned slot count. */
  datatype Fleet = Fleet(settings: Settings, ranks: seq<TopologyRecord>, telemetry: seq<Telemetry>, caps: seq<int>) {
    predicate Valid() {
      && |ranks| == |telemetry| == |caps|
      && (forall r :: 0 <= r < |telemetry| ==> telemetry[r].samplesPerSecond > 0.0)
    }
  }

  /** Expensive work first, then by work ID. */
  predicate CostlierFirst(a: WorkItem, b: WorkItem) {
    a.cost > b.cost || (a.cost == b.cost && LexLe(a.workId, b.workId))
  }

  predicate ByWorkId(a: WorkItem, b: WorkItem) {
    LexLe(a.workId, b.workId)
  }

  function Cost(items: seq<WorkItem>): real {
    if items == [] then 0.0 else Cost(items[..|items| - 1]) + items[|items| - 1].cost
  }

  function RemotePenalty(fleet: Fleet, r: nat, item: WorkItem): real
    requires fleet.Valid() && r < |fleet.ranks|
  {
    if item.preferredNodes == [] || fleet.ranks[r].nodeId in item.preferredNodes then 0.0
    else fleet.settings.remoteWorkPenaltyMs
  }

  /** Finish estimate of rank `r` if it took `item` on top of `load`. */
  function EstimatedFinish(fleet: Fleet, r: nat, load: real, item: WorkItem): real
    requires fleet.Valid() && r < |fleet.ranks|
  {
    1000.0 * (load + item.cost) / fleet.telemetry[r].samplesPerSecond
      + RemotePenalty(fleet, r, item)
      + fleet.ranks[r].gpuNicDistance as real * fleet.settings.distancePenaltyMs
  }

  predicate HasSlot(fleet: Fleet, placed: seq<seq<WorkItem>>, r: nat)
    requires fleet.Valid() && |placed| == |fleet.ranks| && r < |placed|
  {
    |placed[r]| < fleet.caps[r]
  }

  /** Rank `r` is the right destination: it has a slot, and its finish estimate is
      the least among ranks with a slot, ties going to the lowest rank. */
  ghost predicate IsBest(fleet: Fleet, placed: seq<seq<WorkItem>>, item: WorkItem, r: nat, n: nat)
    requires fleet.Valid() && |placed| == |fleet.ranks| && n <= |placed|
  {
    && r < n && HasSlot(fleet, placed, r)
    && forall q :: 0 <= q < n && HasSlot(fleet, placed, q) ==>
         var mine, theirs := EstimatedFinish(fleet, r, Cost(placed[r]), item), EstimatedFinish(fleet, q, Cost(placed[q]), item);
         mine < theirs || (mine == theirs && r <= q)
  }

  /** `min(candidates, key=estimated_finish)` over the first `n` ranks. */
  function Destination(fleet: Fleet, placed: seq<seq<WorkItem>>, item: WorkItem, n: nat): (d: Option<nat>)
    requires fleet.Valid() && |placed| == |fleet.ranks| && n <= |placed|
    ensures d.Some? ==> IsBest(fleet, placed, item, d.value, n)
    ensures d.None? ==> forall r :: 0 <= r < n ==> !HasSlot(fleet, placed, r)
  {
    if n == 0 then None
    else
      var before := Destination(fleet, placed, item, n - 1);
      if !HasSlot(fleet, placed, n - 1) then before
      else if before.None? then Some(n - 1)
      else if EstimatedFinish(fleet, n - 1, Cost(placed[n - 1]), item)
              < EstimatedFinish(fleet, before.value, Cost(placed[before.value]), item) then Some(n - 1)
      else before
  }

  function NoWork(n: nat): seq<seq<WorkItem>> {
    seq(n, i => [])
  }

  /** The lists after assigning `items` in order; None where the loop would run out of
      slots. */
  function Greedy(fleet: Fleet, items: seq<WorkItem>): (lists: Option<seq<seq<WorkItem>>>)
    requires fleet.Valid()
    ensures lists.Some? ==> |lists.value| == |fleet.ranks|
  {
    if items == [] then Some(NoWork(|fleet.ranks|))
    else
      var item := items[|items| - 1];
      var before := Greedy(fleet, items[..|items| - 1]);
      if before.None? then None
      else
        var d := Destination(fleet, before.value, item, |before.value|);
        if d.None? then None else Some(before.value[d.value := before.value[d.value] + [item]])
  }

  /** `_assign_work`: the work IDs of every rank, each list sorted once more. */
  function AssignWork(fleet: Fleet, items: seq<WorkItem>): (ids: Option<seq<seq<string>>>)
    requires fleet.Valid()
    ensures ids.Some? ==> |ids.value| == |fleet.ranks|
  {
    match Greedy(fleet, Sort(items, CostlierFirst))
    case None => None
    case Some(lists) => Some(RankIds(lists))
  }

  function RankIds(lists: seq<seq<WorkItem>>): (ids: seq<seq<string>>)
    ensures |ids| == |lists|
    ensures forall r :: 0 <= r < |lists| ==> ids[r] == MapSeq(Id, Sort(lists[r], CostlierFirst))
  {
    seq(|lists|, r requires 0 <= r < |lists| => MapSeq(Id, Sort(lists[r], CostlierFirst)))
  }

  /** The candidate filter and `min` of one placement. */
  method PickRank(fleet: Fleet, placed: seq<seq<WorkItem>>, costs: seq<real>, item: WorkItem) returns (d: Option<nat>)
    requires fleet.Valid() && |placed| == |costs| == |fleet.ranks|
    requires forall k :: 0 <= k < |placed| ==> costs[k] == Cost(placed[k])
    ensures d == Destination(fleet, placed, item, |placed|)
    ensures d.Some? ==> d.value < |placed|
  {
    hide EstimatedFinish, IsBest, Cost;
    d := None;
    for k := 0 to |placed|
      invariant d.Some? ==> d.value < k
      invariant d == Destination(fleet, placed, item, k)
    {
      if |placed[k]| < fleet.caps[k] {
        if d.None? || EstimatedFinish(fleet, k, costs[k], item) < EstimatedFinish(fleet, d.value, costs[d.value], item) {
          d := Some(k);
        }
      }
    }
  }

  method AssignWorkLoop(fleet: Fleet, items: seq<WorkItem>) returns (r: Result<seq<seq<string>>, PlanError>)
    requires fleet.Valid()
    ensures r == if AssignWork(fleet, items).None? then Err(SlotsExhausted) else Ok(AssignWork(fleet, items).value)
  {
    hide Sort, IsBest, HasSlot, Destination, EstimatedFinish, RankIds;
    var world := |fleet.ranks|;
    var placed := NoWork(world);
    var placedCost := seq(world, i => 0.0);
    var ordered := Sort(items, CostlierFirst);
    for n := 0 to |ordered|
      invariant |placed| == |placedCost| == world
      invariant Greedy(fleet, ordered[..n]) == Some(placed)
      invariant forall k :: 0 <= k < world ==> placedCost[k] == Cost(placed[k])
    {
      var item := ordered[n];
      var destination := PickRank(fleet, placed, placedCost, item);
      assert ordered[..n + 1][..n] == ordered[..n];
      if destination.None? {
        GreedyStuck(fleet, ordered, n + 1);
        return Err(SlotsExhausted);
      }
      var d := destination.value;
      CostOfLonger(placed[d], item);
      placed, placedCost := placed[d := placed[d] + [item]], placedCost[d := placedCost[d] + item.cost];
    }
    assert ordered[..|ordered|] == ordered;
    r := Ok(RankIds(placed));
  }

  lemma CostOfLonger(items: seq<WorkItem>, item: WorkItem)
    ensures Cost(items + [item]) == Cost(items) + item.cost
  {
  }

  lemma {:induction false} GreedyStuck(fleet: Fleet, items: seq<WorkItem>, n: nat)
    requires fleet.Valid() && n <= |items| && Greedy(fleet, items[..n]).None?
    ensures Greedy(fleet, items).None?
    decreases |items| - n
  {
    if n == |items| {
      assert items[..n] == items;
    } else {
      assert items[..n + 1][..n] == items[..n];
      GreedyStuck(fleet, items, n + 1);
    }
  }

  // ------------------------------------------------------------ the validator

  /** `work_manifest_digest` */
  function WorkDigest(digests: Digests, items: seq<WorkItem>): string {
    digests.work(Sort(items, ByWorkId))
  }

  function WorkIds(p: RankPlan): seq<string> {
    p.workItemIds
  }

  function LocalSamples(p: RankPlan): int {
    p.localSamples
  }

  /** The checks made of one rank entry against its topology record. */
  function RankEntryError(p: RankPlan, record: TopologyRecord, expectedScale: real): Option<PlanError> {
    if p.nodeId != record.nodeId || p.localRank != record.localRank || p.nicId != record.nicId || p.railId != record.railId then
      Some(RankFactsDiffer)
    else if p.microBatches < 1 || |p.workItemIds| != p.microBatches then Some(MicroBatchCountDiffers)
    else if p.localSamples != p.microBatches * p.samplesPerMicroBatch then Some(LocalSamplesInvalid)
    else if Abs(p.lossSumScale - expectedScale) > 0.000000000001 then Some(LossScaleInvalid)
    else None
  }

  function RankEntriesError(ps: seq<RankPlan>, records: seq<TopologyRecord>, expectedScale: real): Option<PlanError>
    requires |ps| == |records|
  {
    if ps == [] then None
    else
      var first := RankEntryError(ps[0], records[0], expectedScale);
      if first.Some? then first else RankEntriesError(ps[1..], records[1..], expectedScale)
  }

  /** `validate_update_plan` for a process group of `group` ranks; None where it does
      not raise. */
  function ValidateUpdatePlan(digests: Digests, plan: UpdatePlan, topology: Topology, items: seq<WorkItem>, group: int): Option<PlanError> {
    if !topology.Valid() then Some(InvalidTopology)
    else if plan.worldSize != group || plan.worldSize != topology.worldSize then Some(WorldSizesDisagree)
    else if plan.topologyEpoch != topology.epoch || plan.topologyDigest != digests.topology(topology) then Some(StaleTopology)
    else if exists i :: 0 <= i < |items| && !items[i].Valid() then Some(InvalidWorkItem)
    else if plan.workManifestDigest != WorkDigest(digests, items) then Some(WorkManifestDiffers)
    else if plan.planVersion < 1 || plan.globalSamples <= 0 then Some(InvalidMetadata)
    else if |plan.ranks| != plan.worldSize || exists i :: 0 <= i < |plan.ranks| && plan.ranks[i].rank != i then Some(InvalidRankEntries)
    else
      var expected := ToSet(MapSeq(Id, items));
      var planned := Flatten(MapSeq(WorkIds, plan.ranks));
      if ToSet(planned) != expected || |planned| != |expected| then Some(WorkAssignmentDiffers)
      else if plan.globalSamples != Sum(MapSeq(LocalSamples, plan.ranks)) then Some(GlobalSamplesDiffer)
      else RankEntriesError(plan.ranks, topology.ranks, plan.worldSize as real / plan.globalSamples as real)
  }

  // --------------------------------------------------------------- the planner

  datatype Inputs = Inputs(topology: Topology, telemetry: seq<Telemetry>, sizes: map<int, int>, items: seq<WorkItem>)

  /** `{item.rank: item for item in telemetry}`: the last record of a rank wins. */
  function TelemetryByRank(telemetry: seq<Telemetry>): map<int, Telemetry> {
    if telemetry == [] then map[]
    else TelemetryByRank(telemetry[..|telemetry| - 1])[telemetry[|telemetry| - 1].rank := telemetry[|telemetry| - 1]]
  }

  function RankSet(topology: Topology): set<int> {
    set i | 0 <= i < |topology.ranks| :: topology.ranks[i].rank
  }

  /** The argument checks of `plan`, in order. */
  function InputError(inputs: Inputs): Option<PlanError> {
    var t := TelemetryByRank(inputs.telemetry);
    if !inputs.topology.Valid() then Some(InvalidTopology)
    else if t.Keys != RankSet(inputs.topology) || inputs.sizes.Keys != RankSet(inputs.topology) then Some(MissingRankFacts)
    else if exists r :: r in t && !t[r].healthy then Some(UnhealthyRank)
    else if exists r :: r in inputs.sizes && inputs.sizes[r] <= 0 then Some(InvalidBatchSize)
    else if exists r :: r in t && !t[r].Valid() then Some(InvalidTelemetry)
    else if exists i :: 0 <= i < |inputs.items| && !inputs.items[i].Valid() then Some(InvalidWorkItem)
    else if |ToSet(MapSeq(Id, inputs.items))| != |inputs.items| then Some(DuplicateWork)
    else None
  }

  lemma InputsCoverRanks(inputs: Inputs)
    requires InputError(inputs).None?
    ensures inputs.topology.Valid()
    ensures forall r :: 0 <= r < |inputs.topology.ranks| ==>
              && r in TelemetryByRank(inputs.telemetry) && TelemetryByRank(inputs.telemetry)[r].Valid()
              && r in inputs.sizes && inputs.sizes[r] > 0
  {
    forall r | 0 <= r < |inputs.topology.ranks| ensures r in RankSet(inputs.topology) {
      assert inputs.topology.ranks[r].rank == r;
    }
  }

  /** What passes the argument checks, by rank. */
  datatype Facts = Facts(records: seq<TopologyRecord>, telemetry: seq<Telemetry>, sizes: seq<int>) {
    predicate Valid() {
      && |records| == |telemetry| == |sizes| > 0
      && (forall r :: 0 <= r < |telemetry| ==> telemetry[r].samplesPerSecond > 0.0)
      && (forall r :: 0 <= r < |sizes| ==> sizes[r] > 0)
    }
  }

  function FactsOf(inputs: Inputs): (f: Facts)
    requires InputError(inputs).None?
    ensures f.Valid() && f.records == inputs.topology.ranks
  {
    InputsCoverRanks(inputs);
    var n := |inputs.topology.ranks|;
    Facts(inputs.topology.ranks,
          seq(n, r requires 0 <= r < n => TelemetryByRank(inputs.telemetry)[r]),
          seq(n, r requires 0 <= r < n => inputs.sizes[r]))
  }

  function CountsOf(settings: Settings, f: Facts): (c: seq<int>)
    requires settings.Valid() && f.Valid()
    ensures |c| == |f.records| && forall r :: 0 <= r < |c| ==> 1 <= c[r] <= settings.maxMicroBatches
  {
    CountsInRange(settings, f.records, f.telemetry, f.sizes);
    hide MicroBatches;
    seq(|f.records|, r requires 0 <= r < |f.records| => MicroBatches(settings, f.records[r], f.telemetry[r], f.sizes[r]))
  }

  predicate BudgetsPositive(settings: Settings, f: Facts)
    requires f.Valid()
  {
    forall r :: 0 <= r < |f.records| ==> ComputeBudget(settings, f.records[r], f.telemetry[r]) > 0.0
  }

  function FleetOf(settings: Settings, f: Facts): (fleet: Fleet)
    requires settings.Valid() && f.Valid()
    ensures fleet.Valid() && fleet.ranks == f.records && fleet.caps == CountsOf(settings, f)
  {
    Fleet(settings, f.records, f.telemetry, CountsOf(settings, f))
  }

  /** Samples each rank contributes. */
  function SampleCounts(counts: seq<int>, sizes: seq<int>): (s: seq<int>)
    requires |counts| == |sizes|
    ensures |s| == |counts| && forall r :: 0 <= r < |s| ==> s[r] == counts[r] * sizes[r]
  {
    seq(|counts|, r requires 0 <= r < |counts| => counts[r] * sizes[r])
  }

  lemma SamplesPositive(counts: seq<int>, sizes: seq<int>)
    requires |counts| == |sizes| > 0
    requires forall r :: 0 <= r < |counts| ==> counts[r] >= 1 && sizes[r] > 0
    ensures Sum(SampleCounts(counts, sizes)) > 0
  {
    SumPositive(SampleCounts(counts, sizes));
  }

  function GlobalSamples(settings: Settings, f: Facts): (n: int)
    requires settings.Valid() && f.Valid()
    ensures n > 0
  {
    SamplesPositive(CountsOf(settings, f), f.sizes);
    Sum(SampleCounts(CountsOf(settings, f), f.sizes))
  }

  function BuildRank(settings: Settings, record: TopologyRecord, t: Telemetry, count: int, size: int, scale: real, ids: seq<string>): RankPlan {
    RankPlan(record.rank, record.nodeId, record.localRank, record.nicId, record.railId, count, size, count * size,
             scale, ComputeBudget(settings, record, t), NetworkGuard(record, t), ids)
  }

  function BuildRanks(settings: Settings, f: Facts, counts: seq<int>, scale: real, ids: seq<seq<string>>): (ps: seq<RankPlan>)
    requires f.Valid() && |counts| == |ids| == |f.records|
    ensures |ps| == |ids|
    ensures forall r :: 0 <= r < |ps| ==>
              ps[r] == BuildRank(settings, f.records[r], f.telemetry[r], counts[r], f.sizes[r], scale, ids[r])
  {
    seq(|ids|, r requires 0 <= r < |ids| =>
      BuildRank(settings, f.records[r], f.telemetry[r], counts[r], f.sizes[r], scale, ids[r]))
  }

  function BuildPlan(settings: Settings, digests: Digests, version: int, inputs: Inputs, f: Facts, ids: seq<seq<string>>): UpdatePlan
    requires settings.Valid() && f.Valid() && |ids| == |f.records|
  {
    var n := GlobalSamples(settings, f);
    var scale := inputs.topology.worldSize as real / n as real;
    UpdatePlan(version, inputs.topology.epoch, digests.topology(inputs.topology), WorkDigest(digests, inputs.items),
               settings.targetUpdateMs, inputs.topology.worldSize, n,
               BuildRanks(settings, f, CountsOf(settings, f), scale, ids))
  }

  /** Outcome of `plan`, and the version counter it leaves behind. */
  function Plan(settings: Settings, digests: Digests, version: int, inputs: Inputs, group: int): (Result<UpdatePlan, PlanError>, int)
    requires settings.Valid()
  {
    var bad := InputError(inputs);
    if bad.Some? then (Err(bad.value), version)
    else
      var f := FactsOf(inputs);
      if !BudgetsPositive(settings, f) then (Err(NoComputeBudget), version)
      else if |inputs.items| != Sum(CountsOf(settings, f)) then (Err(WorkCountMismatch), version)
      else
        var ids := AssignWork(FleetOf(settings, f), inputs.items);
        if ids.None? then (Err(SlotsExhausted), version)
        else
          var plan := BuildPlan(settings, digests, version + 1, inputs, f, ids.value);
          var verdict := ValidateUpdatePlan(digests, plan, inputs.topology, inputs.items, group);
          (if verdict.Some? then Err(verdict.value) else Ok(plan), version + 1)
  }

  /** The budget loop of `plan`: the total slot count, unless a rank has no budget. */
  method CountSlots(settings: Settings, f: Facts) returns (total: Option<int>)
    requires settings.Valid() && f.Valid()
    ensures total.Some? <==> BudgetsPositive(settings, f)
    ensures total.Some? ==> total.value == Sum(CountsOf(settings, f))
  {
    hide MicroBatches, ComputeBudget;
    var counts, world := CountsOf(settings, f), |f.records|;
    var sum := 0;
    for rank := 0 to world
      invariant sum == Sum(counts[..rank])
      invariant forall r :: 0 <= r < rank ==> ComputeBudget(settings, f.records[r], f.telemetry[r]) > 0.0
    {
      if ComputeBudget(settings, f.records[rank], f.telemetry[rank]) <= 0.0 {
        return None;
      }
      assert counts[..rank + 1][..rank] == counts[..rank];
      sum := sum + counts[rank];
    }
    assert counts[..world] == counts;
    total := Some(sum);
  }

  /** `TopologyAwarePlanner` */
  class TopologyAwarePlanner {
    const settings: Settings
    const digests: Digests
    var version: int

    constructor (settings: Settings, digests: Digests)
      requires settings.Valid()
      ensures this.settings == settings && this.digests == digests && version == 0
    {
      this.settings, this.digests, version := settings, digests, 0;
    }

    /** The version is bumped before the plan is validated, and stays bumped. */
    method MakePlan(inputs: Inputs, group: int) returns (r: Result<UpdatePlan, PlanError>)
      requires settings.Valid()
      modifies this`version
      ensures (r, version) == Plan(settings, digests, old(version), inputs, group)
    {
      hide InputError, FactsOf, BudgetsPositive, CountsOf, ValidateUpdatePlan, BuildPlan, AssignWork;
      var bad := InputError(inputs);
      if bad.Some? {
        return Err(bad.value);
      }
      var f := FactsOf(inputs);
      var total := CountSlots(settings, f);
      if total.None? {
        return Err(NoComputeBudget);
      }
      if |inputs.items| != total.value {
        return Err(WorkCountMismatch);
      }
      var ids := AssignWorkLoop(FleetOf(settings, f), inputs.items);
      if ids.Err? {
        return Err(SlotsExhausted);
      }
      version := version + 1;
      var plan := BuildPlan(settings, digests, version, inputs, f, ids.value);
      var verdict := ValidateUpdatePlan(digests, plan, inputs.topology, inputs.items, group);
      r := if verdict.Some? then Err(verdict.value) else Ok(plan);
    }
  }
}

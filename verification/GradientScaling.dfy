/** Heterogeneous micro-batches under DDP: the accumulation planner, the structural
    validator of its plans, the per-rank accumulation loop, and the identity that makes
    the rank average of scaled local losses the mean over all samples.

    A batch is the list of its samples' gradients, in one coordinate; a batch's mean loss
    contributes the mean of them. Arithmetic is over the reals. */
module GradientScaling {
  import opened Arithmetic
  import opened Ordering
  import opened Prelude

  // -------------------------------------------------------------- data model

  datatype RankTelemetry = RankTelemetry(rank: int, samplesPerSecond: real, healthy: bool)

  datatype RankUpdatePlan = RankUpdatePlan(
    rank: int, microBatches: int, samplesPerMicroBatch: int, localSamples: int, lossSumScale: real)

  datatype UpdatePlan = UpdatePlan(
    planVersion: int, targetUpdateMs: real, worldSize: int, globalSamples: int, ranks: seq<RankUpdatePlan>)

  datatype PlanError =
    | NoHealthyRanks | SizesMissing | DivisionByZero
    | InvalidMetadata | GroupSizeDiffers | WrongRankCount | RanksNotContiguous | GlobalSamplesInconsistent
    | EmptyMicroBatch | LocalSamplesDiffer | ScaleIncompatible

  function RankOf(t: RankTelemetry): int {
    t.rank
  }

  function LocalSamples(p: RankUpdatePlan): int {
    p.localSamples
  }

  // ------------------------------------------------------------ the validator

  /** The checks made of one rank entry. */
  function EntryError(e: RankUpdatePlan, expectedScale: real): Option<PlanError> {
    if e.microBatches < 1 || e.samplesPerMicroBatch < 1 then Some(EmptyMicroBatch)
    else if e.localSamples != e.microBatches * e.samplesPerMicroBatch then Some(LocalSamplesDiffer)
    else if Abs(e.lossSumScale - expectedScale) > 0.000000000001 then Some(ScaleIncompatible)
    else None
  }

  function EntriesError(es: seq<RankUpdatePlan>, expectedScale: real): Option<PlanError> {
    if es == [] then None
    else
      var first := EntryError(es[0], expectedScale);
      if first.Some? then first else EntriesError(es[1..], expectedScale)
  }

  /** `validate_plan_structure` in a process group of `group` ranks; None where it does
      not raise. */
  function ValidatePlanStructure(plan: UpdatePlan, group: int): Option<PlanError> {
    if plan.planVersion < 1 || plan.targetUpdateMs <= 0.0 then Some(InvalidMetadata)
    else if plan.worldSize != group then Some(GroupSizeDiffers)
    else if |plan.ranks| != plan.worldSize then Some(WrongRankCount)
    else if exists i :: 0 <= i < |plan.ranks| && plan.ranks[i].rank != i then Some(RanksNotContiguous)
    else if plan.globalSamples != Sum(MapSeq(LocalSamples, plan.ranks)) || plan.globalSamples <= 0 then Some(GlobalSamplesInconsistent)
    else EntriesError(plan.ranks, plan.worldSize as real / plan.globalSamples as real)
  }

  // -------------------------------------------------------------- the planner

  datatype Settings = Settings(targetUpdateMs: real, minMicroBatches: int, maxMicroBatches: int)

  function Healthy(telemetry: seq<RankTelemetry>): (h: seq<RankTelemetry>)
    ensures forall t :: t in h <==> t in telemetry && t.healthy
  {
    if telemetry == [] then []
    else
      assert telemetry == [telemetry[0]] + telemetry[1..];
      (if telemetry[0].healthy then [telemetry[0]] else []) + Healthy(telemetry[1..])
  }

  predicate RankLe(a: RankTelemetry, b: RankTelemetry) {
    a.rank <= b.rank
  }

  /** The healthy records, by rank. */
  function Records(telemetry: seq<RankTelemetry>): seq<RankTelemetry> {
    Sort(Healthy(telemetry), RankLe)
  }

  /** Batches the throughput fills in the target duration. */
  function Capacity(settings: Settings, t: RankTelemetry, size: int): real
    requires size != 0
  {
    t.samplesPerSecond * (settings.targetUpdateMs / 1000.0) / size as real
  }

  function MicroBatches(settings: Settings, t: RankTelemetry, size: int): int
    requires size != 0
  {
    ClampedRound(Capacity(settings, t, size), settings.minMicroBatches, settings.maxMicroBatches)
  }

  /** Every record has a size the throughput can be divided by. */
  predicate Divisible(records: seq<RankTelemetry>, sizes: map<int, int>) {
    forall i :: 0 <= i < |records| ==> records[i].rank in sizes && sizes[records[i].rank] != 0
  }

  function Budgets(settings: Settings, records: seq<RankTelemetry>, sizes: map<int, int>): (ks: seq<int>)
    requires Divisible(records, sizes)
    ensures |ks| == |records|
    ensures forall i :: 0 <= i < |ks| ==> ks[i] == MicroBatches(settings, records[i], sizes[records[i].rank])
  {
    seq(|records|, i requires 0 <= i < |records| => MicroBatches(settings, records[i], sizes[records[i].rank]))
  }

  function SampleCounts(records: seq<RankTelemetry>, ks: seq<int>, sizes: map<int, int>): (ns: seq<int>)
    requires |ks| == |records| && Divisible(records, sizes)
    ensures |ns| == |ks| && forall i :: 0 <= i < |ns| ==> ns[i] == ks[i] * sizes[records[i].rank]
  {
    seq(|ks|, i requires 0 <= i < |ks| => ks[i] * sizes[records[i].rank])
  }

  function Entries(records: seq<RankTelemetry>, ks: seq<int>, sizes: map<int, int>, scale: real): (es: seq<RankUpdatePlan>)
    requires |ks| == |records| && Divisible(records, sizes)
    ensures |es| == |ks|
    ensures forall i :: 0 <= i < |es| ==>
              es[i] == RankUpdatePlan(records[i].rank, ks[i], sizes[records[i].rank], ks[i] * sizes[records[i].rank], scale)
  {
    seq(|ks|, i requires 0 <= i < |ks| =>
      RankUpdatePlan(records[i].rank, ks[i], sizes[records[i].rank], ks[i] * sizes[records[i].rank], scale))
  }

  /** Outcome of `plan`, and the version counter it leaves behind: a zero batch size
      fails before the bump, zero global samples after it. */
  function Plan(settings: Settings, version: int, telemetry: seq<RankTelemetry>, sizes: map<int, int>): (Result<UpdatePlan, PlanError>, int) {
    var records := Records(telemetry);
    if records == [] then (Err(NoHealthyRanks), version)
    else if ToSet(MapSeq(RankOf, records)) != sizes.Keys then (Err(SizesMissing), version)
    else if !Divisible(records, sizes) then (Err(DivisionByZero), version)
    else
      var ks := Budgets(settings, records, sizes);
      var n := Sum(SampleCounts(records, ks, sizes));
      if n == 0 then (Err(DivisionByZero), version + 1)
      else (Ok(UpdatePlan(version + 1, settings.targetUpdateMs, |records|, n,
                          Entries(records, ks, sizes, |records| as real / n as real))), version + 1)
  }

  /** The budget loop of `plan`: slot counts and global samples, unless a size is zero. */
  method BudgetLoop(settings: Settings, records: seq<RankTelemetry>, sizes: map<int, int>) returns (r: Option<(seq<int>, int)>)
    requires ToSet(MapSeq(RankOf, records)) == sizes.Keys
    ensures r.Some? <==> Divisible(records, sizes)
    ensures r.Some? ==> r.value.0 == Budgets(settings, records, sizes) && r.value.1 == Sum(SampleCounts(records, r.value.0, sizes))
  {
    hide MicroBatches, ToSet;
    var ks: seq<int> := [];
    var n := 0;
    for i := 0 to |records|
      invariant Divisible(records[..i], sizes)
      invariant |ks| == i && ks == Budgets(settings, records[..i], sizes)
      invariant n == Sum(SampleCounts(records[..i], ks, sizes))
    {
      var rank := records[i].rank;
      InMapped(records, i);
      if sizes[rank] == 0 {
        return None;
      }
      var k := MicroBatches(settings, records[i], sizes[rank]);
      CountOneMore(records, ks, sizes, i, k);
      ks, n := ks + [k], n + k * sizes[rank];
    }
    assert records[..|records|] == records;
    r := Some((ks, n));
  }

  /** `DynamicAccumulationPlanner` */
  class DynamicAccumulationPlanner {
    const settings: Settings
    var version: int

    constructor (settings: Settings)
      ensures this.settings == settings && version == 0
    {
      this.settings, version := settings, 0;
    }

    method MakePlan(telemetry: seq<RankTelemetry>, sizes: map<int, int>) returns (r: Result<UpdatePlan, PlanError>)
      modifies this`version
      ensures (r, version) == Plan(settings, old(version), telemetry, sizes)
    {
      hide MicroBatches, Divisible, SampleCounts;
      var records := Records(telemetry);
      if records == [] {
        return Err(NoHealthyRanks);
      }
      if ToSet(MapSeq(RankOf, records)) != sizes.Keys {
        return Err(SizesMissing);
      }
      var budgets := BudgetLoop(settings, records, sizes);
      if budgets.None? {
        return Err(DivisionByZero);
      }
      var (ks, n) := budgets.value;
      version := version + 1;
      if n == 0 {
        return Err(DivisionByZero);
      }
      r := Ok(UpdatePlan(version, settings.targetUpdateMs, |records|, n,
                         Entries(records, ks, sizes, |records| as real / n as real)));
    }
  }

  lemma InMapped(records: seq<RankTelemetry>, i: nat)
    requires i < |records|
    ensures records[i].rank in ToSet(MapSeq(RankOf, records))
  {
    assert MapSeq(RankOf, records)[i] == records[i].rank;
  }

  lemma CountOneMore(records: seq<RankTelemetry>, ks: seq<int>, sizes: map<int, int>, i: nat, k: int)
    requires i < |records| && |ks| == i && Divisible(records[..i], sizes)
    requires records[i].rank in sizes && sizes[records[i].rank] != 0
    ensures Divisible(records[..i + 1], sizes)
    ensures Sum(SampleCounts(records[..i + 1], ks + [k], sizes))
            == Sum(SampleCounts(records[..i], ks, sizes)) + k * sizes[records[i].rank]
  {
    var longer := SampleCounts(records[..i + 1], ks + [k], sizes);
    assert longer[..i] == SampleCounts(records[..i], ks, sizes);
  }

  // ------------------------------------------------- the per-rank update loop

  type Batch = seq<real>

  datatype UpdateOutcome =
    | Rejected(error: PlanError)
    | StreamExhausted
    | WrongBatchSize
    | Accumulated(gradient: real, seen: int)

  function MeanLoss(batch: Batch): real
    requires batch != []
  {
    SumReal(batch) / |batch| as real
  }

  predicate NoneEmpty(batches: seq<Batch>) {
    forall i :: 0 <= i < |batches| ==> |batches[i]| > 0
  }

  /** `scaled_loss_from_mean` */
  function ScaledLossFromMean(mean: real, samples: int, e: RankUpdatePlan): real {
    mean * samples as real * e.lossSumScale
  }

  /** Gradient accumulated over `batches`. */
  function LocalGradient(e: RankUpdatePlan, batches: seq<Batch>): real
    requires NoneEmpty(batches)
  {
    if batches == [] then 0.0
    else
      var last := batches[|batches| - 1];
      LocalGradient(e, batches[..|batches| - 1]) + ScaledLossFromMean(MeanLoss(last), |last|, e)
  }

  /** The first `n` batches of a stream are there and have the planned size. */
  predicate Supplies(e: RankUpdatePlan, stream: seq<Batch>, n: int) {
    n <= |stream| && forall i :: 0 <= i < n ==> |stream[i]| == e.samplesPerMicroBatch
  }

  /** The micro-batch loop of one rank. `backwards` records each backward call, true where
      it synchronizes across ranks. */
  method RunMicroBatches(mine: RankUpdatePlan, stream: seq<Batch>) returns (out: UpdateOutcome, backwards: seq<bool>)
    requires mine.microBatches >= 1 && mine.samplesPerMicroBatch >= 1
    requires mine.localSamples == mine.microBatches * mine.samplesPerMicroBatch
    ensures out.Accumulated? <==> Supplies(mine, stream, mine.microBatches)
    ensures out.StreamExhausted? <==> |stream| < mine.microBatches && Supplies(mine, stream, |stream|)
    ensures !out.Rejected?
    ensures out.Accumulated? ==>
              && out.gradient == LocalGradient(mine, stream[..mine.microBatches])
              && out.seen == mine.localSamples
              && backwards == seq(mine.microBatches - 1, i => false) + [true]
    ensures !out.Accumulated? ==> true !in backwards
  {
    hide ScaledLossFromMean, MeanLoss, LocalGradient;
    NothingYet(mine);
    var gradient, seen := 0.0, 0;
    backwards := [];
    for i := 0 to mine.microBatches
      invariant Supplies(mine, stream, i)
      invariant NoneEmpty(stream[..i])
      invariant gradient == LocalGradient(mine, stream[..i])
      invariant seen == i * mine.samplesPerMicroBatch
      invariant backwards == seq(i, j => j == mine.microBatches - 1)
    {
      if i == |stream| {
        return StreamExhausted, backwards;
      }
      var batch := stream[i];
      if |batch| != mine.samplesPerMicroBatch {
        return WrongBatchSize, backwards;
      }
      assert stream[..i + 1] == stream[..i] + [batch];
      OneMoreBatch(mine, stream[..i], batch);
      gradient := gradient + ScaledLossFromMean(MeanLoss(batch), |batch|, mine);
      seen := seen + |batch|;
      backwards := backwards + [i == mine.microBatches - 1];
    }
    out := Accumulated(gradient, seen);
  }

  /** `acvjepa_dynamic_update` on one DDP rank, up to the optimizer step. */
  method AccumulateUpdate(plan: UpdatePlan, group: nat, rank: nat, stream: seq<Batch>)
    returns (out: UpdateOutcome, backwards: seq<bool>)
    requires rank < group
    ensures ValidatePlanStructure(plan, group).Some? ==>
              out == Rejected(ValidatePlanStructure(plan, group).value) && backwards == []
    ensures ValidatePlanStructure(plan, group).None? ==>
              && rank < |plan.ranks|
              && plan.ranks[rank].microBatches >= 1 && plan.ranks[rank].samplesPerMicroBatch >= 1
              && (out.Accumulated? <==> Supplies(plan.ranks[rank], stream, plan.ranks[rank].microBatches))
              && (out.StreamExhausted? <==>
                    |stream| < plan.ranks[rank].microBatches && Supplies(plan.ranks[rank], stream, |stream|))
              && !out.Rejected?
    ensures out.Accumulated? ==>
              && out.gradient == LocalGradient(plan.ranks[rank], stream[..plan.ranks[rank].microBatches])
              && out.seen == plan.ranks[rank].localSamples
              && backwards == seq(plan.ranks[rank].microBatches - 1, i => false) + [true]
    ensures !out.Accumulated? ==> true !in backwards
  {
    var bad := ValidatePlanStructure(plan, group);
    if bad.Some? {
      return Rejected(bad.value), [];
    }
    EntryIsSound(plan, group, rank);
    hide ValidatePlanStructure, LocalGradient;
    out, backwards := RunMicroBatches(plan.ranks[rank], stream);
  }

  lemma NothingYet(e: RankUpdatePlan)
    ensures LocalGradient(e, []) == 0.0
  {
  }

  lemma OneMoreBatch(e: RankUpdatePlan, batches: seq<Batch>, batch: Batch)
    requires NoneEmpty(batches) && batch != []
    ensures NoneEmpty(batches + [batch])
    ensures LocalGradient(e, batches + [batch]) == LocalGradient(e, batches) + ScaledLossFromMean(MeanLoss(batch), |batch|, e)
  {
    assert (batches + [batch])[..|batches|] == batches;
  }

  lemma {:induction false} EntriesPassIff(es: seq<RankUpdatePlan>, scale: real)
    ensures EntriesError(es, scale).None? <==> forall i :: 0 <= i < |es| ==> EntryError(es[i], scale).None?
  {
    hide EntryError;
    if es != [] {
      EntriesPassIff(es[1..], scale);
      assert forall i :: 0 < i < |es| ==> es[i] == es[1..][i - 1];
    }
  }

  lemma EntryIsSound(plan: UpdatePlan, group: nat, rank: nat)
    requires ValidatePlanStructure(plan, group).None? && rank < group
    ensures |plan.ranks| == group
    ensures plan.ranks[rank].microBatches >= 1 && plan.ranks[rank].samplesPerMicroBatch >= 1
    ensures plan.ranks[rank].localSamples == plan.ranks[rank].microBatches * plan.ranks[rank].samplesPerMicroBatch
  {
    EntriesPassIff(plan.ranks, plan.worldSize as real / plan.globalSamples as real);
    assert EntryError(plan.ranks[rank], plan.worldSize as real / plan.globalSamples as real).None?;
  }
}

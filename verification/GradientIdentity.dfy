/** When the rank average of scaled local losses is the mean over all samples, how far a
    tolerated scale can pull it off, and which planner inputs lead to a plan that passes
    the validator. */
module GradientIdentity {
  import opened Arithmetic
  import opened GradientScaling
  import opened Ordering
  import opened Prelude
  import UpdatePlanner
  import UpdatePlannerProofs

  // ---------------------------------------------------- the quantities compared

  /** Every rank's stream supplies exactly its planned micro-batches. */
  ghost predicate Feeds(plan: UpdatePlan, data: seq<seq<Batch>>) {
    && |data| == |plan.ranks|
    && forall r :: 0 <= r < |data| ==> |data[r]| == plan.ranks[r].microBatches && Supplies(plan.ranks[r], data[r], |data[r]|)
  }

  ghost predicate WellFed(plan: UpdatePlan, group: nat, data: seq<seq<Batch>>) {
    ValidatePlanStructure(plan, group).None? && Feeds(plan, data)
  }

  lemma FedIsNonEmpty(plan: UpdatePlan, group: nat, data: seq<seq<Batch>>)
    requires WellFed(plan, group, data)
    ensures |data| == group >= 1 && plan.globalSamples > 0
    ensures forall r :: 0 <= r < |data| ==> NoneEmpty(data[r])
  {
    forall r | 0 <= r < |data| ensures NoneEmpty(data[r]) {
      EntryIsSound(plan, group, r);
    }
  }

  /** Each rank's accumulated gradient. */
  function LocalGradients(plan: UpdatePlan, group: nat, data: seq<seq<Batch>>): (g: seq<real>)
    requires WellFed(plan, group, data)
    ensures |g| == |data|
  {
    FedIsNonEmpty(plan, group, data);
    seq(|data|, r requires 0 <= r < |data| => LocalGradient(plan.ranks[r], data[r]))
  }

  /** DDP averages the ranks' gradients at the synchronized backward. */
  function DdpAverage(plan: UpdatePlan, group: nat, data: seq<seq<Batch>>): real
    requires WellFed(plan, group, data)
  {
    FedIsNonEmpty(plan, group, data);
    SumReal(LocalGradients(plan, group, data)) / group as real
  }

  function RankSamples(data: seq<seq<Batch>>): (s: seq<seq<real>>)
    ensures |s| == |data| && forall r :: 0 <= r < |data| ==> s[r] == Flatten(data[r])
  {
    seq(|data|, r requires 0 <= r < |data| => Flatten(data[r]))
  }

  /** Every sample of the update, over all ranks. */
  function AllSamples(data: seq<seq<Batch>>): seq<real> {
    Flatten(RankSamples(data))
  }

  /** The mean gradient of all samples: what one process with one big batch computes. */
  function GlobalMean(data: seq<seq<Batch>>): real
    requires AllSamples(data) != []
  {
    SumReal(AllSamples(data)) / |AllSamples(data)| as real
  }

  // ------------------------------------------------------------ sample counting

  lemma {:induction false} RankSampleCount(batches: seq<Batch>, size: int)
    requires forall i :: 0 <= i < |batches| ==> |batches[i]| == size
    ensures |Flatten(batches)| == |batches| * size
  {
    if batches != [] { RankSampleCount(batches[1..], size); }
  }

  function Sizes(xss: seq<seq<real>>): (ns: seq<int>)
    ensures |ns| == |xss| && forall i :: 0 <= i < |ns| ==> ns[i] == |xss[i]|
  {
    seq(|xss|, i requires 0 <= i < |xss| => |xss[i]|)
  }

  lemma {:induction false} FlattenLength(xss: seq<seq<real>>)
    ensures |Flatten(xss)| == Sum(Sizes(xss))
  {
    if xss != [] {
      var last := |xss| - 1;
      FlattenLength(xss[..last]);
      FlattenSnoc(xss[..last], xss[last]);
      assert xss == xss[..last] + [xss[last]] && Sizes(xss)[..last] == Sizes(xss[..last]);
    }
  }

  /** The update sees exactly the planned number of samples, so the final all-reduced
      count always agrees with the plan. */
  lemma GlobalCountAgrees(plan: UpdatePlan, group: nat, data: seq<seq<Batch>>)
    requires WellFed(plan, group, data)
    ensures |AllSamples(data)| == plan.globalSamples > 0
  {
    FlattenLength(RankSamples(data));
    var planned := MapSeq(LocalSamples, plan.ranks);
    assert |data| == group && |plan.ranks| == group;
    forall r | 0 <= r < |data| ensures Sizes(RankSamples(data))[r] == planned[r] {
      EntryIsSound(plan, group, r);
      RankSampleCount(data[r], plan.ranks[r].samplesPerMicroBatch);
    }
    assert Sizes(RankSamples(data)) == planned;
  }

  // ----------------------------------------------------------- sums of gradients

  function Times(c: real, x: real): real {
    c * x
  }

  lemma TimesDistributes(c: real, a: real, b: real)
    ensures Times(c, a + b) == Times(c, a) + Times(c, b)
  {
  }

  lemma ScaledMean(e: RankUpdatePlan, batch: Batch)
    requires batch != []
    ensures ScaledLossFromMean(MeanLoss(batch), |batch|, e) == Times(e.lossSumScale, SumReal(batch))
  {
    hide SumReal;
    assert (SumReal(batch) / |batch| as real) * |batch| as real == SumReal(batch);
  }

  /** Scaling each batch's mean by its sample count undoes the mean. */
  lemma {:induction false} LocalGradientIsScaledSum(e: RankUpdatePlan, batches: seq<Batch>)
    requires NoneEmpty(batches)
    ensures LocalGradient(e, batches) == Times(e.lossSumScale, SumReal(Flatten(batches)))
  {
    if batches == [] {
      assert SumReal([]) == 0.0;
    } else {
      hide ScaledLossFromMean, MeanLoss, SumReal, Flatten, Times;
      var shorter, last := batches[..|batches| - 1], batches[|batches| - 1];
      LocalGradientIsScaledSum(e, shorter);
      ScaledMean(e, last);
      assert batches == shorter + [last];
      FlattenSnoc(shorter, last);
      SumAppend(Flatten(shorter), last);
      TimesDistributes(e.lossSumScale, SumReal(Flatten(shorter)), SumReal(last));
    }
  }

  function Totals(data: seq<seq<Batch>>): (t: seq<real>)
    ensures |t| == |data| && forall r :: 0 <= r < |t| ==> t[r] == SumReal(Flatten(data[r]))
  {
    seq(|data|, r requires 0 <= r < |data| => SumReal(Flatten(data[r])))
  }

  function Magnitudes(xs: seq<real>): (ms: seq<real>)
    ensures |ms| == |xs| && forall i :: 0 <= i < |xs| ==> ms[i] == Abs(xs[i])
  {
    seq(|xs|, i requires 0 <= i < |xs| => Abs(xs[i]))
  }

  lemma {:induction false} TotalsAddUp(data: seq<seq<Batch>>)
    ensures SumReal(Totals(data)) == SumReal(AllSamples(data))
  {
    if data != [] {
      var shorter, last := data[..|data| - 1], data[|data| - 1];
      TotalsAddUp(shorter);
      assert RankSamples(data) == RankSamples(shorter) + [Flatten(last)];
      FlattenSnoc(RankSamples(shorter), Flatten(last));
      SumAppend(AllSamples(shorter), Flatten(last));
      assert Totals(data)[..|data| - 1] == Totals(shorter);
    }
  }

  /** `x` is `c` times `y`, up to `eps` times `m`. */
  predicate NearScaled(x: real, c: real, y: real, eps: real, m: real) {
    Abs(x - c * y) <= eps * m
  }

  /** Scaling each term by within `eps` of `c` moves the sum by at most `eps` times the
      sum of magnitudes. */
  lemma {:induction false} NearlyScaledSum(xs: seq<real>, ys: seq<real>, c: real, eps: real)
    requires |xs| == |ys| && forall i :: 0 <= i < |xs| ==> NearScaled(xs[i], c, ys[i], eps, Abs(ys[i]))
    ensures NearScaled(SumReal(xs), c, SumReal(ys), eps, SumReal(Magnitudes(ys)))
  {
    if xs == [] {
      assert Magnitudes(ys) == [];
    } else {
      hide Abs, NearScaled;
      var last := |xs| - 1;
      NearlyScaledSum(xs[..last], ys[..last], c, eps);
      assert Magnitudes(ys)[..last] == Magnitudes(ys[..last]);
      AddNearly(SumReal(xs[..last]), SumReal(ys[..last]), SumReal(Magnitudes(ys[..last])), xs[last], ys[last], Abs(ys[last]), c, eps);
    }
  }

  lemma AddNearly(a: real, b: real, m: real, x: real, y: real, n: real, c: real, eps: real)
    requires NearScaled(a, c, b, eps, m) && NearScaled(x, c, y, eps, n)
    ensures NearScaled(a + x, c, b + y, eps, m + n)
  {
    assert c * (b + y) == c * b + c * y && eps * (m + n) == eps * m + eps * n;
  }

  ghost predicate ScalesWithin(plan: UpdatePlan, eps: real)
    requires plan.globalSamples > 0
  {
    forall r :: 0 <= r < |plan.ranks| ==>
      Abs(plan.ranks[r].lossSumScale - plan.worldSize as real / plan.globalSamples as real) <= eps
  }

  lemma LocalNearlyScaled(e: RankUpdatePlan, batches: seq<Batch>, c: real, eps: real)
    requires NoneEmpty(batches) && Abs(e.lossSumScale - c) <= eps
    ensures NearScaled(LocalGradient(e, batches), c, SumReal(Flatten(batches)), eps, Abs(SumReal(Flatten(batches))))
  {
    hide LocalGradient, SumReal, Flatten, Abs, NearScaled;
    LocalGradientIsScaledSum(e, batches);
    ScaleNearly(LocalGradient(e, batches), e.lossSumScale, SumReal(Flatten(batches)), c, eps);
  }

  lemma ScaleNearly(x: real, s: real, t: real, c: real, eps: real)
    requires x == Times(s, t) && Abs(s - c) <= eps
    ensures NearScaled(x, c, t, eps, Abs(t))
  {
    var d := s - c;
    assert x - c * t == d * t;
    if t >= 0.0 {
      MultiplyMonotone(d, eps, t);
      MultiplyMonotone(-eps, d, t);
    } else {
      MultiplyMonotone(d, eps, -t);
      MultiplyMonotone(-eps, d, -t);
    }
  }

  lemma MultiplyMonotone(a: real, b: real, t: real)
    requires a <= b && t >= 0.0
    ensures a * t <= b * t
  {
    assert (b - a) * t >= 0.0;
  }

  /** The average is off the true mean by at most the scale error times the mean
      magnitude of the ranks' total gradients. */
  lemma AverageNearMean(plan: UpdatePlan, group: nat, data: seq<seq<Batch>>, eps: real)
    requires WellFed(plan, group, data) && plan.globalSamples > 0 && ScalesWithin(plan, eps)
    ensures group > 0 && AllSamples(data) != []
    ensures Abs(DdpAverage(plan, group, data) - GlobalMean(data)) <= eps * SumReal(Magnitudes(Totals(data))) / group as real
  {
    hide LocalGradient, AllSamples, ValidatePlanStructure, Supplies, SumReal, NearScaled;
    FedIsNonEmpty(plan, group, data);
    GlobalCountAgrees(plan, group, data);
    TotalsAddUp(data);
    WorldIsGroup(plan, group);
    var c := plan.worldSize as real / plan.globalSamples as real;
    var locals := LocalGradients(plan, group, data);
    forall r | 0 <= r < |locals| ensures NearScaled(locals[r], c, Totals(data)[r], eps, Abs(Totals(data)[r])) {
      LocalNearlyScaled(plan.ranks[r], data[r], c, eps);
    }
    NearlyScaledSum(locals, Totals(data), c, eps);
    DivideByWorld(SumReal(locals), SumReal(Totals(data)), group as real, plan.globalSamples as real, eps, SumReal(Magnitudes(Totals(data))));
  }

  lemma WorldIsGroup(plan: UpdatePlan, group: nat)
    requires ValidatePlanStructure(plan, group).None?
    ensures plan.worldSize == group == |plan.ranks|
  {
  }

  lemma DivideByWorld(a: real, b: real, w: real, n: real, eps: real, m: real)
    requires w > 0.0 && n > 0.0 && NearScaled(a, w / n, b, eps, m)
    ensures Abs(a / w - b / n) <= eps * m / w
  {
    assert ((w / n) * b) / w == b / n;
    var d, bound := a - (w / n) * b, eps * m;
    assert a / w - b / n == d / w;
    assert bound / w - d / w == (bound - d) / w >= 0.0;
    assert bound / w + d / w == (bound + d) / w >= 0.0;
  }

  // ------------------------------------------------------- exactness, iff

  ghost predicate ExactScales(plan: UpdatePlan)
    requires plan.globalSamples > 0
  {
    forall r :: 0 <= r < |plan.ranks| ==> plan.ranks[r].lossSumScale == plan.worldSize as real / plan.globalSamples as real
  }

  /** With exact scales the rank average is the true global mean, whatever the ranks'
      micro-batch counts and sizes. */
  lemma ExactScalesGiveGlobalMean(plan: UpdatePlan, group: nat, data: seq<seq<Batch>>)
    requires WellFed(plan, group, data) && plan.globalSamples > 0 && ExactScales(plan)
    ensures AllSamples(data) != [] && DdpAverage(plan, group, data) == GlobalMean(data)
  {
    hide ValidatePlanStructure, LocalGradients, SumReal;
    AverageNearMean(plan, group, data, 0.0);
    FedIsNonEmpty(plan, group, data);
    assert 0.0 * SumReal(Magnitudes(Totals(data))) / group as real == 0.0;
  }

  /** The validator's tolerance of 1e-12 bounds the error. */
  lemma ToleratedScalesStayClose(plan: UpdatePlan, group: nat, data: seq<seq<Batch>>)
    requires WellFed(plan, group, data)
    ensures group > 0 && AllSamples(data) != []
    ensures Abs(DdpAverage(plan, group, data) - GlobalMean(data))
            <= 0.000000000001 * SumReal(Magnitudes(Totals(data))) / group as real
  {
    ValidScalesAreWithinTolerance(plan, group);
    hide ValidatePlanStructure, Feeds, SumReal;
    AverageNearMean(plan, group, data, 0.000000000001);
  }

  lemma ValidScalesAreWithinTolerance(plan: UpdatePlan, group: nat)
    requires ValidatePlanStructure(plan, group).None?
    ensures plan.globalSamples > 0 && ScalesWithin(plan, 0.000000000001)
  {
    EntriesPassIff(plan.ranks, plan.worldSize as real / plan.globalSamples as real);
  }

  /** Gradient 1 on every sample of rank `q`, 0 elsewhere. */
  function OneRank(plan: UpdatePlan, group: nat, q: nat): (data: seq<seq<Batch>>)
    requires ValidatePlanStructure(plan, group).None?
    ensures Feeds(plan, data)
    ensures forall r :: 0 <= r < |data| ==> forall i :: 0 <= i < |data[r]| ==>
              forall j :: 0 <= j < |data[r][i]| ==> data[r][i][j] == if r == q then 1.0 else 0.0
  {
    assert forall r :: 0 <= r < |plan.ranks| ==> plan.ranks[r].microBatches >= 1 && plan.ranks[r].samplesPerMicroBatch >= 1 by {
      forall r | 0 <= r < |plan.ranks| ensures plan.ranks[r].microBatches >= 1 && plan.ranks[r].samplesPerMicroBatch >= 1 {
        EntryIsSound(plan, group, r);
      }
    }
    seq(|plan.ranks|, r requires 0 <= r < |plan.ranks| =>
      Stream(plan.ranks[r].microBatches, plan.ranks[r].samplesPerMicroBatch, if r == q then 1.0 else 0.0))
  }

  function Stream(n: nat, size: nat, g: real): (batches: seq<Batch>)
    ensures |batches| == n && forall i :: 0 <= i < n ==> |batches[i]| == size && forall j :: 0 <= j < size ==> batches[i][j] == g
  {
    seq(n, i => seq(size, j => g))
  }

  lemma {:induction false} ConstantSum(xs: seq<real>, g: real)
    requires forall i :: 0 <= i < |xs| ==> xs[i] == g
    ensures SumReal(xs) == |xs| as real * g
  {
    if xs != [] { ConstantSum(xs[..|xs| - 1], g); }
  }

  lemma {:induction false} FlattenConstant(batches: seq<Batch>, g: real)
    requires forall i :: 0 <= i < |batches| ==> forall j :: 0 <= j < |batches[i]| ==> batches[i][j] == g
    ensures forall j :: 0 <= j < |Flatten(batches)| ==> Flatten(batches)[j] == g
  {
    if batches != [] { FlattenConstant(batches[1..], g); }
  }

  lemma {:induction false} SingleTerm(xs: seq<real>, q: nat)
    requires q < |xs| && forall r :: 0 <= r < |xs| && r != q ==> xs[r] == 0.0
    ensures SumReal(xs) == xs[q]
  {
    var last := |xs| - 1;
    if q == last {
      ConstantSum(xs[..last], 0.0);
    } else {
      SingleTerm(xs[..last], q);
    }
  }

  /** On the gradients of `OneRank`, average and mean agree only if rank `q`'s scale is
      exact. */
  lemma OneRankNeedsExactScale(plan: UpdatePlan, group: nat, q: nat, data: seq<seq<Batch>>)
    requires WellFed(plan, group, data) && q < group && data == OneRank(plan, group, q)
    ensures AllSamples(data) != [] && q < |plan.ranks| && plan.globalSamples > 0
    ensures DdpAverage(plan, group, data) == GlobalMean(data)
            ==> plan.ranks[q].lossSumScale == plan.worldSize as real / plan.globalSamples as real
  {
    hide ValidatePlanStructure, OneRank, LocalGradient, AllSamples, SumReal, Flatten, Feeds;
    WorldIsGroup(plan, group);
    FedIsNonEmpty(plan, group, data);
    GlobalCountAgrees(plan, group, data);
    TotalsAddUp(data);
    EntryIsSound(plan, group, q);
    var e := plan.ranks[q];
    var locals := LocalGradients(plan, group, data);
    forall r | 0 <= r < |data|
      ensures Totals(data)[r] == (if r == q then e.localSamples as real else 0.0)
      ensures locals[r] == (if r == q then e.lossSumScale * e.localSamples as real else 0.0)
    {
      OneRankTotals(plan, group, data, q, r);
      LocalGradientIsScaledSum(plan.ranks[r], data[r]);
    }
    SingleTerm(Totals(data), q);
    SingleTerm(locals, q);
    SampleCountPositive(e);
    CancelSamples(e.lossSumScale, e.localSamples as real, group as real, plan.globalSamples as real);
  }

  lemma ConstantStreamTotal(batches: seq<Batch>, size: int, g: real)
    requires forall i :: 0 <= i < |batches| ==> |batches[i]| == size && forall j :: 0 <= j < |batches[i]| ==> batches[i][j] == g
    ensures SumReal(Flatten(batches)) == (|batches| * size) as real * g
  {
    hide Flatten, SumReal;
    RankSampleCount(batches, size);
    FlattenConstant(batches, g);
    ConstantSum(Flatten(batches), g);
  }

  lemma OneRankTotals(plan: UpdatePlan, group: nat, data: seq<seq<Batch>>, q: nat, r: nat)
    requires WellFed(plan, group, data) && r < |data|
    requires forall i :: 0 <= i < |data[r]| ==> forall j :: 0 <= j < |data[r][i]| ==> data[r][i][j] == if r == q then 1.0 else 0.0
    ensures SumReal(Flatten(data[r])) == if r == q then plan.ranks[r].localSamples as real else 0.0
  {
    FedRank(plan, data, r);
    assert r < group by { FedIsNonEmpty(plan, group, data); }
    EntryIsSound(plan, group, r);
    var e, batches := plan.ranks[r], data[r];
    hide *;
    ConstantStreamTotal(batches, e.samplesPerMicroBatch, if r == q then 1.0 else 0.0);
  }

  lemma FedRank(plan: UpdatePlan, data: seq<seq<Batch>>, r: nat)
    requires Feeds(plan, data) && r < |data|
    ensures |data[r]| == plan.ranks[r].microBatches
    ensures forall i :: 0 <= i < |data[r]| ==> |data[r][i]| == plan.ranks[r].samplesPerMicroBatch
  {
    assert Supplies(plan.ranks[r], data[r], |data[r]|);
  }

  lemma SampleCountPositive(e: RankUpdatePlan)
    requires e.microBatches >= 1 && e.samplesPerMicroBatch >= 1 && e.localSamples == e.microBatches * e.samplesPerMicroBatch
    ensures e.localSamples > 0
  {
  }

  lemma CancelSamples(scale: real, m: real, w: real, n: real)
    requires m > 0.0 && w > 0.0 && n > 0.0
    ensures (scale * m) / w == m / n ==> scale == w / n
  {
    if (scale * m) / w == m / n {
      assert scale * m == w * (m / n) == (w / n) * m;
      assert (scale - w / n) * m == 0.0;
    }
  }

  /** The loss scaling is right for every gradient exactly when every rank's scale is
      world size over global samples. */
  lemma ScalingIsExactIff(plan: UpdatePlan, group: nat)
    requires ValidatePlanStructure(plan, group).None?
    ensures plan.globalSamples > 0
    ensures ExactScales(plan) <==>
            forall data :: WellFed(plan, group, data) ==> AllSamples(data) != [] && DdpAverage(plan, group, data) == GlobalMean(data)
  {
    if ExactScales(plan) {
      forall data | WellFed(plan, group, data)
        ensures AllSamples(data) != [] && DdpAverage(plan, group, data) == GlobalMean(data)
      {
        ExactScalesGiveGlobalMean(plan, group, data);
      }
    }
    if forall data :: WellFed(plan, group, data) ==> AllSamples(data) != [] && DdpAverage(plan, group, data) == GlobalMean(data) {
      forall r | 0 <= r < |plan.ranks|
        ensures plan.ranks[r].lossSumScale == plan.worldSize as real / plan.globalSamples as real
      {
        assert WellFed(plan, group, OneRank(plan, group, r));
        OneRankNeedsExactScale(plan, group, r, OneRank(plan, group, r));
      }
    }
  }

  // ------------------------------------------------ which inputs give a valid plan

  function Range(n: nat): (r: seq<int>)
    ensures |r| == n && forall i :: 0 <= i < n ==> r[i] == i
  {
    seq(n, i => i)
  }

  predicate IntLe(a: int, b: int) {
    a <= b
  }

  /** The healthy ranks are 0..group-1, in whatever order they were reported. */
  ghost predicate RanksComplete(telemetry: seq<RankTelemetry>, group: nat) {
    multiset(MapSeq(RankOf, Healthy(telemetry))) == multiset(Range(group))
  }

  lemma SortedRanksAreRangeIff(telemetry: seq<RankTelemetry>, group: nat)
    ensures RanksComplete(telemetry, group) <==> MapSeq(RankOf, Records(telemetry)) == Range(group)
  {
    var records := Records(telemetry);
    MapPermutes(RankOf, records, Healthy(telemetry));
    if RanksComplete(telemetry, group) {
      SortSorts(Healthy(telemetry), RankLe);
      var ranks := MapSeq(RankOf, records);
      assert SortedBy(ranks, IntLe) by {
        forall i, j | 0 <= i < j < |ranks| ensures IntLe(ranks[i], ranks[j]) {
          assert RankLe(records[i], records[j]);
        }
      }
      SortedUnique(ranks, Range(group), IntLe);
    }
  }

  /** Micro-batch counts and sizes a plan can use. */
  predicate Usable(settings: Settings, telemetry: seq<RankTelemetry>, sizes: map<int, int>) {
    forall t :: t in telemetry && t.healthy ==>
      t.rank in sizes && sizes[t.rank] >= 1 && MicroBatches(settings, t, sizes[t.rank]) >= 1
  }

  lemma RecordsAreTheHealthy(telemetry: seq<RankTelemetry>)
    ensures forall t :: t in Records(telemetry) <==> t in telemetry && t.healthy
  {
    forall t ensures t in Records(telemetry) <==> t in telemetry && t.healthy {
      assert t in multiset(Records(telemetry)) <==> t in multiset(Healthy(telemetry));
    }
  }

  lemma UsableRecords(settings: Settings, telemetry: seq<RankTelemetry>, sizes: map<int, int>)
    ensures Usable(settings, telemetry, sizes) <==>
            && Divisible(Records(telemetry), sizes)
            && forall i :: 0 <= i < |Records(telemetry)| ==>
                 sizes[Records(telemetry)[i].rank] >= 1 && Budgets(settings, Records(telemetry), sizes)[i] >= 1
  {
    RecordsAreTheHealthy(telemetry);
    hide MicroBatches, Records;
    var records := Records(telemetry);
    if Usable(settings, telemetry, sizes) {
      assert forall i :: 0 <= i < |records| ==> records[i] in telemetry && records[i].healthy;
    } else {
      var t :| t in telemetry && t.healthy
               && !(t.rank in sizes && sizes[t.rank] >= 1 && MicroBatches(settings, t, sizes[t.rank]) >= 1);
      assert t in records;
      var i :| 0 <= i < |records| && records[i] == t;
    }
  }

  /** The plan `plan` assembles from records it can divide by. */
  lemma AssembledPlanPassesIff(settings: Settings, version: int, records: seq<RankTelemetry>, sizes: map<int, int>, n: int, group: nat)
    requires version >= 1 && group >= 1 && Divisible(records, sizes)
    requires n == Sum(SampleCounts(records, Budgets(settings, records, sizes), sizes)) && n != 0
    ensures var ks := Budgets(settings, records, sizes);
            ValidatePlanStructure(UpdatePlan(version, settings.targetUpdateMs, |records|, n,
                                             Entries(records, ks, sizes, |records| as real / n as real)), group).None?
            <==> settings.targetUpdateMs > 0.0 && MapSeq(RankOf, records) == Range(group)
                 && n > 0 && forall i :: 0 <= i < |records| ==> sizes[records[i].rank] >= 1 && ks[i] >= 1
  {
    hide MicroBatches;
    var ks := Budgets(settings, records, sizes);
    var scale := |records| as real / n as real;
    var entries := Entries(records, ks, sizes, scale);
    assert MapSeq(LocalSamples, entries) == SampleCounts(records, ks, sizes);
    EntriesPassIff(entries, scale);
    forall i | 0 <= i < |records| ensures EntryError(entries[i], scale).None? <==> sizes[records[i].rank] >= 1 && ks[i] >= 1 {
    }
    hide EntryError, Budgets;
    if |records| == group {
      assert MapSeq(RankOf, records) == Range(group) <==> forall i :: 0 <= i < |entries| ==> entries[i].rank == i;
    }
  }

  /** Exactly which inputs give a plan that passes the structural validator: a positive
      target, the healthy ranks being 0..group-1 each reported once, a size for each of
      them and no others, and at least one sample and one micro-batch per rank. */
  lemma PlannerPassesIff(settings: Settings, version: int, telemetry: seq<RankTelemetry>, sizes: map<int, int>, group: nat)
    requires version >= 0 && group >= 1
    ensures (Plan(settings, version, telemetry, sizes).0.Ok?
             && ValidatePlanStructure(Plan(settings, version, telemetry, sizes).0.value, group).None?)
            <==> settings.targetUpdateMs > 0.0 && RanksComplete(telemetry, group)
                 && sizes.Keys == ToSet(Range(group)) && Usable(settings, telemetry, sizes)
  {
    var records := Records(telemetry);
    SortedRanksAreRangeIff(telemetry, group);
    UsableRecords(settings, telemetry, sizes);
    hide Records, MicroBatches, Usable, RanksComplete, ValidatePlanStructure;
    if Divisible(records, sizes) {
      var ks := Budgets(settings, records, sizes);
      var n := Sum(SampleCounts(records, ks, sizes));
      if n != 0 { AssembledPlanPassesIff(settings, version + 1, records, sizes, n, group); }
      if records != [] && forall i :: 0 <= i < |records| ==> sizes[records[i].rank] >= 1 && ks[i] >= 1 {
        SamplesArePositive(records, ks, sizes);
      }
    }
  }

  lemma SamplesArePositive(records: seq<RankTelemetry>, ks: seq<int>, sizes: map<int, int>)
    requires |ks| == |records| > 0 && Divisible(records, sizes)
    requires forall i :: 0 <= i < |records| ==> sizes[records[i].rank] >= 1 && ks[i] >= 1
    ensures Sum(SampleCounts(records, ks, sizes)) > 0
  {
    SumPositive(SampleCounts(records, ks, sizes));
  }

  // ------------------------------------ topology-aware plans drive the same loop

  /** `as_legacy_ddp_plan` */
  function AsLegacy(plan: UpdatePlanner.UpdatePlan): (l: UpdatePlan)
    ensures |l.ranks| == |plan.ranks|
  {
    UpdatePlan(plan.planVersion, plan.targetUpdateMs, plan.worldSize, plan.globalSamples,
               seq(|plan.ranks|, r requires 0 <= r < |plan.ranks| =>
                 RankUpdatePlan(plan.ranks[r].rank, plan.ranks[r].microBatches, plan.ranks[r].samplesPerMicroBatch,
                                plan.ranks[r].localSamples, plan.ranks[r].lossSumScale)))
  }

  /** The topology-aware validator leaves two things open that the update loop's own
      validator checks: the target duration and the batch sizes. */
  lemma LegacyPlanPassesIff(digests: UpdatePlanner.Digests, plan: UpdatePlanner.UpdatePlan, topology: UpdatePlanner.Topology,
                            items: seq<UpdatePlanner.WorkItem>, group: nat)
    requires UpdatePlanner.ValidateUpdatePlan(digests, plan, topology, items, group).None?
    ensures ValidatePlanStructure(AsLegacy(plan), group).None?
            <==> plan.targetUpdateMs > 0.0 && forall r :: 0 <= r < |plan.ranks| ==> plan.ranks[r].samplesPerMicroBatch >= 1
  {
    UpdatePlannerProofs.ValidPlanMeaning(digests, plan, topology, items, group);
    ValidPlanHeader(digests, plan, topology, items, group);
    hide UpdatePlanner.ValidateUpdatePlan;
    var l := AsLegacy(plan);
    assert MapSeq(LocalSamples, l.ranks) == MapSeq(UpdatePlanner.LocalSamples, plan.ranks);
    var scale := l.worldSize as real / l.globalSamples as real;
    EntriesPassIff(l.ranks, scale);
    forall r | 0 <= r < |l.ranks| ensures EntryError(l.ranks[r], scale).None? <==> plan.ranks[r].samplesPerMicroBatch >= 1 {
    }
  }

  lemma ValidPlanHeader(digests: UpdatePlanner.Digests, plan: UpdatePlanner.UpdatePlan, topology: UpdatePlanner.Topology,
                        items: seq<UpdatePlanner.WorkItem>, group: nat)
    requires UpdatePlanner.ValidateUpdatePlan(digests, plan, topology, items, group).None?
    ensures plan.planVersion >= 1 && forall r :: 0 <= r < |plan.ranks| ==> plan.ranks[r].rank == r
  {
  }

  /** Every plan the topology-aware planner returns is accepted by the update loop and
      gives the true global mean gradient. */
  lemma TopologyPlansTrainExactly(settings: UpdatePlanner.Settings, digests: UpdatePlanner.Digests, version: int,
                                  inputs: UpdatePlanner.Inputs, group: nat, plan: UpdatePlanner.UpdatePlan, data: seq<seq<Batch>>)
    requires settings.Valid() && version >= 0
    requires UpdatePlanner.Plan(settings, digests, version, inputs, group).0 == Result.Ok(plan)
    requires Feeds(AsLegacy(plan), data)
    ensures WellFed(AsLegacy(plan), group, data) && AllSamples(data) != []
    ensures DdpAverage(AsLegacy(plan), group, data) == GlobalMean(data)
  {
    UpdatePlannerProofs.ReturnedPlansAreExact(settings, digests, version, inputs, group, plan);
    UpdatePlannerProofs.ReturnedPlanFields(settings, digests, version, inputs, group, plan);
    hide UpdatePlanner.Plan, UpdatePlanner.ValidateUpdatePlan, DdpAverage, GlobalMean, AllSamples;
    LegacyPlanPassesIff(digests, plan, inputs.topology, inputs.items, group);
    ExactScalesGiveGlobalMean(AsLegacy(plan), group, data);
  }
}

/** What the planner guarantees for every input: its greedy assignment is exact and
    balanced, and the plan it builds always satisfies the independent validator. */
module UpdatePlannerProofs {
  import opened Prelude
  import opened Ordering
  import opened Arithmetic
  import opened UpdatePlanner

  // ----------------------------------------------------- slots and capacity

  function Lengths(lists: seq<seq<WorkItem>>): (ns: seq<int>)
    ensures |ns| == |lists| && forall r :: 0 <= r < |lists| ==> ns[r] == |lists[r]|
  {
    seq(|lists|, r requires 0 <= r < |lists| => |lists[r]|)
  }

  ghost predicate FitsCaps(fleet: Fleet, lists: seq<seq<WorkItem>>)
    requires fleet.Valid()
  {
    |lists| == |fleet.caps| && forall r :: 0 <= r < |lists| ==> |lists[r]| <= fleet.caps[r]
  }

  ghost predicate CapsNonNegative(fleet: Fleet) {
    forall r :: 0 <= r < |fleet.caps| ==> fleet.caps[r] >= 0
  }

  /** One step of the loop: the lists before it, and the rank it places the item on. */
  lemma GreedyStep(fleet: Fleet, items: seq<WorkItem>) returns (before: seq<seq<WorkItem>>, d: nat)
    requires fleet.Valid() && items != [] && Greedy(fleet, items).Some?
    ensures Greedy(fleet, items[..|items| - 1]) == Some(before) && |before| == |fleet.ranks|
    ensures d < |before| && HasSlot(fleet, before, d) && IsBest(fleet, before, items[|items| - 1], d, |before|)
    ensures Greedy(fleet, items) == Some(Placed(before, d, items[|items| - 1]))
  {
    before := Greedy(fleet, items[..|items| - 1]).value;
    d := Destination(fleet, before, items[|items| - 1], |before|).value;
  }

  function Placed(lists: seq<seq<WorkItem>>, d: nat, item: WorkItem): (after: seq<seq<WorkItem>>)
    requires d < |lists|
    ensures |after| == |lists|
  {
    lists[d := lists[d] + [item]]
  }

  lemma PlacedFits(fleet: Fleet, lists: seq<seq<WorkItem>>, d: nat, item: WorkItem)
    requires fleet.Valid() && FitsCaps(fleet, lists) && |lists| == |fleet.ranks|
    requires d < |lists| && HasSlot(fleet, lists, d)
    ensures FitsCaps(fleet, Placed(lists, d, item))
    ensures Sum(Lengths(Placed(lists, d, item))) == Sum(Lengths(lists)) + 1
  {
    SumUpdate(Lengths(lists), d, |lists[d]| + 1);
    assert Lengths(Placed(lists, d, item)) == Lengths(lists)[d := |lists[d]| + 1];
  }

  lemma {:induction false} GreedyFits(fleet: Fleet, items: seq<WorkItem>)
    requires fleet.Valid() && CapsNonNegative(fleet) && Greedy(fleet, items).Some?
    ensures FitsCaps(fleet, Greedy(fleet, items).value)
    ensures Sum(Lengths(Greedy(fleet, items).value)) == |items|
  {
    hide IsBest, HasSlot, Destination, Lengths;
    if items == [] {
      SumZero(Lengths(NoWork(|fleet.ranks|)));
    } else {
      GreedyFits(fleet, items[..|items| - 1]);
      var before, d := GreedyStep(fleet, items);
      PlacedFits(fleet, before, d, items[|items| - 1]);
    }
  }

  /** Only full ranks turn an item away. */
  lemma StuckIsFull(fleet: Fleet, items: seq<WorkItem>, item: WorkItem)
    requires fleet.Valid() && CapsNonNegative(fleet) && Greedy(fleet, items).Some?
    requires Destination(fleet, Greedy(fleet, items).value, item, |fleet.ranks|).None?
    ensures |items| == Sum(fleet.caps)
  {
    var lists := Greedy(fleet, items).value;
    GreedyFits(fleet, items);
    forall r | 0 <= r < |lists| ensures Lengths(lists)[r] == fleet.caps[r] {
      assert !HasSlot(fleet, lists, r);
    }
    assert Lengths(lists) == fleet.caps;
  }

  /** The "exhausted all slots" assertion fires exactly when there are more items than
      slots. */
  lemma {:induction false} SlotsSufficeIff(fleet: Fleet, items: seq<WorkItem>)
    requires fleet.Valid() && CapsNonNegative(fleet)
    ensures Greedy(fleet, items).Some? <==> |items| <= Sum(fleet.caps)
  {
    hide Destination, IsBest, HasSlot;
    if Greedy(fleet, items).Some? {
      GreedyFits(fleet, items);
      SumBelow(Lengths(Greedy(fleet, items).value), fleet.caps);
    } else if |items| <= Sum(fleet.caps) {
      var shorter := items[..|items| - 1];
      SlotsSufficeIff(fleet, shorter);
      StuckIsFull(fleet, shorter, items[|items| - 1]);
      assert false;
    }
  }

  /** As many items as slots: every rank receives exactly its planned count. */
  lemma EveryRankGetsItsCount(fleet: Fleet, items: seq<WorkItem>)
    requires fleet.Valid() && CapsNonNegative(fleet) && |items| == Sum(fleet.caps)
    ensures Greedy(fleet, items).Some? && Lengths(Greedy(fleet, items).value) == fleet.caps
  {
    SlotsSufficeIff(fleet, items);
    GreedyFits(fleet, items);
    SumBelow(Lengths(Greedy(fleet, items).value), fleet.caps);
  }

  // ------------------------------------------- every item goes to one rank

  lemma {:induction false} FlattenPlaced(lists: seq<seq<WorkItem>>, d: nat, item: WorkItem)
    requires d < |lists|
    ensures multiset(Flatten(Placed(lists, d, item))) == multiset(Flatten(lists)) + multiset{item}
  {
    if d == 0 {
      assert Placed(lists, d, item)[1..] == lists[1..];
    } else {
      FlattenPlaced(lists[1..], d - 1, item);
      assert Placed(lists, d, item)[1..] == Placed(lists[1..], d - 1, item);
    }
  }

  lemma {:induction false} FlattenOfNothing(n: nat)
    ensures Flatten(NoWork(n)) == []
  {
    if n > 0 {
      FlattenOfNothing(n - 1);
      assert NoWork(n)[1..] == NoWork(n - 1);
    }
  }

  /** No item is lost, duplicated or invented, even before the caps are considered. */
  lemma {:induction false} GreedyPartitions(fleet: Fleet, items: seq<WorkItem>)
    requires fleet.Valid() && Greedy(fleet, items).Some?
    ensures multiset(Flatten(Greedy(fleet, items).value)) == multiset(items)
  {
    hide IsBest, HasSlot, Destination;
    if items == [] {
      FlattenOfNothing(|fleet.ranks|);
    } else {
      var shorter, item := items[..|items| - 1], items[|items| - 1];
      GreedyPartitions(fleet, shorter);
      var before, d := GreedyStep(fleet, items);
      FlattenPlaced(before, d, item);
      assert items == shorter + [item];
    }
  }

  // ------------------------------------------------- the re-sort is a no-op

  lemma CostlierFirstIsTotalPreorder()
    ensures TotalPreorder(CostlierFirst)
  {
    forall x, y ensures CostlierFirst(x, y) || CostlierFirst(y, x) { LexTotal(x.workId, y.workId); }
    forall x, y, z | CostlierFirst(x, y) && CostlierFirst(y, z) ensures CostlierFirst(x, z) {
      if x.cost == y.cost == z.cost { LexTransitive(x.workId, y.workId, z.workId); }
    }
  }

  /** Each list is a sorted selection of the items placed so far. */
  ghost predicate SortedLists(lists: seq<seq<WorkItem>>, items: seq<WorkItem>) {
    forall r :: 0 <= r < |lists| ==> SortedBy(lists[r], CostlierFirst) && forall x :: x in lists[r] ==> x in items
  }

  lemma {:induction false} GreedyKeepsOrder(fleet: Fleet, items: seq<WorkItem>)
    requires fleet.Valid() && Greedy(fleet, items).Some? && SortedBy(items, CostlierFirst)
    ensures SortedLists(Greedy(fleet, items).value, items)
  {
    if items != [] {
      hide Greedy, IsBest, CostlierFirst;
      var shorter, item := items[..|items| - 1], items[|items| - 1];
      var before, d := GreedyStep(fleet, items);
      GreedyKeepsOrder(fleet, shorter);
      PlacedKeepsOrder(before, d, items);
    }
  }

  lemma PlacedKeepsOrder(lists: seq<seq<WorkItem>>, d: nat, items: seq<WorkItem>)
    requires d < |lists| && items != [] && SortedBy(items, CostlierFirst) && SortedLists(lists, items[..|items| - 1])
    ensures SortedLists(Placed(lists, d, items[|items| - 1]), items)
  {
    var item := items[|items| - 1];
    forall x | x in items[..|items| - 1] ensures CostlierFirst(x, item) && x in items {
      var i :| 0 <= i < |items| - 1 && items[i] == x;
    }
  }

  /** Sorting each rank's list again, as the code does, changes nothing. */
  lemma ResortIsIdentity(fleet: Fleet, items: seq<WorkItem>)
    requires fleet.Valid() && Greedy(fleet, Sort(items, CostlierFirst)).Some?
    ensures forall r :: 0 <= r < |fleet.ranks| ==>
              AssignWork(fleet, items).value[r] == MapSeq(Id, Greedy(fleet, Sort(items, CostlierFirst)).value[r])
  {
    var ordered := Sort(items, CostlierFirst);
    var lists := Greedy(fleet, ordered).value;
    CostlierFirstIsTotalPreorder();
    SortSorts(items, CostlierFirst);
    GreedyKeepsOrder(fleet, ordered);
    forall r | 0 <= r < |lists| ensures RankIds(lists)[r] == MapSeq(Id, lists[r]) {
      SortOfSorted(lists[r], CostlierFirst);
    }
  }

  // ------------------------------------------- every plan is a valid plan

  lemma CapsAreNonNegative(settings: Settings, f: Facts)
    requires settings.Valid() && f.Valid()
    ensures CapsNonNegative(FleetOf(settings, f))
  {
  }

  lemma {:induction false} FlattenMapsIds(lists: seq<seq<WorkItem>>, ids: seq<seq<string>>)
    requires |ids| == |lists| && forall r :: 0 <= r < |ids| ==> ids[r] == MapSeq(Id, lists[r])
    ensures Flatten(ids) == MapSeq(Id, Flatten(lists))
  {
    if lists != [] {
      FlattenMapsIds(lists[1..], ids[1..]);
    }
  }

  /** The assignment of as many items as there are slots: the loop's assertion is
      unreachable, every rank gets its count, and every work ID appears once. */
  lemma AssignmentIsExact(fleet: Fleet, items: seq<WorkItem>)
    requires fleet.Valid() && CapsNonNegative(fleet) && |items| == Sum(fleet.caps)
    ensures AssignWork(fleet, items).Some?
    ensures forall r :: 0 <= r < |fleet.ranks| ==> |AssignWork(fleet, items).value[r]| == fleet.caps[r]
    ensures multiset(Flatten(AssignWork(fleet, items).value)) == multiset(MapSeq(Id, items))
  {
    hide Greedy, CapsNonNegative, CostlierFirst;
    var ordered := Sort(items, CostlierFirst);
    EveryRankGetsItsCount(fleet, ordered);
    ResortIsIdentity(fleet, items);
    var lists := Greedy(fleet, ordered).value;
    forall r | 0 <= r < |fleet.ranks| ensures |AssignWork(fleet, items).value[r]| == fleet.caps[r] {
      assert Lengths(lists)[r] == |lists[r]|;
    }
    FlattenMapsIds(lists, AssignWork(fleet, items).value);
    GreedyPartitions(fleet, ordered);
    MapPermutes(Id, Flatten(lists), ordered);
    MapPermutes(Id, ordered, items);
  }

  /** The argument, budget and work-count checks of `plan`. */
  predicate Accepts(settings: Settings, inputs: Inputs)
    requires settings.Valid()
  {
    && InputError(inputs).None?
    && BudgetsPositive(settings, FactsOf(inputs))
    && |inputs.items| == Sum(CountsOf(settings, FactsOf(inputs)))
  }

  /** The plan built from accepted inputs. */
  function PlanOf(settings: Settings, digests: Digests, version: int, inputs: Inputs): UpdatePlan
    requires settings.Valid() && Accepts(settings, inputs)
    requires AssignWork(FleetOf(settings, FactsOf(inputs)), inputs.items).Some?
  {
    BuildPlan(settings, digests, version, inputs, FactsOf(inputs), AssignWork(FleetOf(settings, FactsOf(inputs)), inputs.items).value)
  }

  lemma RanksCarryIds(settings: Settings, f: Facts, counts: seq<int>, scale: real, ids: seq<seq<string>>)
    requires f.Valid() && |counts| == |ids| == |f.records|
    ensures MapSeq(WorkIds, BuildRanks(settings, f, counts, scale, ids)) == ids
    ensures MapSeq(LocalSamples, BuildRanks(settings, f, counts, scale, ids)) == SampleCounts(counts, f.sizes)
  {
  }

  lemma {:induction false} RankEntriesPassIff(ps: seq<RankPlan>, records: seq<TopologyRecord>, scale: real)
    requires |ps| == |records|
    ensures RankEntriesError(ps, records, scale).None?
            <==> forall r :: 0 <= r < |ps| ==> RankEntryError(ps[r], records[r], scale).None?
  {
    hide RankEntryError;
    if ps != [] {
      RankEntriesPassIff(ps[1..], records[1..], scale);
      assert forall r :: 0 < r < |ps| ==> ps[r] == ps[1..][r - 1] && records[r] == records[1..][r - 1];
    }
  }

  lemma BuiltRanksPass(settings: Settings, f: Facts, counts: seq<int>, scale: real, ids: seq<seq<string>>)
    requires f.Valid() && |counts| == |ids| == |f.records|
    requires forall r :: 0 <= r < |ids| ==> counts[r] >= 1 && |ids[r]| == counts[r]
    ensures RankEntriesError(BuildRanks(settings, f, counts, scale, ids), f.records, scale).None?
  {
    RankEntriesPassIff(BuildRanks(settings, f, counts, scale, ids), f.records, scale);
  }

  lemma BuiltPlanPasses(settings: Settings, digests: Digests, version: int, inputs: Inputs, f: Facts, ids: seq<seq<string>>)
    requires settings.Valid() && version >= 1 && f.Valid() && f.records == inputs.topology.ranks && |ids| == |f.records|
    requires inputs.topology.Valid() && forall i :: 0 <= i < |inputs.items| ==> inputs.items[i].Valid()
    requires forall r :: 0 <= r < |ids| ==> |ids[r]| == CountsOf(settings, f)[r]
    requires ToSet(Flatten(ids)) == ToSet(MapSeq(Id, inputs.items)) && |Flatten(ids)| == |ToSet(Flatten(ids))|
    ensures ValidateUpdatePlan(digests, BuildPlan(settings, digests, version, inputs, f, ids), inputs.topology, inputs.items, inputs.topology.worldSize).None?
  {
    hide ComputeBudget, MicroBatches, RankEntriesError, CountsOf, TopologyRecord.Valid, WorkItem.Valid;
    var plan := BuildPlan(settings, digests, version, inputs, f, ids);
    var scale := plan.worldSize as real / plan.globalSamples as real;
    RanksCarryIds(settings, f, CountsOf(settings, f), scale, ids);
    BuiltRanksPass(settings, f, CountsOf(settings, f), scale, ids);
  }

  lemma AcceptedPlanPasses(settings: Settings, digests: Digests, version: int, inputs: Inputs)
    requires settings.Valid() && version >= 1 && Accepts(settings, inputs)
    ensures AssignWork(FleetOf(settings, FactsOf(inputs)), inputs.items).Some?
    ensures ValidateUpdatePlan(digests, PlanOf(settings, digests, version, inputs), inputs.topology, inputs.items, inputs.topology.worldSize).None?
  {
    hide AssignWork, ComputeBudget, MicroBatches, ValidateUpdatePlan, BudgetsPositive, TopologyRecord.Valid, WorkItem.Valid;
    var f := FactsOf(inputs);
    CapsAreNonNegative(settings, f);
    AssignmentIsExact(FleetOf(settings, f), inputs.items);
    var ids := AssignWork(FleetOf(settings, f), inputs.items).value;
    PermutationFacts(Flatten(ids), MapSeq(Id, inputs.items));
    BuiltPlanPasses(settings, digests, version, inputs, f, ids);
  }

  /** What passing the validator means: whoever built the plan, it covers every given
      work ID exactly once, each rank runs one micro-batch per assigned item, and the
      loss scales are world size over samples, to within 1e-12. */
  lemma ValidPlanMeaning(digests: Digests, plan: UpdatePlan, topology: Topology, items: seq<WorkItem>, group: int)
    requires ValidateUpdatePlan(digests, plan, topology, items, group).None?
    ensures plan.worldSize == group == |plan.ranks| && plan.globalSamples > 0
    ensures Distinct(Flatten(MapSeq(WorkIds, plan.ranks)))
    ensures ToSet(Flatten(MapSeq(WorkIds, plan.ranks))) == ToSet(MapSeq(Id, items))
    ensures forall r :: 0 <= r < |plan.ranks| ==>
              && |plan.ranks[r].workItemIds| == plan.ranks[r].microBatches >= 1
              && plan.ranks[r].localSamples == plan.ranks[r].microBatches * plan.ranks[r].samplesPerMicroBatch
              && Abs(plan.ranks[r].lossSumScale - group as real / plan.globalSamples as real) <= 0.000000000001
    ensures plan.globalSamples == Sum(MapSeq(LocalSamples, plan.ranks))
  {
    var planned := Flatten(MapSeq(WorkIds, plan.ranks));
    ToSetSize(planned);
    RankEntriesPassIff(plan.ranks, topology.ranks, plan.worldSize as real / plan.globalSamples as real);
  }

  lemma OnlyTheGroupCanDisagree(digests: Digests, plan: UpdatePlan, topology: Topology, items: seq<WorkItem>, group: int)
    requires ValidateUpdatePlan(digests, plan, topology, items, topology.worldSize).None?
    ensures ValidateUpdatePlan(digests, plan, topology, items, group)
            == if group == topology.worldSize then None else Some(WorldSizesDisagree)
  {
    hide RankEntriesError;
  }

  /** What `plan` returns, for every input. Its own validation rejects the plan exactly
      when the process group is not the topology's size, and by then the version is
      already spent; the slot assertion never fires. */
  lemma PlanOutcome(settings: Settings, digests: Digests, version: int, inputs: Inputs, group: int)
    requires settings.Valid() && version >= 0
    ensures Accepts(settings, inputs) <==> Plan(settings, digests, version, inputs, group).1 == version + 1
    ensures Plan(settings, digests, version, inputs, group).0.Ok?
            <==> Accepts(settings, inputs) && group == inputs.topology.worldSize
    ensures Accepts(settings, inputs) && group != inputs.topology.worldSize ==>
              Plan(settings, digests, version, inputs, group).0 == Err(WorldSizesDisagree)
    ensures !Accepts(settings, inputs) ==>
              Plan(settings, digests, version, inputs, group).0.Err? && Plan(settings, digests, version, inputs, group).1 == version
    ensures Plan(settings, digests, version, inputs, group).0 != Err(SlotsExhausted)
  {
    hide ValidateUpdatePlan, BudgetsPositive, AssignWork, BuildPlan;
    if Accepts(settings, inputs) {
      AcceptedPlanPasses(settings, digests, version + 1, inputs);
      OnlyTheGroupCanDisagree(digests, PlanOf(settings, digests, version + 1, inputs), inputs.topology, inputs.items, group);
    }
  }

  lemma OkShape(settings: Settings, digests: Digests, version: int, inputs: Inputs, group: int, plan: UpdatePlan)
    requires settings.Valid() && Plan(settings, digests, version, inputs, group).0 == Ok(plan)
    ensures ValidateUpdatePlan(digests, plan, inputs.topology, inputs.items, group).None?
    ensures plan.planVersion == version + 1 && |ToSet(MapSeq(Id, inputs.items))| == |inputs.items|
  {
    hide ValidateUpdatePlan, FactsOf, BudgetsPositive, AssignWork, GlobalSamples, BuildRanks, TopologyRecord.Valid, WorkItem.Valid, ToSet, MapSeq;
  }

  /** Every returned plan passes the validator, and consumes exactly the given work. */
  lemma ReturnedPlansAreExact(settings: Settings, digests: Digests, version: int, inputs: Inputs, group: int, plan: UpdatePlan)
    requires settings.Valid() && Plan(settings, digests, version, inputs, group).0 == Ok(plan)
    ensures ValidateUpdatePlan(digests, plan, inputs.topology, inputs.items, group).None?
    ensures multiset(Flatten(MapSeq(WorkIds, plan.ranks))) == multiset(MapSeq(Id, inputs.items))
    ensures plan.planVersion == version + 1
  {
    hide ValidateUpdatePlan, Plan;
    OkShape(settings, digests, version, inputs, group, plan);
    ValidPlanMeaning(digests, plan, inputs.topology, inputs.items, group);
    var planned, given := Flatten(MapSeq(WorkIds, plan.ranks)), MapSeq(Id, inputs.items);
    ToSetSize(planned);
    ToSetSize(given);
    SameSetAndLengthPermutes(planned, given);
  }

  /** The fields of a returned plan the update loop depends on. */
  lemma ReturnedPlanFields(settings: Settings, digests: Digests, version: int, inputs: Inputs, group: int, plan: UpdatePlan)
    requires settings.Valid() && Plan(settings, digests, version, inputs, group).0 == Ok(plan)
    ensures plan.targetUpdateMs == settings.targetUpdateMs > 0.0 && plan.globalSamples > 0
    ensures forall r :: 0 <= r < |plan.ranks| ==>
              && plan.ranks[r].samplesPerMicroBatch >= 1
              && plan.ranks[r].lossSumScale == plan.worldSize as real / plan.globalSamples as real
  {
    hide InputError, ValidateUpdatePlan, FactsOf, BudgetsPositive, AssignWork, GlobalSamples, ComputeBudget, NetworkGuard, MicroBatches;
  }
}

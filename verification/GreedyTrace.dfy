/** The greedy rule, item by item: where every item was placed, read off the finished
    assignment, and that no other assignment obeys the rule. */
module GreedyTrace {
  import opened Arithmetic
  import opened Ordering
  import opened Prelude
  import opened UpdatePlanner
  import opened UpdatePlannerProofs

  /** Each item goes to the best rank for the lists as they are when its turn comes. */
  lemma PlacementTrace(fleet: Fleet, items: seq<WorkItem>, n: nat) returns (before: seq<seq<WorkItem>>, d: nat)
    requires fleet.Valid() && n < |items| && Greedy(fleet, items).Some?
    ensures Greedy(fleet, items[..n]) == Some(before) && |before| == |fleet.ranks|
    ensures d < |before| && IsBest(fleet, before, items[n], d, |before|)
    ensures Greedy(fleet, items[..n + 1]) == Some(Placed(before, d, items[n]))
  {
    if Greedy(fleet, items[..n + 1]).None? { GreedyStuck(fleet, items, n + 1); }
    hide Greedy, IsBest;
    assert items[..n + 1][..n] == items[..n];
    before, d := GreedyStep(fleet, items[..n + 1]);
  }

  // ------------------------------------------------ read off the finished lists

  predicate Earlier(x: WorkItem, y: WorkItem) {
    CostlierFirst(x, y) && x != y
  }

  /** How many items a rank held when `x` was placed: the prefix of its list up to the
      last item earlier than `x`. */
  function HeldWhen(list: seq<WorkItem>, x: WorkItem): (m: nat)
    ensures m <= |list|
  {
    if list == [] then 0
    else if Earlier(list[|list| - 1], x) then |list|
    else HeldWhen(list[..|list| - 1], x)
  }

  /** Finish estimate of the `k`-th item of rank `r`, and what it would have been on rank
      `q` with the load that rank had at that moment. */
  function FinishOf(fleet: Fleet, lists: seq<seq<WorkItem>>, r: nat, k: nat): real
    requires fleet.Valid() && |lists| == |fleet.ranks| && r < |lists| && k < |lists[r]|
  {
    EstimatedFinish(fleet, r, Cost(lists[r][..k]), lists[r][k])
  }

  function FinishElsewhere(fleet: Fleet, lists: seq<seq<WorkItem>>, x: WorkItem, q: nat): real
    requires fleet.Valid() && |lists| == |fleet.ranks| && q < |lists|
  {
    EstimatedFinish(fleet, q, Cost(lists[q][..HeldWhen(lists[q], x)]), x)
  }

  /** Rank `q` was full by then, or item `k` of rank `r` finishes no later where it is;
      ties go to the lower rank. */
  ghost predicate Beats(fleet: Fleet, lists: seq<seq<WorkItem>>, r: nat, k: nat, q: nat)
    requires fleet.Valid() && |lists| == |fleet.ranks| && r < |lists| && k < |lists[r]| && q < |lists|
  {
    HeldWhen(lists[q], lists[r][k]) < fleet.caps[q] ==>
      var mine, theirs := FinishOf(fleet, lists, r, k), FinishElsewhere(fleet, lists, lists[r][k], q);
      mine < theirs || (mine == theirs && r < q)
  }

  /** Every item of every rank beats every other rank that was open when it was placed. */
  ghost predicate PlacedBest(fleet: Fleet, lists: seq<seq<WorkItem>>)
    requires fleet.Valid() && |lists| == |fleet.ranks|
  {
    forall r, k, q :: 0 <= r < |lists| && 0 <= k < |lists[r]| && 0 <= q < |lists| && q != r ==> Beats(fleet, lists, r, k, q)
  }

  lemma HeldUnchanged(list: seq<WorkItem>, x: WorkItem, y: WorkItem)
    requires !Earlier(x, y)
    ensures HeldWhen(list + [x], y) == HeldWhen(list, y)
    ensures (list + [x])[..HeldWhen(list, y)] == list[..HeldWhen(list, y)]
  {
    assert (list + [x])[..|list|] == list;
  }

  lemma HeldAll(list: seq<WorkItem>, x: WorkItem)
    requires forall y :: y in list ==> Earlier(y, x)
    ensures HeldWhen(list, x) == |list| && list[..|list|] == list
  {
  }

  lemma BeatsUnchanged(fleet: Fleet, lists: seq<seq<WorkItem>>, d: nat, x: WorkItem, r: nat, k: nat, q: nat)
    requires fleet.Valid() && |lists| == |fleet.ranks| && d < |lists| && r < |lists| && k < |lists[r]| && q < |lists|
    requires !Earlier(x, lists[r][k])
    ensures var after := Placed(lists, d, x);
            after[r][k] == lists[r][k] && (Beats(fleet, after, r, k, q) <==> Beats(fleet, lists, r, k, q))
  {
    hide Cost, EstimatedFinish, Earlier;
    HeldUnchanged(lists[q], x, lists[r][k]);
    assert Placed(lists, d, x)[r][..k] == lists[r][..k];
  }

  lemma BeatsNewest(fleet: Fleet, lists: seq<seq<WorkItem>>, d: nat, x: WorkItem, q: nat)
    requires fleet.Valid() && |lists| == |fleet.ranks| && d < |lists| && q < |lists| && q != d
    requires forall y :: y in lists[q] ==> Earlier(y, x)
    ensures var mine, theirs := EstimatedFinish(fleet, d, Cost(lists[d]), x), EstimatedFinish(fleet, q, Cost(lists[q]), x);
            Beats(fleet, Placed(lists, d, x), d, |lists[d]|, q)
            <==> (HasSlot(fleet, lists, q) ==> mine < theirs || (mine == theirs && d < q))
  {
    hide Cost, EstimatedFinish, Earlier;
    HeldAll(lists[q], x);
    assert Placed(lists, d, x)[d][..|lists[d]|] == lists[d];
  }

  /** Placing the next item keeps the rule exactly when the rank is the best one. */
  lemma PlacedBestStep(fleet: Fleet, lists: seq<seq<WorkItem>>, d: nat, x: WorkItem)
    requires fleet.Valid() && |lists| == |fleet.ranks| && d < |lists| && HasSlot(fleet, lists, d)
    requires forall r, y :: 0 <= r < |lists| && y in lists[r] ==> Earlier(y, x) && !Earlier(x, y)
    ensures PlacedBest(fleet, Placed(lists, d, x)) <==> PlacedBest(fleet, lists) && IsBest(fleet, lists, x, d, |lists|)
  {
    hide Beats, Earlier, EstimatedFinish, Cost;
    var after := Placed(lists, d, x);
    forall r, k, q | 0 <= r < |lists| && 0 <= k < |lists[r]| && 0 <= q < |lists|
      ensures after[r][k] == lists[r][k] && (Beats(fleet, after, r, k, q) <==> Beats(fleet, lists, r, k, q))
    {
      assert lists[r][k] in lists[r];
      BeatsUnchanged(fleet, lists, d, x, r, k, q);
    }
    forall q | 0 <= q < |lists| && q != d
      ensures var mine, theirs := EstimatedFinish(fleet, d, Cost(lists[d]), x), EstimatedFinish(fleet, q, Cost(lists[q]), x);
              Beats(fleet, after, d, |lists[d]|, q) <==> (HasSlot(fleet, lists, q) ==> mine < theirs || (mine == theirs && d < q))
    {
      BeatsNewest(fleet, lists, d, x, q);
    }
    if PlacedBest(fleet, after) {
      forall r, k, q | 0 <= r < |lists| && 0 <= k < |lists[r]| && 0 <= q < |lists| && q != r ensures Beats(fleet, lists, r, k, q) {
        assert Beats(fleet, after, r, k, q);
      }
      assert forall q :: 0 <= q < |lists| && q != d ==> Beats(fleet, after, d, |lists[d]|, q);
    }
    if PlacedBest(fleet, lists) && IsBest(fleet, lists, x, d, |lists|) {
      forall r, k, q | 0 <= r < |after| && 0 <= k < |after[r]| && 0 <= q < |after| && q != r ensures Beats(fleet, after, r, k, q) {
        if k < |lists[r]| { assert Beats(fleet, lists, r, k, q); }
      }
    }
  }

  // --------------------------------------------------------- greedy, iff

  /** An assignment of `items`: each exactly once, within the caps, each list in order. */
  ghost predicate Assigns(fleet: Fleet, lists: seq<seq<WorkItem>>, items: seq<WorkItem>)
    requires fleet.Valid()
  {
    && |lists| == |fleet.ranks| && FitsCaps(fleet, lists)
    && (forall r :: 0 <= r < |lists| ==> SortedBy(lists[r], CostlierFirst))
    && multiset(Flatten(lists)) == multiset(items)
  }

  /** A queue of work in assignment order, without ties or repeats. */
  ghost predicate Queue(items: seq<WorkItem>) {
    SortedBy(items, CostlierFirst) && NoTies(multiset(items), CostlierFirst) && Distinct(items)
  }

  lemma QueueFront(items: seq<WorkItem>)
    requires Queue(items) && items != []
    ensures var shorter, x := items[..|items| - 1], items[|items| - 1];
            && Queue(shorter) && items == shorter + [x] && multiset(items) == multiset(shorter) + multiset{x}
            && forall y :: y in shorter ==> Earlier(y, x) && !Earlier(x, y)
  {
    hide CostlierFirst;
    var shorter, x := items[..|items| - 1], items[|items| - 1];
    assert items == shorter + [x];
    forall y | y in shorter ensures Earlier(y, x) && !Earlier(x, y) {
      var i :| 0 <= i < |shorter| && shorter[i] == y;
      assert items[i] == y && y in multiset(items) && x in multiset(items);
    }
  }

  lemma {:induction false} InFlatten(lists: seq<seq<WorkItem>>, y: WorkItem)
    ensures y in Flatten(lists) <==> exists r :: 0 <= r < |lists| && y in lists[r]
  {
    if lists != [] {
      InFlatten(lists[1..], y);
      if r :| 0 <= r < |lists| && y in lists[r] {
        if r > 0 { assert lists[r] == lists[1..][r - 1]; }
      }
      if r :| 0 <= r < |lists[1..]| && y in lists[1..][r] { assert lists[r + 1] == lists[1..][r]; }
    }
  }

  lemma AssignedAreItems(fleet: Fleet, lists: seq<seq<WorkItem>>, items: seq<WorkItem>, r: nat, y: WorkItem)
    requires fleet.Valid() && Assigns(fleet, lists, items) && r < |lists| && y in lists[r]
    ensures y in items
  {
    InFlatten(lists, y);
    assert y in multiset(Flatten(lists));
  }

  lemma EndsWithLast(list: seq<WorkItem>, items: seq<WorkItem>)
    requires Queue(items) && items != [] && SortedBy(list, CostlierFirst)
    requires items[|items| - 1] in list && forall y :: y in list ==> y in items
    ensures list != [] && list[|list| - 1] == items[|items| - 1]
  {
    QueueFront(items);
    var x, end := items[|items| - 1], list[|list| - 1];
    var i :| 0 <= i < |list| && list[i] == x;
    assert end in list;
    assert i < |list| - 1 ==> CostlierFirst(x, end);
    hide CostlierFirst;
  }

  lemma ShorterFits(fleet: Fleet, before: seq<seq<WorkItem>>, d: nat, x: WorkItem)
    requires fleet.Valid() && d < |before| == |fleet.ranks| && FitsCaps(fleet, Placed(before, d, x))
    ensures FitsCaps(fleet, before) && HasSlot(fleet, before, d)
  {
    assert |Placed(before, d, x)[d]| == |before[d]| + 1;
    forall r | 0 <= r < |before| ensures |before[r]| <= fleet.caps[r] {
      assert |before[r]| <= |Placed(before, d, x)[r]|;
    }
  }

  lemma ShorterIsSorted(list: seq<WorkItem>, x: WorkItem)
    requires SortedBy(list + [x], CostlierFirst)
    ensures SortedBy(list, CostlierFirst)
  {
    forall i, j | 0 <= i < j < |list| ensures CostlierFirst(list[i], list[j]) {
      assert CostlierFirst((list + [x])[i], (list + [x])[j]);
    }
  }

  lemma WithoutLast(fleet: Fleet, before: seq<seq<WorkItem>>, d: nat, items: seq<WorkItem>, x: WorkItem)
    requires fleet.Valid() && d < |before| && Assigns(fleet, Placed(before, d, x), items + [x])
    ensures |before| == |fleet.ranks| && HasSlot(fleet, before, d) && Assigns(fleet, before, items)
  {
    hide CostlierFirst, SortedBy, HasSlot, FitsCaps;
    ShorterFits(fleet, before, d, x);
    FlattenPlaced(before, d, x);
    assert multiset(items + [x]) == multiset(items) + multiset{x};
    CancelOne(multiset(Flatten(before)), multiset(items), x);
    var lists := Placed(before, d, x);
    forall r | 0 <= r < |before| ensures SortedBy(before[r], CostlierFirst) {
      assert SortedBy(lists[r], CostlierFirst);
      if r == d { ShorterIsSorted(before[d], x); }
    }
  }

  lemma RemoveEnd(lists: seq<seq<WorkItem>>, d: nat) returns (before: seq<seq<WorkItem>>)
    requires d < |lists| && lists[d] != []
    ensures |before| == |lists| && Placed(before, d, lists[d][|lists[d]| - 1]) == lists
  {
    var last := |lists[d]| - 1;
    before := lists[d := lists[d][..last]];
    assert lists[d] == lists[d][..last] + [lists[d][last]];
  }

  lemma FindLast(fleet: Fleet, lists: seq<seq<WorkItem>>, items: seq<WorkItem>) returns (d: nat)
    requires fleet.Valid() && Assigns(fleet, lists, items) && Queue(items) && items != []
    ensures d < |lists| == |fleet.ranks| && lists[d] != [] && lists[d][|lists[d]| - 1] == items[|items| - 1]
  {
    var x := items[|items| - 1];
    assert x in multiset(Flatten(lists));
    InFlatten(lists, x);
    d :| 0 <= d < |lists| && x in lists[d];
    hide Queue, Flatten, FitsCaps;
    forall y | y in lists[d] ensures y in items { AssignedAreItems(fleet, lists, items, d, y); }
    EndsWithLast(lists[d], items);
  }

  /** In any assignment the last item of the queue ends some rank's list; without it the
      rest is an assignment of the rest. */
  lemma TakeLast(fleet: Fleet, lists: seq<seq<WorkItem>>, items: seq<WorkItem>) returns (before: seq<seq<WorkItem>>, d: nat)
    requires fleet.Valid() && Assigns(fleet, lists, items) && Queue(items) && items != []
    ensures d < |before| == |fleet.ranks| && lists == Placed(before, d, items[|items| - 1]) && HasSlot(fleet, before, d)
    ensures Assigns(fleet, before, items[..|items| - 1])
  {
    hide Assigns, Queue;
    d := FindLast(fleet, lists, items);
    before := RemoveEnd(lists, d);
    assert items == items[..|items| - 1] + [items[|items| - 1]];
    WithoutLast(fleet, before, d, items[..|items| - 1], items[|items| - 1]);
  }

  lemma AllEarlier(fleet: Fleet, before: seq<seq<WorkItem>>, items: seq<WorkItem>)
    requires fleet.Valid() && items != [] && Queue(items) && Assigns(fleet, before, items[..|items| - 1])
    ensures |before| == |fleet.ranks|
    ensures forall r, y :: 0 <= r < |before| && y in before[r] ==>
              Earlier(y, items[|items| - 1]) && !Earlier(items[|items| - 1], y)
  {
    QueueFront(items);
    hide Earlier, Queue;
    forall r, y | 0 <= r < |before| && y in before[r]
      ensures Earlier(y, items[|items| - 1]) && !Earlier(items[|items| - 1], y)
    {
      AssignedAreItems(fleet, before, items[..|items| - 1], r, y);
    }
  }

  lemma BestIsDestination(fleet: Fleet, lists: seq<seq<WorkItem>>, x: WorkItem, d: nat)
    requires fleet.Valid() && |lists| == |fleet.ranks| && IsBest(fleet, lists, x, d, |lists|)
    ensures Destination(fleet, lists, x, |lists|) == Some(d)
  {
    hide EstimatedFinish, Cost;
    var chosen := Destination(fleet, lists, x, |lists|);
    assert HasSlot(fleet, lists, d) && chosen.Some?;
    assert IsBest(fleet, lists, x, chosen.value, |lists|);
  }

  lemma GreedySnoc(fleet: Fleet, items: seq<WorkItem>, before: seq<seq<WorkItem>>, d: nat)
    requires fleet.Valid() && items != [] && Greedy(fleet, items[..|items| - 1]) == Some(before)
    requires |before| == |fleet.ranks| && d < |before| && Destination(fleet, before, items[|items| - 1], |before|) == Some(d)
    ensures Greedy(fleet, items) == Some(Placed(before, d, items[|items| - 1]))
  {
  }

  /** The rule and the algorithm say the same: among all assignments of the work, the one
      the greedy loop computes is the only one in which every item beats every other rank
      that was open when it was placed, at the load that rank then had. */
  lemma {:induction false} GreedyIffPlacedBest(fleet: Fleet, items: seq<WorkItem>, lists: seq<seq<WorkItem>>)
    requires fleet.Valid() && CapsNonNegative(fleet) && Queue(items)
    ensures Greedy(fleet, items) == Some(lists) <==> Assigns(fleet, lists, items) && PlacedBest(fleet, lists)
    decreases |items|
  {
    if Greedy(fleet, items) == Some(lists) { GreedyPlacesBest(fleet, items); }
    if Assigns(fleet, lists, items) && PlacedBest(fleet, lists) { PlacedBestIsGreedy(fleet, items, lists); }
  }

  lemma {:induction false} GreedyPlacesBest(fleet: Fleet, items: seq<WorkItem>)
    requires fleet.Valid() && CapsNonNegative(fleet) && Queue(items) && Greedy(fleet, items).Some?
    ensures Assigns(fleet, Greedy(fleet, items).value, items) && PlacedBest(fleet, Greedy(fleet, items).value)
  {
    GreedyFits(fleet, items);
    GreedyPartitions(fleet, items);
    GreedyKeepsOrder(fleet, items);
    if items == [] {
      assert forall r :: 0 <= r < |fleet.ranks| ==> NoWork(|fleet.ranks|)[r] == [];
    } else {
      var before, d := GreedyStep(fleet, items);
      QueueFront(items);
      hide Greedy, PlacedBest, Earlier, CostlierFirst;
      GreedyPlacesBest(fleet, items[..|items| - 1]);
      hide Assigns, Queue;
      AllEarlier(fleet, before, items);
      PlacedBestStep(fleet, before, d, items[|items| - 1]);
    }
  }

  lemma {:induction false} PlacedBestIsGreedy(fleet: Fleet, items: seq<WorkItem>, lists: seq<seq<WorkItem>>)
    requires fleet.Valid() && Queue(items) && Assigns(fleet, lists, items) && PlacedBest(fleet, lists)
    ensures Greedy(fleet, items) == Some(lists)
    decreases |items|
  {
    if items == [] {
      NothingAssigned(fleet, lists);
    } else {
      var before, d := TakeLast(fleet, lists, items);
      var shorter, x := items[..|items| - 1], items[|items| - 1];
      QueueFront(items);
      hide Greedy, PlacedBest, Earlier, CostlierFirst;
      hide Assigns, Queue;
      AllEarlier(fleet, before, items);
      PlacedBestStep(fleet, before, d, x);
      PlacedBestIsGreedy(fleet, shorter, before);
      BestIsDestination(fleet, before, x, d);
      GreedySnoc(fleet, items, before, d);
    }
  }

  /** What `HeldWhen` reads off the finished lists is what the rank held at that moment. */
  lemma {:induction false} HeldAtThatMoment(fleet: Fleet, items: seq<WorkItem>, n: nat, q: nat)
    requires fleet.Valid() && CapsNonNegative(fleet) && Queue(items) && Greedy(fleet, items).Some?
    requires n < |items| && q < |fleet.ranks|
    ensures var list := Greedy(fleet, items).value[q];
            Greedy(fleet, items[..n]).Some? && Greedy(fleet, items[..n]).value[q] == list[..HeldWhen(list, items[n])]
    decreases |items|
  {
    var shorter, x := items[..|items| - 1], items[|items| - 1];
    var before, d := GreedyStep(fleet, items);
    QueueFront(items);
    GreedyPlacesBest(fleet, shorter);
    AllEarlier(fleet, before, items);
    hide Greedy, PlacedBest, Assigns, Earlier, Queue;
    assert n < |shorter| ==> items[n] in shorter;
    if n < |shorter| {
      HeldAtThatMoment(fleet, shorter, n, q);
      assert shorter[..n] == items[..n];
    } else {
      HeldAll(before[q], x);
    }
    assert !Earlier(x, items[n]) by { NotEarlierThanItself(x); }
    HeldUnchanged(before[q], x, items[n]);
  }

  lemma NotEarlierThanItself(x: WorkItem)
    ensures !Earlier(x, x)
  {
  }

  lemma NothingAssigned(fleet: Fleet, lists: seq<seq<WorkItem>>)
    requires fleet.Valid() && Assigns(fleet, lists, [])
    ensures lists == NoWork(|fleet.ranks|)
  {
    forall r | 0 <= r < |lists| ensures lists[r] == [] {
      if lists[r] != [] { AssignedAreItems(fleet, lists, [], r, lists[r][0]); }
    }
  }

  /** Unique work IDs leave the assignment order no ties. */
  lemma UniqueIdsHaveNoTies(items: seq<WorkItem>)
    requires Distinct(MapSeq(Id, items))
    ensures NoTies(multiset(items), CostlierFirst)
  {
    var ids := MapSeq(Id, items);
    forall x, y | x in multiset(items) && y in multiset(items) && CostlierFirst(x, y) && CostlierFirst(y, x) ensures x == y {
      LexTotal(x.workId, y.workId);
      var i :| 0 <= i < |items| && items[i] == x;
      var j :| 0 <= j < |items| && items[j] == y;
      assert ids[i] == ids[j];
    }
  }

  lemma SortedWorkIsAQueue(items: seq<WorkItem>)
    requires Distinct(MapSeq(Id, items))
    ensures Queue(Sort(items, CostlierFirst))
  {
    var ordered := Sort(items, CostlierFirst);
    UniqueIdsHaveNoTies(items);
    CostlierFirstIsTotalPreorder();
    SortSorts(items, CostlierFirst);
    MapPermutes(Id, ordered, items);
    PermutationFacts(MapSeq(Id, ordered), MapSeq(Id, items));
    forall i, j | 0 <= i < j < |ordered| ensures ordered[i] != ordered[j] {
      assert MapSeq(Id, ordered)[i] != MapSeq(Id, ordered)[j];
    }
  }

  /** The work of every accepted planning call: the assignment is the one and only one
      that gives every rank its planned count and places every item best. */
  lemma PlannedWorkIsBalanced(settings: Settings, inputs: Inputs, lists: seq<seq<WorkItem>>)
    requires settings.Valid() && Accepts(settings, inputs)
    ensures var fleet, ordered := FleetOf(settings, FactsOf(inputs)), Sort(inputs.items, CostlierFirst);
            && Greedy(fleet, ordered).Some?
            && Lengths(Greedy(fleet, ordered).value) == CountsOf(settings, FactsOf(inputs))
            && (lists == Greedy(fleet, ordered).value <==> Assigns(fleet, lists, ordered) && PlacedBest(fleet, lists))
  {
    var f := FactsOf(inputs);
    CapsAreNonNegative(settings, f);
    AcceptedIdsAreDistinct(settings, inputs);
    SortedWorkIsAQueue(inputs.items);
    hide InputError, FactsOf, Greedy, BudgetsPositive, CountsOf, Queue, Assigns, PlacedBest, CapsNonNegative, CostlierFirst;
    var fleet, ordered := FleetOf(settings, f), Sort(inputs.items, CostlierFirst);
    EveryRankGetsItsCount(fleet, ordered);
    GreedyIffPlacedBest(fleet, ordered, lists);
  }

  lemma AcceptedIdsAreDistinct(settings: Settings, inputs: Inputs)
    requires settings.Valid() && Accepts(settings, inputs)
    ensures Distinct(MapSeq(Id, inputs.items))
  {
    hide BudgetsPositive, CountsOf, FactsOf, TelemetryByRank, Topology.Valid, WorkItem.Valid;
    ToSetSize(MapSeq(Id, inputs.items));
  }
}

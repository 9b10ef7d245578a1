/** Where the greedy planner sends an item, in terms of what it knows of the ranks: speed,
    work already taken, distance to the network card, and the item's preferred nodes. */
module PlannerChoices {
  import opened GreedyTrace
  import opened Ordering
  import opened Prelude
  import opened UpdatePlanner
  import opened UpdatePlannerProofs

  /** The item names nodes it prefers, and the rank is on none of them. */
  predicate Remote(fleet: Fleet, item: WorkItem, r: nat)
    requires r < |fleet.ranks|
  {
    |item.preferredNodes| > 0 && fleet.ranks[r].nodeId !in item.preferredNodes
  }

  /** Milliseconds by which rank `d` would finish the item, on top of what it holds, before
      rank `q`, counting distance to the network card but not preferred nodes. */
  function Lead(fleet: Fleet, placed: seq<seq<WorkItem>>, item: WorkItem, d: nat, q: nat): real
    requires fleet.Valid() && |placed| == |fleet.ranks| && d < |placed| && q < |placed|
  {
    var distance := (fleet.ranks[q].gpuNicDistance - fleet.ranks[d].gpuNicDistance) as real * fleet.settings.distancePenaltyMs;
    distance + (1000.0 * (Cost(placed[q]) + item.cost) / fleet.telemetry[q].samplesPerSecond
                - 1000.0 * (Cost(placed[d]) + item.cost) / fleet.telemetry[d].samplesPerSecond)
  }

  /** The lead a rank needs over another: the penalty if only it is remote, as much less if
      only the other one is. */
  function Handicap(fleet: Fleet, item: WorkItem, d: nat, q: nat): real
    requires d < |fleet.ranks| && q < |fleet.ranks|
  {
    if Remote(fleet, item, d) == Remote(fleet, item, q) then 0.0
    else if Remote(fleet, item, d) then fleet.settings.remoteWorkPenaltyMs
    else -fleet.settings.remoteWorkPenaltyMs
  }

  predicate IsOpen(fleet: Fleet, placed: seq<seq<WorkItem>>, r: nat)
    requires fleet.Valid() && |placed| == |fleet.ranks| && r < |placed|
  {
    |placed[r]| < fleet.caps[r]
  }

  lemma LeadIsDifference(fleet: Fleet, placed: seq<seq<WorkItem>>, item: WorkItem, d: nat, q: nat)
    requires fleet.Valid() && |placed| == |fleet.ranks| && d < |placed| && q < |placed|
    ensures EstimatedFinish(fleet, q, Cost(placed[q]), item) - EstimatedFinish(fleet, d, Cost(placed[d]), item)
            == Lead(fleet, placed, item, d, q) - Handicap(fleet, item, d, q)
  {
    var p := fleet.settings.distancePenaltyMs;
    var a, b := fleet.ranks[q].gpuNicDistance, fleet.ranks[d].gpuNicDistance;
    assert (a - b) as real * p == a as real * p - b as real * p;
    hide Cost;
  }

  /** The destination is the open rank whose lead over every other open rank is at least the
      handicap between them; on equality the lower rank takes the item. */
  lemma DestinationIff(fleet: Fleet, placed: seq<seq<WorkItem>>, item: WorkItem, d: nat)
    requires fleet.Valid() && |placed| == |fleet.ranks| && d < |placed|
    ensures Destination(fleet, placed, item, |placed|) == Some(d)
       <==> && IsOpen(fleet, placed, d)
            && forall q :: 0 <= q < |placed| && q != d && IsOpen(fleet, placed, q) ==>
                 var lead, needed := Lead(fleet, placed, item, d, q), Handicap(fleet, item, d, q);
                 lead > needed || (lead == needed && d < q)
  {
    forall q | 0 <= q < |placed|
      ensures EstimatedFinish(fleet, q, Cost(placed[q]), item) - EstimatedFinish(fleet, d, Cost(placed[d]), item)
              == Lead(fleet, placed, item, d, q) - Handicap(fleet, item, d, q)
    {
      LeadIsDifference(fleet, placed, item, d, q);
    }
    hide EstimatedFinish, Lead, Handicap, Cost;
    if IsBest(fleet, placed, item, d, |placed|) { BestIsDestination(fleet, placed, item, d); }
    hide Destination;
  }

  /** `d` takes the item from the open rank `q`. */
  predicate TakesFrom(fleet: Fleet, placed: seq<seq<WorkItem>>, item: WorkItem, d: nat, q: nat)
    requires fleet.Valid() && |placed| == |fleet.ranks| && d < |placed| && q < |placed|
  {
    d != q && IsOpen(fleet, placed, q) && Destination(fleet, placed, item, |placed|) == Some(d)
  }

  lemma TakingNeedsLead(fleet: Fleet, placed: seq<seq<WorkItem>>, item: WorkItem, d: nat, q: nat)
    requires fleet.Valid() && |placed| == |fleet.ranks| && d < |placed| && q < |placed| && TakesFrom(fleet, placed, item, d, q)
    ensures Lead(fleet, placed, item, d, q) >= Handicap(fleet, item, d, q)
    ensures Lead(fleet, placed, item, d, q) == Handicap(fleet, item, d, q) ==> d < q
  {
    DestinationIff(fleet, placed, item, d);
    hide Destination, Lead, Handicap;
  }

  /** Equal in speed, load and distance. */
  predicate Alike(fleet: Fleet, placed: seq<seq<WorkItem>>, d: nat, q: nat)
    requires fleet.Valid() && |placed| == |fleet.ranks| && d < |placed| && q < |placed|
  {
    && fleet.telemetry[d].samplesPerSecond == fleet.telemetry[q].samplesPerSecond
    && Cost(placed[d]) == Cost(placed[q]) && fleet.ranks[d].gpuNicDistance == fleet.ranks[q].gpuNicDistance
  }

  /** Among open ranks that are alike an item with preferred nodes goes to one of them
      whenever one is open there. */
  lemma PreferredNodeWins(fleet: Fleet, placed: seq<seq<WorkItem>>, item: WorkItem, d: nat, q: nat)
    requires fleet.Valid() && |placed| == |fleet.ranks| && d < |placed| && q < |placed| && TakesFrom(fleet, placed, item, d, q)
    requires Alike(fleet, placed, d, q) && fleet.settings.remoteWorkPenaltyMs > 0.0
    ensures fleet.ranks[q].nodeId in item.preferredNodes ==> fleet.ranks[d].nodeId in item.preferredNodes
  {
    TakingNeedsLead(fleet, placed, item, d, q);
  }

  /** A remote rank takes an item from an open rank on a preferred node only if it finishes
      earlier by the penalty, strictly so if it is the higher rank. */
  lemma RemoteRankNeedsThePenalty(fleet: Fleet, placed: seq<seq<WorkItem>>, item: WorkItem, d: nat, q: nat)
    requires fleet.Valid() && |placed| == |fleet.ranks| && d < |placed| && q < |placed| && TakesFrom(fleet, placed, item, d, q)
    requires fleet.ranks[q].nodeId in item.preferredNodes && fleet.ranks[d].nodeId !in item.preferredNodes
    ensures Lead(fleet, placed, item, d, q) >= fleet.settings.remoteWorkPenaltyMs
    ensures q < d ==> Lead(fleet, placed, item, d, q) > fleet.settings.remoteWorkPenaltyMs
  {
    TakingNeedsLead(fleet, placed, item, d, q);
    hide Lead, TakesFrom;
  }

  /** Other things equal, an item never goes to a rank with more work or a longer way to its
      network card. */
  lemma LighterAndCloserWins(fleet: Fleet, placed: seq<seq<WorkItem>>, item: WorkItem, d: nat, q: nat)
    requires fleet.Valid() && |placed| == |fleet.ranks| && d < |placed| && q < |placed| && TakesFrom(fleet, placed, item, d, q)
    requires Remote(fleet, item, d) == Remote(fleet, item, q) && fleet.settings.distancePenaltyMs > 0.0
    requires fleet.telemetry[d].samplesPerSecond == fleet.telemetry[q].samplesPerSecond
    ensures Cost(placed[d]) == Cost(placed[q]) ==> fleet.ranks[d].gpuNicDistance <= fleet.ranks[q].gpuNicDistance
    ensures fleet.ranks[d].gpuNicDistance == fleet.ranks[q].gpuNicDistance ==> Cost(placed[d]) <= Cost(placed[q])
    ensures Alike(fleet, placed, d, q) ==> d < q
  {
    TakingNeedsLead(fleet, placed, item, d, q);
    var rate, gap := fleet.telemetry[d].samplesPerSecond, fleet.ranks[q].gpuNicDistance - fleet.ranks[d].gpuNicDistance;
    hide Cost, TakesFrom, Remote;
    if gap < 0 { assert gap as real * fleet.settings.distancePenaltyMs < 0.0; }
    if Cost(placed[d]) > Cost(placed[q]) { Slower(Cost(placed[q]) + item.cost, Cost(placed[d]) + item.cost, rate); }
  }

  lemma Slower(less: real, more: real, rate: real)
    requires less < more && rate > 0.0
    ensures 1000.0 * less / rate < 1000.0 * more / rate
  {
    assert (1000.0 * more / rate - 1000.0 * less / rate) * rate == 1000.0 * (more - less);
  }

  lemma Faster(work: real, slow: real, fast: real)
    requires work > 0.0 && 0.0 < slow < fast
    ensures 1000.0 * work / fast < 1000.0 * work / slow
  {
    var x, y := 1000.0 * work / fast, 1000.0 * work / slow;
    assert x * fast == 1000.0 * work == y * slow;
    assert x > 0.0 && (y - x) * slow == x * (fast - slow) > 0.0;
  }

  /** Other things equal, an item never goes to a slower rank. */
  lemma FasterWins(fleet: Fleet, placed: seq<seq<WorkItem>>, item: WorkItem, d: nat, q: nat)
    requires fleet.Valid() && |placed| == |fleet.ranks| && d < |placed| && q < |placed| && TakesFrom(fleet, placed, item, d, q)
    requires Remote(fleet, item, d) == Remote(fleet, item, q) && fleet.ranks[d].gpuNicDistance == fleet.ranks[q].gpuNicDistance
    requires Cost(placed[d]) == Cost(placed[q]) && Cost(placed[q]) + item.cost > 0.0
    ensures fleet.telemetry[d].samplesPerSecond >= fleet.telemetry[q].samplesPerSecond
  {
    TakingNeedsLead(fleet, placed, item, d, q);
    hide Cost, TakesFrom, Remote;
    var slow, fast := fleet.telemetry[d].samplesPerSecond, fleet.telemetry[q].samplesPerSecond;
    if slow < fast { Faster(Cost(placed[q]) + item.cost, slow, fast); }
  }

  /** The queue, and with it every rank's list, runs from costly to cheap, and by work ID
      among items of one cost. */
  lemma CostlyWorkFirst(fleet: Fleet, items: seq<WorkItem>, r: nat, i: nat, j: nat)
    requires fleet.Valid() && Greedy(fleet, Sort(items, CostlierFirst)).Some?
    requires r < |fleet.ranks| && i < j < |Greedy(fleet, Sort(items, CostlierFirst)).value[r]|
    ensures var list := Greedy(fleet, Sort(items, CostlierFirst)).value[r];
            list[i].cost > list[j].cost || (list[i].cost == list[j].cost && PrefixOrSmaller(list[i].workId, list[j].workId))
  {
    CostlierFirstIsTotalPreorder();
    SortSorts(items, CostlierFirst);
    GreedyKeepsOrder(fleet, Sort(items, CostlierFirst));
    var list := Greedy(fleet, Sort(items, CostlierFirst)).value[r];
    hide Greedy, Sort;
    assert CostlierFirst(list[i], list[j]);
    LexMeaning(list[i].workId, list[j].workId);
  }

  /** Each item of the queue is sent by this rule, at the loads of its moment. */
  lemma EveryPlacementFollowsTheRule(fleet: Fleet, items: seq<WorkItem>, n: nat) returns (before: seq<seq<WorkItem>>, d: nat)
    requires fleet.Valid() && n < |items| && Greedy(fleet, items).Some?
    ensures Greedy(fleet, items[..n]) == Some(before) && |before| == |fleet.ranks| && d < |before|
    ensures Greedy(fleet, items[..n + 1]) == Some(Placed(before, d, items[n]))
    ensures IsOpen(fleet, before, d)
    ensures forall q :: 0 <= q < |before| && q != d && IsOpen(fleet, before, q) ==> TakesFrom(fleet, before, items[n], d, q)
  {
    before, d := PlacementTrace(fleet, items, n);
    BestIsDestination(fleet, before, items[n], d);
    DestinationIff(fleet, before, items[n], d);
    hide Greedy, Destination, IsBest, Lead, Handicap;
  }
}

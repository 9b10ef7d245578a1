/** From the topology-aware planner to the cursor ledger: what becomes of a plan handed
    on by `CursorBoundPlan.from_topology_aware`. */
module PlanToCursor {
  import C = CursorLedger
  import P = UpdatePlanner
  import PP = UpdatePlannerProofs
  import Ordering
  import opened Prelude

  /** `CursorBoundPlan.from_topology_aware` */
  function Adapt(plan: P.UpdatePlan): C.Plan {
    C.Plan(plan.planVersion, plan.topologyEpoch, plan.topologyDigest, plan.workManifestDigest, plan.worldSize,
           MapSeq(P.WorkIds, plan.ranks))
  }

  function ItemIds(inputs: P.Inputs): seq<string> {
    MapSeq(P.Id, inputs.items)
  }

  lemma ReturnedPlanShape(settings: P.Settings, digests: P.Digests, version: int, inputs: P.Inputs, group: int, plan: P.UpdatePlan)
    requires settings.Valid() && version >= 0 && P.Plan(settings, digests, version, inputs, group).0 == Result.Ok(plan)
    ensures plan.planVersion >= 1 && plan.worldSize == |plan.ranks| > 0
    ensures multiset(Adapt(plan).AllIds()) == multiset(ItemIds(inputs))
    ensures Distinct(Adapt(plan).AllIds()) && Adapt(plan).AllIds() != []
  {
    PP.ReturnedPlansAreExact(settings, digests, version, inputs, group, plan);
    PP.ValidPlanMeaning(digests, plan, inputs.topology, inputs.items, group);
    hide P.Plan, P.ValidateUpdatePlan;
    assert plan.ranks != [];
    assert plan.ranks[0].workItemIds != [];
    assert MapSeq(P.WorkIds, plan.ranks)[0] == plan.ranks[0].workItemIds;
  }

  /** A returned plan is a well-formed cursor plan exactly when its bindings are
      non-empty, which the planner itself does not check of the topology epoch. */
  lemma AdaptedPlanIsValidIff(settings: P.Settings, digests: P.Digests, version: int, inputs: P.Inputs, group: int, plan: P.UpdatePlan)
    requires settings.Valid() && version >= 0 && P.Plan(settings, digests, version, inputs, group).0 == Result.Ok(plan)
    ensures Adapt(plan).Valid() <==>
            plan.topologyEpoch != "" && plan.topologyDigest != "" && plan.workManifestDigest != ""
  {
    ReturnedPlanShape(settings, digests, version, inputs, group, plan);
    ToSetSize(Adapt(plan).AllIds());
    hide P.Plan;
  }

  /** The next `n` windows of the run exist and are the given work, in any order. */
  ghost predicate IsNextWork(rows: C.Rows, runKey: string, manifest: C.Manifest, ids: seq<string>)
    requires runKey in rows.cursors
  {
    var start := rows.cursors[runKey].nextOffset;
    start + |ids| <= |manifest.windows| && multiset(manifest.Ids()[start..start + |ids|]) == multiset(ids)
  }

  /** The two comparisons of work IDs that `prepare_next_update` makes. */
  ghost predicate ComparesEqual(rows: C.Rows, runKey: string, manifest: C.Manifest, ids: seq<string>)
    requires runKey in rows.cursors
  {
    var start := rows.cursors[runKey].nextOffset;
    && start + |ids| <= |manifest.windows|
    && ToSet(ids) == ToSet(manifest.Ids()[start..start + |ids|]) && |ids| == |manifest.Ids()[start..start + |ids|]|
  }

  lemma PrepareShape(h: C.Hashes, rows: C.Rows, runKey: string, manifest: C.Manifest, plan: C.Plan, identity: C.Identity, freshId: string)
    requires manifest.Valid() && plan.Valid() && identity.Valid() && runKey in rows.cursors
    requires C.CursorMatches(h, rows.cursors[runKey], manifest)
    requires C.PreparedIds(rows, runKey) == {} && freshId !in rows.attempts
    ensures C.Prepare(h, rows, runKey, manifest, plan, identity, freshId).outcome.Ok?
            <==> C.PlanMatches(h, plan, identity, manifest) && ComparesEqual(rows, runKey, manifest, plan.AllIds())
  {
    hide ToSet, C.Manifest.Valid, C.Plan.Valid, C.Identity.Valid, C.PlanMatches, C.CursorMatches, C.PreparedIds, C.Plan.AllIds;
  }

  lemma PrepareIff(h: C.Hashes, rows: C.Rows, runKey: string, manifest: C.Manifest, plan: C.Plan, identity: C.Identity, freshId: string)
    requires manifest.Valid() && plan.Valid() && identity.Valid() && runKey in rows.cursors
    requires C.CursorMatches(h, rows.cursors[runKey], manifest)
    requires C.PreparedIds(rows, runKey) == {} && freshId !in rows.attempts
    ensures C.Prepare(h, rows, runKey, manifest, plan, identity, freshId).outcome.Ok?
            <==> C.PlanMatches(h, plan, identity, manifest) && IsNextWork(rows, runKey, manifest, plan.AllIds())
  {
    PrepareShape(h, rows, runKey, manifest, plan, identity, freshId);
    ValidPlanIsDistinct(plan);
    hide C.Prepare, ComparesEqual, IsNextWork, C.Plan.Valid, Distinct;
    NextWorkIff(rows, runKey, manifest, plan.AllIds());
  }

  lemma ValidPlanIsDistinct(plan: C.Plan)
    requires plan.Valid()
    ensures Distinct(plan.AllIds())
  {
    ToSetSize(plan.AllIds());
  }

  lemma NextWorkIff(rows: C.Rows, runKey: string, manifest: C.Manifest, ids: seq<string>)
    requires runKey in rows.cursors && Distinct(ids)
    ensures ComparesEqual(rows, runKey, manifest, ids) <==> IsNextWork(rows, runKey, manifest, ids)
  {
    hide Distinct, ToSet;
    var start := rows.cursors[runKey].nextOffset;
    if start + |ids| <= |manifest.windows| { SameWorkIff(manifest.Ids()[start..start + |ids|], ids); }
  }

  lemma SameWorkIff(expected: seq<string>, ids: seq<string>)
    requires Distinct(ids)
    ensures ToSet(ids) == ToSet(expected) && |ids| == |expected| <==> multiset(expected) == multiset(ids)
  {
    if ToSet(ids) == ToSet(expected) && |ids| == |expected| { SameSetAndLengthPermutes(expected, ids); }
    if multiset(expected) == multiset(ids) { PermutationFacts(expected, ids); }
  }

  /** When the ledger reserves a returned plan. The planner binds its plans to the digest
      of the update's own work list, the ledger to the digest of the global manifest; the
      plan is reserved only if these two coincide. */
  lemma AdaptedPlanReservesIff(settings: P.Settings, digests: P.Digests, version: int, inputs: P.Inputs, group: int, plan: P.UpdatePlan,
                               h: C.Hashes, rows: C.Rows, runKey: string, manifest: C.Manifest, identity: C.Identity, freshId: string)
    requires settings.Valid() && version >= 0 && P.Plan(settings, digests, version, inputs, group).0 == Result.Ok(plan)
    requires manifest.Valid() && identity.Valid() && Adapt(plan).Valid() && runKey in rows.cursors
    requires C.CursorMatches(h, rows.cursors[runKey], manifest) && C.PreparedIds(rows, runKey) == {} && freshId !in rows.attempts
    requires identity.worldSize == group && identity.topologyEpoch == plan.topologyEpoch && identity.topologyDigest == plan.topologyDigest
    ensures C.Prepare(h, rows, runKey, manifest, Adapt(plan), identity, freshId).outcome.Ok?
            <==> P.WorkDigest(digests, inputs.items) == h.manifest(manifest) && IsNextWork(rows, runKey, manifest, ItemIds(inputs))
  {
    ReturnedPlanShape(settings, digests, version, inputs, group, plan);
    ReturnedPlanBindings(settings, digests, version, inputs, group, plan);
    hide P.Plan, C.Prepare, C.CursorMatches, C.PreparedIds, IsNextWork;
    SamePermutationPreparesIff(h, rows, runKey, manifest, Adapt(plan), ItemIds(inputs), identity, freshId);
  }

  /** What the two sides feed to SHA-256: differently shaped canonical objects. */
  datatype Message = WorkItems(items: seq<P.WorkItem>) | GlobalWindows(manifest: C.Manifest)

  /** Both digests are the one hash, over the two encodings. */
  ghost predicate OneHash(sha: Message -> string, digests: P.Digests, h: C.Hashes) {
    && (forall items :: digests.work(items) == sha(WorkItems(items)))
    && (forall m :: h.manifest(m) == sha(GlobalWindows(m)))
  }

  /** So the two never coincide, and the ledger refuses every plan the planner returns,
      whatever it holds, short of a collision between the two messages. */
  lemma AdaptedPlanIsAlwaysRefused(settings: P.Settings, digests: P.Digests, version: int, inputs: P.Inputs, group: int, plan: P.UpdatePlan,
                                   sha: Message -> string, h: C.Hashes, rows: C.Rows, runKey: string, manifest: C.Manifest,
                                   identity: C.Identity, freshId: string)
    requires settings.Valid() && P.Plan(settings, digests, version, inputs, group).0 == Result.Ok(plan)
    requires OneHash(sha, digests, h)
    requires CollisionFreeOn(sha, {WorkItems(Ordering.Sort(inputs.items, P.ByWorkId)), GlobalWindows(manifest)})
    ensures C.Prepare(h, rows, runKey, manifest, Adapt(plan), identity, freshId).outcome.Err?
    ensures C.Prepare(h, rows, runKey, manifest, Adapt(plan), identity, freshId).rows == rows
  {
    ReturnedPlanBindings(settings, digests, version, inputs, group, plan);
    hide P.Plan, C.Prepare;
    var items := Ordering.Sort(inputs.items, P.ByWorkId);
    assert plan.workManifestDigest == sha(WorkItems(items)) && h.manifest(manifest) == sha(GlobalWindows(manifest));
    assert WorkItems(items) != GlobalWindows(manifest);
    OtherDigestIsRefused(h, rows, runKey, manifest, Adapt(plan), identity, freshId);
  }

  lemma OtherDigestIsRefused(h: C.Hashes, rows: C.Rows, runKey: string, manifest: C.Manifest, plan: C.Plan, identity: C.Identity, freshId: string)
    requires plan.workManifestDigest != h.manifest(manifest)
    ensures C.Prepare(h, rows, runKey, manifest, plan, identity, freshId).outcome.Err?
    ensures C.Prepare(h, rows, runKey, manifest, plan, identity, freshId).rows == rows
  {
    hide C.Manifest.Valid, C.Plan.Valid, C.Identity.Valid, C.PreparedIds;
  }

  lemma SamePermutationPreparesIff(h: C.Hashes, rows: C.Rows, runKey: string, manifest: C.Manifest, plan: C.Plan, ids: seq<string>,
                                   identity: C.Identity, freshId: string)
    requires manifest.Valid() && plan.Valid() && identity.Valid() && runKey in rows.cursors
    requires C.CursorMatches(h, rows.cursors[runKey], manifest)
    requires C.PreparedIds(rows, runKey) == {} && freshId !in rows.attempts
    requires multiset(plan.AllIds()) == multiset(ids)
    ensures C.Prepare(h, rows, runKey, manifest, plan, identity, freshId).outcome.Ok?
            <==> C.PlanMatches(h, plan, identity, manifest) && IsNextWork(rows, runKey, manifest, ids)
  {
    PrepareIff(h, rows, runKey, manifest, plan, identity, freshId);
    PermutationFacts(plan.AllIds(), ids);
  }

  lemma ReturnedPlanBindings(settings: P.Settings, digests: P.Digests, version: int, inputs: P.Inputs, group: int, plan: P.UpdatePlan)
    requires settings.Valid() && P.Plan(settings, digests, version, inputs, group).0 == Result.Ok(plan)
    ensures plan.worldSize == group && plan.workManifestDigest == P.WorkDigest(digests, inputs.items)
  {
    PP.ReturnedPlansAreExact(settings, digests, version, inputs, group, plan);
    hide P.Plan;
    BoundToOwnWork(digests, plan, inputs.topology, inputs.items, group);
  }

  lemma BoundToOwnWork(digests: P.Digests, plan: P.UpdatePlan, topology: P.Topology, items: seq<P.WorkItem>, group: int)
    requires P.ValidateUpdatePlan(digests, plan, topology, items, group).None?
    ensures plan.workManifestDigest == P.WorkDigest(digests, items) && plan.worldSize == group
  {
  }

  lemma RefusedArguments(h: C.Hashes, rows: C.Rows, runKey: string, manifest: C.Manifest, plan: C.Plan, identity: C.Identity, freshId: string)
    requires C.Prepare(h, rows, runKey, manifest, plan, identity, freshId).outcome.Ok?
    ensures manifest.Valid() && plan.Valid() && identity.Valid() && runKey in rows.cursors
    ensures C.CursorMatches(h, rows.cursors[runKey], manifest) && C.PreparedIds(rows, runKey) == {} && freshId !in rows.attempts
  {
    hide C.Manifest.Valid, C.Plan.Valid, C.Identity.Valid, C.CursorMatches, C.PreparedIds, C.PlanMatches, C.Plan.AllIds, ToSet;
  }

  lemma NothingPreparedIff(rows: C.Rows, runKey: string)
    ensures C.PreparedIds(rows, runKey) == {}
       <==> forall id :: id in rows.attempts && rows.attempts[id].runKey == runKey ==> rows.attempts[id].status != C.PREPARED
  {
    forall id ensures id in C.PreparedIds(rows, runKey) <==> id in rows.attempts && rows.attempts[id].runKey == runKey && rows.attempts[id].status == C.PREPARED {
    }
  }

  /** Exactly which reservations the ledger accepts: a valid plan bound to this group and to
      the run's manifest, over the next windows in some order, while nothing of the run is
      prepared. */
  lemma PrepareAcceptedIff(h: C.Hashes, rows: C.Rows, runKey: string, manifest: C.Manifest, plan: C.Plan, identity: C.Identity, freshId: string)
    ensures C.Prepare(h, rows, runKey, manifest, plan, identity, freshId).outcome.Ok?
       <==> && manifest.Valid() && plan.Valid() && identity.Valid() && freshId !in rows.attempts
            && plan.worldSize == identity.worldSize && plan.topologyEpoch == identity.topologyEpoch
            && plan.topologyDigest == identity.topologyDigest && plan.workManifestDigest == h.manifest(manifest)
            && runKey in rows.cursors
            && rows.cursors[runKey].datasetCommit == manifest.datasetCommit && rows.cursors[runKey].manifestDigest == h.manifest(manifest)
            && (forall id :: id in rows.attempts && rows.attempts[id].runKey == runKey ==> rows.attempts[id].status != C.PREPARED)
            && IsNextWork(rows, runKey, manifest, plan.AllIds())
  {
    NothingPreparedIff(rows, runKey);
    if C.Prepare(h, rows, runKey, manifest, plan, identity, freshId).outcome.Ok? {
      RefusedArguments(h, rows, runKey, manifest, plan, identity, freshId);
      hide C.Prepare, C.PreparedIds, IsNextWork, C.Manifest.Valid, C.Plan.Valid, C.Identity.Valid;
      PrepareIff(h, rows, runKey, manifest, plan, identity, freshId);
    } else {
      hide C.Prepare, C.PreparedIds, IsNextWork, C.Manifest.Valid, C.Plan.Valid, C.Identity.Valid;
      if manifest.Valid() && plan.Valid() && identity.Valid() && runKey in rows.cursors && C.CursorMatches(h, rows.cursors[runKey], manifest)
         && C.PreparedIds(rows, runKey) == {} && freshId !in rows.attempts {
        PrepareIff(h, rows, runKey, manifest, plan, identity, freshId);
      }
    }
  }
}

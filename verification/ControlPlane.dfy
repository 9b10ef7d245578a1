/** The control plane's byte collectives and the consensus built on them. Each function
    gives the outcome at every rank at once: a rank that raises before a collective leaves
    the ranks already in it waiting. */
module ControlPlane {
  import opened Ordering
  import opened Prelude
  import opened UpdatePlanner

  datatype Outcome<+T> = Raised | Blocked | Returned(value: T)

  const MAX_CONTROL_BYTES := 131072
  const MAX_DIGEST_BYTES := 64
  const DIGEST_BYTES := 32

  // -------------------------------------------------------- padded all-gather

  predicate Sendable(raw: Bytes, maxBytes: int) {
    0 < |raw| <= maxBytes
  }

  function Length(raw: Bytes): int {
    |raw|
  }

  function MaxOf(ns: seq<int>): (m: int)
    requires ns != []
    ensures m in ns && forall n :: n in ns ==> n <= m
  {
    if |ns| == 1 then ns[0]
    else
      var rest := MaxOf(ns[1..]);
      assert ns == [ns[0]] + ns[1..];
      if ns[0] >= rest then ns[0] else rest
  }

  /** A rank's tensor: its bytes, then zeros up to the common size. */
  function Padded(raw: Bytes, size: int): (wire: Bytes)
    requires |raw| <= size
    ensures |wire| == size
  {
    raw + seq(size - |raw|, i => 0)
  }

  /** The wire tensors every rank receives. */
  function Wires(raws: seq<Bytes>): (wires: seq<Bytes>)
    requires raws != []
    ensures |wires| == |raws| && forall r :: 0 <= r < |wires| ==> |wires[r]| == MaxOf(MapSeq(Length, raws))
  {
    var size := MaxOf(MapSeq(Length, raws));
    var lengths := MapSeq(Length, raws);
    assert forall r :: 0 <= r < |raws| ==> lengths[r] in lengths;
    seq(|raws|, r requires 0 <= r < |raws| => Padded(raws[r], size))
  }

  /** `item[:size]` for every gathered tensor. */
  function Trimmed(wires: seq<Bytes>, lengths: seq<int>): (raws: seq<Bytes>)
    requires |wires| == |lengths| && forall r :: 0 <= r < |wires| ==> 0 <= lengths[r] <= |wires[r]|
    ensures |raws| == |wires|
  {
    seq(|wires|, r requires 0 <= r < |wires| => wires[r][..lengths[r]])
  }

  /** `_all_gather_bytes` at every rank of an initialised group, rank `r` sending
      `raws[r]`. */
  function AllGather(raws: seq<Bytes>, maxBytes: int): (out: seq<Outcome<seq<Bytes>>>)
    requires raws != []
    ensures |out| == |raws|
  {
    if exists r :: 0 <= r < |raws| && !Sendable(raws[r], maxBytes) then
      seq(|raws|, r requires 0 <= r < |raws| => if Sendable(raws[r], maxBytes) then Blocked else Raised)
    else
      var lengths := MapSeq(Length, raws);
      assert forall r :: 0 <= r < |raws| ==> lengths[r] in lengths;
      seq(|raws|, r => Returned(Trimmed(Wires(raws), lengths)))
  }

  // ------------------------------------------------------------- consensus

  /** `any(item != digests[0] for item in digests)`, the topology-aware check. */
  predicate DiffersFromFirst(digests: seq<Bytes>)
    requires digests != []
  {
    exists r :: 0 <= r < |digests| && digests[r] != digests[0]
  }

  /** `any(not equal(mine, peer))`, the accumulation planner's check at rank `mine`. */
  predicate DiffersFromMine(digests: seq<Bytes>, mine: nat)
    requires mine < |digests|
  {
    exists r :: 0 <= r < |digests| && digests[r] != digests[mine]
  }

  function FirstCheck(gathered: Outcome<seq<Bytes>>): Outcome<()> {
    match gathered
    case Raised => Raised
    case Blocked => Blocked
    case Returned(digests) => if digests == [] || DiffersFromFirst(digests) then Raised else Returned(())
  }

  /** `_assert_identical_bytes` at every rank, rank `r` holding `received[r]`. */
  function AssertIdentical(digest: Bytes -> Bytes, received: seq<Bytes>): (out: seq<Outcome<()>>)
    requires received != []
    ensures |out| == |received|
  {
    MapSeq(FirstCheck, AllGather(MapSeq(digest, received), MAX_DIGEST_BYTES))
  }

  /** What a rank checks a received plan against: its own topology and work list. */
  datatype RankView = RankView(topology: Topology, items: seq<WorkItem>)

  /** `plan` decodes what `encode`, the canonical JSON of a plan, sends. */
  datatype Codec = Codec(encode: UpdatePlan -> Bytes, plan: Bytes -> Option<UpdatePlan>, digest: Bytes -> Bytes, digests: Digests)

  predicate Accepted(c: Codec, view: RankView, group: int, raw: Bytes) {
    && Sendable(raw, MAX_CONTROL_BYTES)
    && c.plan(raw).Some?
    && ValidateUpdatePlan(c.digests, c.plan(raw).value, view.topology, view.items, group).None?
  }

  /** The receiving half of `broadcast_topology_aware_plan`: rank `r` received
      `received[r]`, whatever the broadcast really delivered. */
  function ReceivePlan(c: Codec, views: seq<RankView>, received: seq<Bytes>): (out: seq<Outcome<UpdatePlan>>)
    requires |views| == |received| > 0
    ensures |out| == |received|
  {
    var group := |received|;
    if exists r :: 0 <= r < group && !Accepted(c, views[r], group, received[r]) then
      seq(group, r requires 0 <= r < group => if Accepted(c, views[r], group, received[r]) then Blocked else Raised)
    else
      var agreed := AssertIdentical(c.digest, received);
      seq(group, r requires 0 <= r < group =>
        match agreed[r]
        case Raised => Raised
        case Blocked => Blocked
        case Returned(_) => Returned(c.plan(received[r]).value))
  }

  /** `broadcast_topology_aware_plan`: rank 0 validates its own plan and encodes it; the
      broadcast delivers these bytes to every rank. */
  function BroadcastPlan(c: Codec, views: seq<RankView>, root: Option<UpdatePlan>): (out: seq<Outcome<UpdatePlan>>)
    requires views != []
    ensures |out| == |views|
  {
    var group := |views|;
    if root.None? || ValidateUpdatePlan(c.digests, root.value, views[0].topology, views[0].items, group).Some?
       || !Sendable(c.encode(root.value), MAX_CONTROL_BYTES) then
      seq(group, r => if r == 0 then Raised else Blocked)
    else
      ReceivePlan(c, views, seq(group, r => c.encode(root.value)))
  }

  // ----------------------------------------------------- topology manifest

  datatype RecordCodec = RecordCodec(encode: TopologyRecord -> Bytes, decode: Bytes -> Option<TopologyRecord>)

  predicate ByRank(a: TopologyRecord, b: TopologyRecord) {
    a.rank <= b.rank
  }

  function DecodeAll(c: RecordCodec, raws: seq<Bytes>): Option<seq<TopologyRecord>> {
    if raws == [] then Some([])
    else
      var first, rest := c.decode(raws[0]), DecodeAll(c, raws[1..]);
      if first.None? || rest.None? then None else Some([first.value] + rest.value)
  }

  /** The manifest rank 0 builds in `gather_topology_manifest` from gathered bytes. */
  function RootManifest(c: RecordCodec, epoch: seq<TopologyRecord> -> string, raws: seq<Bytes>): Option<Topology> {
    var records := DecodeAll(c, raws);
    if records.None? then None
    else
      var ordered := Sort(records.value, ByRank);
      var manifest := Topology(epoch(ordered), |raws|, ordered);
      if manifest.Valid() then Some(manifest) else None
  }

  /** What a rank reads of its own elastic environment. */
  datatype Elastic = Elastic(runId: string, restartCount: string)

  /** The value `_build_epoch` hashes. */
  datatype EpochInput = EpochInput(elastic: Elastic, records: seq<TopologyRecord>)

  datatype ManifestCodec = ManifestCodec(
    record: RecordCodec, encode: Topology -> Bytes, decode: Bytes -> Option<Topology>,
    epoch: EpochInput -> string, digest: Bytes -> Bytes)

  function BuildEpoch(c: ManifestCodec, elastic: Elastic, records: seq<TopologyRecord>): string {
    c.epoch(EpochInput(elastic, Sort(records, ByRank)))
  }

  /** `_build_epoch` in one rank's environment. */
  function EpochIn(c: ManifestCodec, elastic: Elastic): seq<TopologyRecord> -> string {
    (records: seq<TopologyRecord>) => BuildEpoch(c, elastic, records)
  }

  /** What each rank does with the broadcast manifest: decode, validate, rebuild the epoch
      from its own environment. */
  predicate ManifestAccepted(c: ManifestCodec, elastic: Elastic, raw: Bytes) {
    && c.decode(raw).Some? && c.decode(raw).value.Valid()
    && c.decode(raw).value.epoch == BuildEpoch(c, elastic, c.decode(raw).value.ranks)
  }

  /** Ranks that pass wait for the ones that raised. */
  function Stopped<T>(passed: seq<bool>): (out: seq<Outcome<T>>)
    ensures |out| == |passed|
  {
    seq(|passed|, r requires 0 <= r < |passed| => if passed[r] then Blocked else Raised)
  }

  /** The receiving half of `gather_topology_manifest` at every rank, after the broadcast of
      `raw`. */
  function ReceiveManifest(c: ManifestCodec, elastics: seq<Elastic>, raw: Bytes): (out: seq<Outcome<Topology>>)
    requires elastics != []
    ensures |out| == |elastics|
  {
    if exists r :: 0 <= r < |elastics| && !ManifestAccepted(c, elastics[r], raw) then
      Stopped(seq(|elastics|, r requires 0 <= r < |elastics| => ManifestAccepted(c, elastics[r], raw)))
    else
      assert ManifestAccepted(c, elastics[0], raw);
      var agreed := AssertIdentical(c.digest, seq(|elastics|, r => raw));
      seq(|elastics|, r requires 0 <= r < |elastics| =>
        match agreed[r]
        case Raised => Raised
        case Blocked => Blocked
        case Returned(_) => Returned(c.decode(raw).value))
  }

  /** A rank's record names the rank and is valid. */
  predicate OwnRecordOk(records: seq<TopologyRecord>, r: nat)
    requires r < |records|
  {
    records[r].rank == r && records[r].Valid()
  }

  /** `gather_topology_manifest` at every rank, rank `r` in environment `elastics[r]`
      holding record `records[r]`. */
  function GatherManifest(c: ManifestCodec, elastics: seq<Elastic>, records: seq<TopologyRecord>): (out: seq<Outcome<Topology>>)
    requires |elastics| == |records| > 0
    ensures |out| == |records|
  {
    var n := |records|;
    var raws := MapSeq(c.record.encode, records);
    if exists r :: 0 <= r < n && !OwnRecordOk(records, r) then
      Stopped(seq(n, r requires 0 <= r < n => OwnRecordOk(records, r)))
    else if exists r :: 0 <= r < n && !Sendable(raws[r], MAX_CONTROL_BYTES) then
      Stopped(seq(n, r requires 0 <= r < n => Sendable(raws[r], MAX_CONTROL_BYTES)))
    else
      var root := RootManifest(c.record, EpochIn(c, elastics[0]), raws);
      if root.None? || !Sendable(c.encode(root.value), MAX_CONTROL_BYTES) then Stopped(seq(n, r => r != 0))
      else ReceiveManifest(c, elastics, c.encode(root.value))
  }
}

/** What holds of the ring after every sequence of operations. */
module RingRuns {
  import opened Prelude
  import opened Ring

  datatype Op<T> = OpPush(item: T) | OpPop | OpDrain | OpClose

  function Step<T>(h: History<T>, op: Op<T>): (after: History<T>)
    requires h.Valid()
    ensures after.Valid()
  {
    match op
    case OpPush(item) => Push(h, item)
    case OpPop => Pop(h).1
    case OpDrain => Drain(h, None).1
    case OpClose => h.(closed := true)
  }

  function Run<T>(capacity: nat, ops: seq<Op<T>>): (h: History<T>)
    requires capacity >= 2
    ensures h.Valid()
  {
    if ops == [] then Empty(capacity) else Step(Run(capacity, ops[..|ops| - 1]), ops[|ops| - 1])
  }

  // ------------------------------------------------------------------ drain

  /** Draining delivers everything that was queued and returns the newest item, that is
      the last one accepted; it returns nothing exactly when nothing was queued. */
  lemma {:induction false} DrainTakesAllAndReturnsNewest<T>(h: History<T>, newest: Option<T>)
    requires h.Valid()
    ensures Drain(h, newest).0 == if h.Queue() == [] then newest else Some(h.accepted[|h.accepted| - 1])
    ensures Drain(h, newest).1 == h.(delivered := h.delivered + seq(|h.Queue()|, i => true))
    ensures Drain(h, newest).1.Queue() == []
    decreases |h.accepted| - |h.delivered|
  {
    var (item, rest) := Pop(h);
    if item.Some? {
      DrainTakesAllAndReturnsNewest(rest, item);
      assert h.delivered + seq(|h.Queue()|, i => true) == rest.delivered + seq(|rest.Queue()|, i => true);
    }
  }

  // -------------------------------------------------- bounded drop-oldest FIFO

  /** The reference queue: pushing onto a full one discards its oldest item. */
  function FifoPush<T>(queue: seq<T>, capacity: nat, item: T): seq<T> {
    (if |queue| == capacity && queue != [] then queue[1..] else queue) + [item]
  }

  function FifoStep<T>(queue: seq<T>, closed: bool, capacity: nat, op: Op<T>): seq<T> {
    match op
    case OpPush(item) => if closed then queue else FifoPush(queue, capacity, item)
    case OpPop => if queue == [] then [] else queue[1..]
    case OpDrain => []
    case OpClose => queue
  }

  /** Every operation on the ring does to its live window what the reference queue does. */
  lemma RefinesDropOldestFifo<T>(h: History<T>, op: Op<T>)
    requires h.Valid()
    ensures Step(h, op).Queue() == FifoStep(h.Queue(), h.closed, h.capacity, op)
    ensures op.OpPop? ==> Pop(h).0 == if h.Queue() == [] then None else Some(h.Queue()[0])
    ensures |Step(h, op).Queue()| <= h.capacity && Step(h, op).capacity == h.capacity
    ensures Step(h, op).closed <==> h.closed || op.OpClose?
  {
    if op.OpDrain? { DrainTakesAllAndReturnsNewest(h, None); }
  }

  // ------------------------------------------------------------- conservation

  /** The accepted items that were delivered, in the order they were accepted. */
  function Selected<T>(items: seq<T>, keep: seq<bool>): seq<T>
    requires |keep| <= |items|
  {
    if keep == [] then []
    else
      var last := |keep| - 1;
      Selected(items, keep[..last]) + if keep[last] then [items[last]] else []
  }

  /** Items handed to the consumer by one operation: one by a pop, all by a drain. */
  function Handed<T>(h: History<T>, op: Op<T>): seq<T>
    requires h.Valid()
  {
    match op
    case OpPop => if Pop(h).0.Some? then [Pop(h).0.value] else []
    case OpDrain => h.Queue()
    case OpPush(_) => []
    case OpClose => []
  }

  function AllHanded<T>(capacity: nat, ops: seq<Op<T>>): seq<T>
    requires capacity >= 2
  {
    if ops == [] then []
    else AllHanded(capacity, ops[..|ops| - 1]) + Handed(Run(capacity, ops[..|ops| - 1]), ops[|ops| - 1])
  }

  lemma {:induction false} SelectedIgnoresLater<T>(items: seq<T>, more: seq<T>, keep: seq<bool>)
    requires |keep| <= |items|
    ensures Selected(items + more, keep) == Selected(items, keep)
  {
    if keep != [] { SelectedIgnoresLater(items, more, keep[..|keep| - 1]); }
  }

  lemma SelectedSnoc<T>(items: seq<T>, keep: seq<bool>, k: bool)
    requires |keep| < |items|
    ensures Selected(items, keep + [k]) == Selected(items, keep) + if k then [items[|keep|]] else []
  {
  }

  lemma {:induction false} SelectedAll<T>(items: seq<T>, keep: seq<bool>, n: nat)
    requires |keep| + n <= |items|
    ensures Selected(items, keep + seq(n, i => true)) == Selected(items, keep) + items[|keep|..|keep| + n]
  {
    if n == 0 {
      assert keep + seq(n, i => true) == keep;
    } else {
      SelectedAll(items, keep, n - 1);
      var shorter := keep + seq(n - 1, i => true);
      assert keep + seq(n, i => true) == shorter + [true];
      SelectedSnoc(items, shorter, true);
    }
  }

  lemma StepHandsOver<T>(h: History<T>, op: Op<T>)
    requires h.Valid()
    ensures Selected(Step(h, op).accepted, Step(h, op).delivered) == Selected(h.accepted, h.delivered) + Handed(h, op)
  {
    hide Selected;
    match op
    case OpPush(item) =>
      SelectedIgnoresLater(h.accepted, [item], h.delivered);
      if |h.Queue()| == h.capacity { SelectedSnoc(h.accepted + [item], h.delivered, false); }
    case OpPop =>
      if h.Queue() != [] { SelectedSnoc(h.accepted, h.delivered, true); }
    case OpDrain =>
      DrainTakesAllAndReturnsNewest(h, None);
      SelectedAll(h.accepted, h.delivered, |h.Queue()|);
    case OpClose =>
  }

  /** In any run the consumer receives exactly the items marked delivered: an in-order
      selection of the accepted ones. */
  lemma {:induction false} ConsumerSeesSelection<T>(capacity: nat, ops: seq<Op<T>>)
    requires capacity >= 2
    ensures var h := Run(capacity, ops);
            AllHanded(capacity, ops) == Selected(h.accepted, h.delivered)
  {
    if ops != [] {
      hide Step, Handed;
      ConsumerSeesSelection(capacity, ops[..|ops| - 1]);
      StepHandsOver(Run(capacity, ops[..|ops| - 1]), ops[|ops| - 1]);
    } else {
      assert Selected(Empty<T>(capacity).accepted, []) == [];
    }
  }

  lemma {:induction false} SelectedCount<T>(items: seq<T>, keep: seq<bool>)
    requires |keep| <= |items|
    ensures |Selected(items, keep)| + Drops(keep) == |keep|
  {
    if keep != [] { SelectedCount(items, keep[..|keep| - 1]); }
  }

  /** Conservation: accepted items are handed over, dropped or still queued. */
  lemma NothingIsLost<T>(capacity: nat, ops: seq<Op<T>>)
    requires capacity >= 2
    ensures var h := Run(capacity, ops);
            |h.accepted| == |AllHanded(capacity, ops)| + Drops(h.delivered) + |h.Queue()|
  {
    var h := Run(capacity, ops);
    ConsumerSeesSelection(capacity, ops);
    SelectedCount(h.accepted, h.delivered);
  }

  // ------------------------------------------------------------- who is dropped

  /** An item is dropped only once `capacity` newer ones have been accepted, so what a
      slow consumer loses is always stale. */
  lemma {:induction false} OnlyOvertakenItemsDrop<T>(capacity: nat, ops: seq<Op<T>>, i: nat)
    requires capacity >= 2
    requires i < |Run(capacity, ops).delivered| && !Run(capacity, ops).delivered[i]
    ensures i + capacity < |Run(capacity, ops).accepted|
  {
    RunKeepsCapacity(capacity, ops);
    if ops != [] {
      var before := ops[..|ops| - 1];
      var h, op := Run(capacity, before), ops[|ops| - 1];
      RunKeepsCapacity(capacity, before);
      if op.OpDrain? { DrainTakesAllAndReturnsNewest(h, None); }
      if i < |h.delivered| { OnlyOvertakenItemsDrop(capacity, before, i); }
    }
  }

  lemma {:induction false} RunKeepsCapacity<T>(capacity: nat, ops: seq<Op<T>>)
    requires capacity >= 2
    ensures Run(capacity, ops).capacity == capacity
  {
    if ops != [] {
      RunKeepsCapacity(capacity, ops[..|ops| - 1]);
      DrainTakesAllAndReturnsNewest(Run(capacity, ops[..|ops| - 1]), None);
    }
  }
}

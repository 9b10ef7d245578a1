/** The bounded drop-oldest ring between a producer and a consumer, one operation at a
    time. Items are never None, as `drain_latest` assumes. */
module Ring {
  import opened Prelude

  // ---------------------------------------------------------- specification

  /** What the ring has been through: the items accepted so far, and for each item that
      has left, in order, whether it was delivered (or dropped). */
  datatype History<T> = History(capacity: nat, accepted: seq<T>, delivered: seq<bool>, closed: bool) {
    predicate Valid() {
      2 <= capacity && |delivered| <= |accepted| <= |delivered| + capacity
    }

    function Queue(): seq<T>
      requires Valid()
    {
      accepted[|delivered|..]
    }
  }

  function Empty<T>(capacity: nat): History<T> {
    History(capacity, [], [], false)
  }

  function Push<T>(h: History<T>, item: T): (after: History<T>)
    requires h.Valid()
    ensures after.Valid()
  {
    if h.closed then h
    else if |h.Queue()| == h.capacity then h.(delivered := h.delivered + [false], accepted := h.accepted + [item])
    else h.(accepted := h.accepted + [item])
  }

  function Pop<T>(h: History<T>): (r: (Option<T>, History<T>))
    requires h.Valid()
    ensures r.1.Valid()
  {
    if h.Queue() == [] then (None, h) else (Some(h.Queue()[0]), h.(delivered := h.delivered + [true]))
  }

  /** `drain_latest`: pop until nothing is left, keeping the last item. */
  function Drain<T>(h: History<T>, newest: Option<T>): (r: (Option<T>, History<T>))
    requires h.Valid()
    ensures r.1.Valid()
    decreases |h.accepted| - |h.delivered|
  {
    var (item, rest) := Pop(h);
    if item.None? then (newest, rest) else Drain(rest, item)
  }

  function Drops(delivered: seq<bool>): nat {
    if delivered == [] then 0 else Drops(delivered[..|delivered| - 1]) + if delivered[|delivered| - 1] then 0 else 1
  }

  // ------------------------------------------------------------------- class

  lemma SlotsDiffer(i: nat, j: nat, n: nat)
    requires 0 < n && i < j < i + n
    ensures i % n != j % n
  {
    var d := j / n - i / n;
    assert j - i == n * d + (j % n - i % n);
    assert d <= 0 ==> n * d <= 0;
    assert d >= 1 ==> n * d >= n;
  }

  lemma WrapsAround(i: nat, n: nat)
    requires n > 0
    ensures (i + n) % n == i % n
  {
    var d := (i + n) / n - i / n;
    assert n == n * d + ((i + n) % n - i % n);
    assert d <= 0 ==> n * d <= 0;
    assert d >= 2 ==> n * d >= n + n;
  }

  /** `SPSCRing` */
  class SPSCRing<T> {
    const slots: array<Option<T>>
    var head: nat
    var tail: nat
    var dropped: nat
    var closed: bool
    ghost var history: History<T>

    ghost predicate Valid()
      reads this, slots
    {
      && history.Valid() && history.capacity == slots.Length && history.closed == closed
      && head == |history.accepted| && tail == |history.delivered| && dropped == Drops(history.delivered)
      && (forall i :: tail <= i < head ==> slots[i % slots.Length] == Some(history.accepted[i]))
      && (forall i :: head <= i < tail + slots.Length ==> slots[i % slots.Length] == None)
    }

    constructor (capacity: nat)
      requires capacity >= 2
      ensures Valid() && fresh(slots) && history == Empty(capacity)
    {
      slots := new Option<T>[capacity](i => None);
      head, tail, dropped, closed := 0, 0, 0, false;
      history := Empty(capacity);
    }

    method PushItem(item: T) returns (ok: bool)
      requires Valid()
      modifies this, slots
      ensures Valid() && history == Push(old(history), item)
      ensures ok == !old(closed)
    {
      if closed {
        return false;
      }
      if head - tail >= slots.Length {
        DropOldest();
      }
      Append(item);
      ok := true;
    }

    method DropOldest()
      requires Valid() && head - tail == slots.Length
      modifies this, slots
      ensures Valid() && history == old(history).(delivered := old(history).delivered + [false])
      ensures closed == old(closed)
    {
      slots[tail % slots.Length] := None;
      LeaveSlot(tail, slots.Length);
      assert (history.delivered + [false])[..tail] == history.delivered;
      tail := tail + 1;
      dropped := dropped + 1;
      history := history.(delivered := history.delivered + [false]);
    }

    method Append(item: T)
      requires Valid() && head - tail < slots.Length
      modifies this`head, this`history, slots
      ensures Valid() && history == old(history).(accepted := old(history).accepted + [item])
    {
      slots[head % slots.Length] := Some(item);
      EnterSlot(tail, head, slots.Length);
      head := head + 1;
      history := history.(accepted := history.accepted + [item]);
    }

    method PopItem() returns (item: Option<T>)
      requires Valid()
      modifies this, slots
      ensures Valid() && (item, history) == Pop(old(history))
      ensures closed == old(closed)
    {
      if tail >= head {
        return None;
      }
      var index := tail % slots.Length;
      item := slots[index];
      slots[index] := None;
      LeaveSlot(tail, slots.Length);
      assert (history.delivered + [true])[..tail] == history.delivered;
      tail := tail + 1;
      history := history.(delivered := history.delivered + [true]);
    }

    method DrainLatest() returns (newest: Option<T>)
      requires Valid()
      modifies this, slots
      ensures Valid() && (newest, history) == Drain(old(history), None)
    {
      newest := None;
      ghost var before := history;
      while true
        invariant Valid()
        invariant Drain(before, None) == Drain(history, newest)
        decreases |history.accepted| - |history.delivered|
      {
        var item := PopItem();
        if item.None? {
          return;
        }
        newest := item;
      }
    }

    method Close()
      requires Valid()
      modifies this
      ensures Valid() && history == old(history).(closed := true)
    {
      closed := true;
      history := history.(closed := true);
    }
  }

  /** No other live or free position shares the slot of the oldest item. */
  lemma LeaveSlot(tail: nat, n: nat)
    requires n > 0
    ensures forall i :: tail < i < tail + n ==> i % n != tail % n
    ensures (tail + n) % n == tail % n
  {
    WrapsAround(tail, n);
    forall i | tail < i < tail + n ensures i % n != tail % n { SlotsDiffer(tail, i, n); }
  }

  lemma EnterSlot(tail: nat, head: nat, n: nat)
    requires n > 0 && tail <= head < tail + n
    ensures forall i :: tail <= i < tail + n && i != head ==> i % n != head % n
  {
    forall i | tail <= i < tail + n && i != head ensures i % n != head % n {
      if i < head { SlotsDiffer(i, head, n); } else { SlotsDiffer(head, i, n); }
    }
  }
}

/**
 * The bounded, non-blocking FIFO work queue of `src/utils/in_memory_queue.py`.
 *
 * `Queue<T>` is the object: a buffer (`items`, the deque), its capacity, the two
 * monotone counters and the `closed` flag, updated in place by its methods.
 * `QueueState<T>` with the `On...` functions is the same machine on values; every
 * method's postcondition ties the new object state to the corresponding function,
 * and the lemmas about `Run` state what holds over whole sequences of calls.
 */
module InMemoryQueue {
  import opened Base

  /** Why an enqueue was refused (`QueueFullError`) or a dequeue found nothing (`QueueEmptyError`);
      the two cases of each carry the two messages the source raises with. */
  datatype FullReason = ClosedQueue | AtCapacity
  datatype EmptyReason = ClosedAndEmpty | NoItems
  datatype QueueError = QueueFullError(full: FullReason) | QueueEmptyError(empty: EmptyReason)

  /** The outcome of a dequeue: the head item, or the error raised. */
  datatype Removed<T> = Item(value: T) | Raised(error: QueueError)

  /** The queue's state as a value. */
  datatype QueueState<T> = QueueState(
    items: seq<T>,
    maxSize: nat,
    totalEnqueued: nat,
    totalDequeued: nat,
    closed: bool)

  /** What `get_statistics` reports (the float `last_operation_time` is not modelled). */
  datatype Statistics = Statistics(
    name: string,
    currentSize: nat,
    maxSize: nat,
    totalEnqueued: nat,
    totalDequeued: nat,
    isFull: bool,
    isEmpty: bool,
    isClosed: bool)

  // ---------------------------------------------------------------------------
  // The machine on values
  // ---------------------------------------------------------------------------

  function Init<T>(maxSize: nat): QueueState<T> {
    QueueState([], maxSize, 0, 0, false)
  }

  /** `enqueue`: refused when closed (checked first) or when the buffer holds
      `max_size` items or more; otherwise the item goes to the tail. */
  function OnEnqueue<T>(s: QueueState<T>, x: T): (QueueState<T>, Option<QueueError>) {
    if s.closed then (s, Some(QueueFullError(ClosedQueue)))
    else if |s.items| >= s.maxSize then (s, Some(QueueFullError(AtCapacity)))
    else (s.(items := s.items + [x], totalEnqueued := s.totalEnqueued + 1), None)
  }

  /** `dequeue`: an empty buffer raises, closed or not; otherwise the head leaves. */
  function OnDequeue<T>(s: QueueState<T>): (QueueState<T>, Removed<T>) {
    if s.closed && |s.items| == 0 then (s, Raised(QueueEmptyError(ClosedAndEmpty)))
    else if |s.items| == 0 then (s, Raised(QueueEmptyError(NoItems)))
    else (s.(items := s.items[1..], totalDequeued := s.totalDequeued + 1), Item(s.items[0]))
  }

  /** `peek`: the head, or `None`. */
  function OnPeek<T>(s: QueueState<T>): Option<T> {
    if |s.items| > 0 then Some(s.items[0]) else None
  }

  /** `clear`: the buffer is emptied; the counters are not touched. */
  function OnClear<T>(s: QueueState<T>): QueueState<T> {
    s.(items := [])
  }

  /** `close`: only the flag changes. */
  function OnClose<T>(s: QueueState<T>): QueueState<T> {
    s.(closed := true)
  }

  function StatisticsOf<T>(name: string, s: QueueState<T>): Statistics {
    Statistics(name, |s.items|, s.maxSize, s.totalEnqueued, s.totalDequeued,
               |s.items| == s.maxSize, |s.items| == 0, s.closed)
  }

  /** The bookkeeping identity `current_size == total_enqueued - total_dequeued`. */
  predicate Balanced<T>(s: QueueState<T>) {
    |s.items| + s.totalDequeued == s.totalEnqueued
  }

  // ---------------------------------------------------------------------------
  // Sequences of calls
  // ---------------------------------------------------------------------------

  datatype Op<T> = Push(x: T) | Pop | Look | Clear | Close

  /** What one call reports to its caller. */
  datatype Event<T> =
    | Accepted(x: T)
    | Refused(error: QueueError)
    | Delivered(x: T)
    | Missing(error: QueueError)
    | Head(head: Option<T>)
    | Emptied
    | Shut

  function Apply<T>(s: QueueState<T>, op: Op<T>): (QueueState<T>, Event<T>) {
    match op
    case Push(x) =>
      var (s', err) := OnEnqueue(s, x);
      (s', if err.Some? then Refused(err.value) else Accepted(x))
    case Pop =>
      var (s', out) := OnDequeue(s);
      (s', if out.Item? then Delivered(out.value) else Missing(out.error))
    case Look => (s, Head(OnPeek(s)))
    case Clear => (OnClear(s), Emptied)
    case Close => (OnClose(s), Shut)
  }

  /** The state after `ops` and the events they report, in order. */
  function Run<T>(s: QueueState<T>, ops: seq<Op<T>>): (r: (QueueState<T>, seq<Event<T>>))
    ensures |r.1| == |ops|
    decreases |ops|
  {
    if ops == [] then (s, [])
    else
      var (s1, e) := Apply(s, ops[0]);
      var (s2, es) := Run(s1, ops[1..]);
      (s2, [e] + es)
  }

  /** The item an event reports as accepted, or as delivered. */
  function AcceptedBy<T>(e: Event<T>): seq<T> {
    if e.Accepted? then [e.x] else []
  }

  function DeliveredBy<T>(e: Event<T>): seq<T> {
    if e.Delivered? then [e.x] else []
  }

  /** The items whose enqueue succeeded, in call order. */
  function AcceptedItems<T>(es: seq<Event<T>>): seq<T> {
    if es == [] then [] else AcceptedBy(es[0]) + AcceptedItems(es[1..])
  }

  /** The items handed out by successful dequeues, in call order. */
  function DeliveredItems<T>(es: seq<Event<T>>): seq<T> {
    if es == [] then [] else DeliveredBy(es[0]) + DeliveredItems(es[1..])
  }

  predicate NoClear<T>(ops: seq<Op<T>>) {
    forall i :: 0 <= i < |ops| ==> !ops[i].Clear?
  }

  /** One call other than `clear` keeps `buffered + accepted == delivered + buffered'`. */
  lemma ApplyIsFifo<T>(s: QueueState<T>, op: Op<T>)
    requires !op.Clear?
    ensures var (s1, e) := Apply(s, op);
            s.items + AcceptedBy(e) == DeliveredBy(e) + s1.items
  {
    var (s1, e) := Apply(s, op);
    if e.Delivered? {
      assert s.items == [s.items[0]] + s.items[1..];
    }
  }

  /** FIFO: without `clear`, what was buffered plus what was accepted equals what was
      handed out plus what is still buffered, so items leave exactly in the order they came. */
  lemma {:induction false} RunIsFifo<T>(s: QueueState<T>, ops: seq<Op<T>>)
    requires NoClear(ops)
    ensures s.items + AcceptedItems(Run(s, ops).1) == DeliveredItems(Run(s, ops).1) + Run(s, ops).0.items
    decreases |ops|
  {
    if ops != [] {
      var (s1, e) := Apply(s, ops[0]);
      var (s2, es) := Run(s1, ops[1..]);
      assert NoClear(ops[1..]) by {
        forall i | 0 <= i < |ops[1..]| ensures !ops[1..][i].Clear? { assert ops[1..][i] == ops[i + 1]; }
      }
      RunIsFifo(s1, ops[1..]);
      ApplyIsFifo(s, ops[0]);
      assert Run(s, ops) == (s2, [e] + es);
      assert ([e] + es)[1..] == es;
      calc {
        s.items + AcceptedItems([e] + es);
        s.items + (AcceptedBy(e) + AcceptedItems(es));
        (s.items + AcceptedBy(e)) + AcceptedItems(es);
        (DeliveredBy(e) + s1.items) + AcceptedItems(es);
        DeliveredBy(e) + (s1.items + AcceptedItems(es));
        DeliveredBy(e) + (DeliveredItems(es) + s2.items);
        (DeliveredBy(e) + DeliveredItems(es)) + s2.items;
        DeliveredItems([e] + es) + s2.items;
      }
    }
  }

  /** Items delivered are a prefix of the items buffered or accepted: dequeue order is enqueue order. */
  lemma DeliveredIsPrefix<T>(s: QueueState<T>, ops: seq<Op<T>>)
    requires NoClear(ops)
    ensures var es := Run(s, ops).1;
            DeliveredItems(es) <= s.items + AcceptedItems(es)
  {
    RunIsFifo(s, ops);
  }

  /** The counters count exactly the successful calls, whatever the calls were (clear included). */
  lemma {:induction false} RunCounters<T>(s: QueueState<T>, ops: seq<Op<T>>)
    ensures Run(s, ops).0.totalEnqueued == s.totalEnqueued + |AcceptedItems(Run(s, ops).1)|
    ensures Run(s, ops).0.totalDequeued == s.totalDequeued + |DeliveredItems(Run(s, ops).1)|
    ensures Run(s, ops).0.maxSize == s.maxSize
    decreases |ops|
  {
    if ops != [] {
      var (s1, e) := Apply(s, ops[0]);
      var (s2, es) := Run(s1, ops[1..]);
      RunCounters(s1, ops[1..]);
      assert ([e] + es)[1..] == es;
    }
  }

  /** No sequence of calls overfills the buffer. */
  lemma {:induction false} RunKeepsCapacity<T>(s: QueueState<T>, ops: seq<Op<T>>)
    requires |s.items| <= s.maxSize
    ensures |Run(s, ops).0.items| <= s.maxSize
    decreases |ops|
  {
    if ops != [] {
      var (s1, e) := Apply(s, ops[0]);
      RunCounters(s1, ops[1..]);
      RunKeepsCapacity(s1, ops[1..]);
    }
  }

  /** `current_size == total_enqueued - total_dequeued` holds after any clear-free sequence of
      calls that starts from a state where it holds (in particular from a fresh queue). */
  lemma RunKeepsBalance<T>(s: QueueState<T>, ops: seq<Op<T>>)
    requires Balanced(s) && NoClear(ops)
    ensures Balanced(Run(s, ops).0)
  {
    RunIsFifo(s, ops);
    RunCounters(s, ops);
  }

  /** ... and `clear` is the one call that breaks it: buffered items vanish uncounted. */
  lemma ClearBreaksBalance<T>(s: QueueState<T>)
    requires Balanced(s) && |s.items| > 0
    ensures !Balanced(Apply(s, Clear).0)
    ensures Apply(s, Clear).0.totalEnqueued == s.totalEnqueued
    ensures Apply(s, Clear).0.totalDequeued == s.totalDequeued
  {
  }

  /** Once closed, a queue stays closed and accepts nothing. */
  lemma {:induction false} ClosedAcceptsNothing<T>(s: QueueState<T>, ops: seq<Op<T>>)
    requires s.closed
    ensures Run(s, ops).0.closed
    ensures AcceptedItems(Run(s, ops).1) == []
    ensures forall i :: 0 <= i < |ops| && ops[i].Push? ==> Run(s, ops).1[i] == Refused(QueueFullError(ClosedQueue))
    decreases |ops|
  {
    if ops != [] {
      var (s1, e) := Apply(s, ops[0]);
      var (s2, es) := Run(s1, ops[1..]);
      ClosedAcceptsNothing(s1, ops[1..]);
      assert ([e] + es)[1..] == es;
      forall i | 0 <= i < |ops| && ops[i].Push?
        ensures Run(s, ops).1[i] == Refused(QueueFullError(ClosedQueue))
      {
        if i > 0 { assert ops[1..][i - 1] == ops[i]; }
      }
    }
  }

  /** `k` dequeues in a row. */
  function Pops<T>(k: nat): (ops: seq<Op<T>>)
    ensures |ops| == k && NoClear(ops)
  {
    if k == 0 then [] else [Pop] + Pops(k - 1)
  }

  /** `Push(x)` for each `x`, in order. */
  function Pushes<T>(xs: seq<T>): (ops: seq<Op<T>>)
    ensures |ops| == |xs| && NoClear(ops)
  {
    if xs == [] then [] else [Push(xs[0])] + Pushes(xs[1..])
  }

  /** Draining a closed queue: the first `|items|` dequeues deliver the buffered items in
      order, and every later one raises `QueueEmptyError` with the closed-and-empty message. */
  lemma {:induction false} DrainClosed<T>(s: QueueState<T>, k: nat)
    requires s.closed
    ensures var (s', es) := Run(s, Pops<T>(k));
            |es| == k &&
            (forall i :: 0 <= i < k && i < |s.items| ==> es[i] == Delivered(s.items[i])) &&
            (forall i :: |s.items| <= i < k ==> es[i] == Missing(QueueEmptyError(ClosedAndEmpty))) &&
            s'.items == s.items[Min(k, |s.items|)..]
    decreases k
  {
    if k > 0 {
      var (s1, e) := Apply(s, Pop);
      assert Pops<T>(k)[0] == Pop && Pops<T>(k)[1..] == Pops<T>(k - 1);
      DrainClosed(s1, k - 1);
      var (s2, es) := Run(s1, Pops<T>(k - 1));
      assert Run(s, Pops<T>(k)).1 == [e] + es;
      if |s.items| > 0 {
        assert s1.items == s.items[1..];
        forall i | 1 <= i < k && i < |s.items| ensures ([e] + es)[i] == Delivered(s.items[i]) {
          assert s1.items[i - 1] == s.items[i];
        }
        assert s.items[1..][Min(k - 1, |s.items| - 1)..] == s.items[Min(k, |s.items|)..];
      }
    }
  }

  /** Filling a fresh queue of capacity `n` with `n + 1` items: the first `n` are accepted
      and the last is refused as full. */
  lemma {:induction false} OverfillFresh<T>(xs: seq<T>, n: nat)
    requires |xs| == n + 1
    ensures var (s', es) := Run(Init<T>(n), Pushes(xs));
            (forall i :: 0 <= i < n ==> es[i] == Accepted(xs[i])) &&
            es[n] == Refused(QueueFullError(AtCapacity)) &&
            s'.items == xs[..n]
  {
    FillOpen(QueueState([], n, 0, 0, false), xs);
  }

  lemma {:induction false} FillOpen<T>(s: QueueState<T>, xs: seq<T>)
    requires !s.closed && |s.items| <= s.maxSize && |s.items| + |xs| == s.maxSize + 1
    ensures var (s', es) := Run(s, Pushes(xs));
            |es| == |xs| &&
            (forall i :: 0 <= i < |xs| - 1 ==> es[i] == Accepted(xs[i])) &&
            es[|xs| - 1] == Refused(QueueFullError(AtCapacity)) &&
            s'.items == s.items + xs[..|xs| - 1] && !s'.closed
    decreases |xs|
  {
    var ops := Pushes(xs);
    assert ops[0] == Push(xs[0]) && ops[1..] == Pushes(xs[1..]);
    var (s1, e) := Apply(s, ops[0]);
    if |xs| == 1 {
      assert |s.items| == s.maxSize;
      assert xs[..0] == [];
    } else {
      assert s1.items == s.items + [xs[0]];
      FillOpen(s1, xs[1..]);
      var (s2, es) := Run(s1, ops[1..]);
      assert Run(s, ops).1 == [e] + es;
      forall i | 1 <= i < |xs| - 1 ensures ([e] + es)[i] == Accepted(xs[i]) {
        assert xs[1..][i - 1] == xs[i];
      }
      assert xs[1..][..|xs| - 2] == xs[1..|xs| - 1];
      assert s.items + [xs[0]] + xs[1..|xs| - 1] == s.items + xs[..|xs| - 1];
    }
  }

  // ---------------------------------------------------------------------------
  // The object
  // ---------------------------------------------------------------------------

  class Queue<T> {
    var items: seq<T>
    const maxSize: nat
    const name: string
    var totalEnqueued: nat
    var totalDequeued: nat
    var closed: bool

    ghost predicate Valid()
      reads this
    {
      |items| <= maxSize
    }

    function State(): QueueState<T>
      reads this
    {
      QueueState(items, maxSize, totalEnqueued, totalDequeued, closed)
    }

    /** A fresh, empty, open queue with zeroed counters. */
    constructor (maxSize: nat, name: string)
      ensures Valid()
      ensures State() == Init(maxSize) && this.name == name
    {
      this.maxSize := maxSize;
      this.name := name;
      items, totalEnqueued, totalDequeued, closed := [], 0, 0, false;
    }

    method Enqueue(x: T) returns (err: Option<QueueError>)
      requires Valid()
      modifies this
      ensures Valid()
      ensures (State(), err) == OnEnqueue(old(State()), x)
      ensures err == None <==> !old(closed) && |old(items)| < maxSize
      ensures err == None ==> items == old(items) + [x] && totalEnqueued == old(totalEnqueued) + 1
      ensures err != None ==> State() == old(State())
      ensures totalDequeued == old(totalDequeued) && closed == old(closed)
    {
      if closed {
        return Some(QueueFullError(ClosedQueue));
      }
      if |items| >= maxSize {
        return Some(QueueFullError(AtCapacity));
      }
      items := items + [x];
      totalEnqueued := totalEnqueued + 1;
      err := None;
    }

    method Dequeue() returns (r: Removed<T>)
      requires Valid()
      modifies this
      ensures Valid()
      ensures (State(), r) == OnDequeue(old(State()))
      ensures r.Item? <==> |old(items)| > 0
      ensures r.Item? ==> r.value == old(items)[0] && items == old(items)[1..]
                          && totalDequeued == old(totalDequeued) + 1
      ensures r.Raised? ==> State() == old(State())
      ensures totalEnqueued == old(totalEnqueued) && closed == old(closed)
    {
      if closed && |items| == 0 {
        return Raised(QueueEmptyError(ClosedAndEmpty));
      }
      if |items| == 0 {
        return Raised(QueueEmptyError(NoItems));
      }
      r := Item(items[0]);
      items := items[1..];
      totalDequeued := totalDequeued + 1;
    }

    method Peek() returns (head: Option<T>)
      ensures head == OnPeek(State())
      ensures head.Some? <==> |items| > 0
      ensures head.Some? ==> head.value == items[0]
    {
      head := if |items| > 0 then Some(items[0]) else None;
    }

    method Clear()
      requires Valid()
      modifies this
      ensures Valid()
      ensures State() == OnClear(old(State()))
      ensures items == [] && totalEnqueued == old(totalEnqueued)
      ensures totalDequeued == old(totalDequeued) && closed == old(closed)
    {
      items := [];
    }

    method Close()
      requires Valid()
      modifies this
      ensures Valid()
      ensures State() == OnClose(old(State()))
      ensures closed && items == old(items)
      ensures totalEnqueued == old(totalEnqueued) && totalDequeued == old(totalDequeued)
    {
      closed := true;
    }

    method GetStatistics() returns (stats: Statistics)
      ensures stats == StatisticsOf(name, State())
      ensures stats.currentSize == |items| && stats.maxSize == maxSize
      ensures stats.isFull <==> |items| == maxSize
      ensures stats.isEmpty <==> |items| == 0
    {
      stats := Statistics(name, |items|, maxSize, totalEnqueued, totalDequeued,
                          |items| == maxSize, |items| == 0, closed);
    }

    /** Iterating the queue (`__aiter__`): dequeue until `QueueEmptyError`, yielding each item. */
    method Drain() returns (xs: seq<T>)
      requires Valid()
      modifies this
      ensures Valid()
      ensures xs == old(items) && items == []
      ensures totalDequeued == old(totalDequeued) + |xs|
      ensures totalEnqueued == old(totalEnqueued) && closed == old(closed)
    {
      xs := [];
      while true
        invariant Valid()
        invariant old(items) == xs + items
        invariant totalDequeued == old(totalDequeued) + |xs|
        invariant totalEnqueued == old(totalEnqueued) && closed == old(closed)
        decreases |items|
      {
        var r := Dequeue();
        if r.Raised? {
          break;
        }
        xs := xs + [r.value];
      }
    }

    /** `process_queue`: dequeue and hand each item to the handler until the queue is closed
        and empty. An open empty queue is polled (with a 0.1 s sleep) forever; here that
        polling is bounded by `fuel` iterations. The handler is abstract: `handled` lists
        the items it was given, in order. Handler errors are logged and the loop goes on. */
    method ProcessQueue(fuel: nat) returns (handled: seq<T>, idlePolls: nat)
      requires Valid()
      modifies this
      ensures Valid()
      ensures old(items) == handled + items
      ensures totalDequeued == old(totalDequeued) + |handled|
      ensures totalEnqueued == old(totalEnqueued) && closed == old(closed)
      ensures closed && fuel >= |old(items)| ==> items == [] && handled == old(items)
      ensures |handled| + idlePolls <= fuel
    {
      handled, idlePolls := [], 0;
      var steps := 0;
      while (!closed || |items| > 0) && steps < fuel
        invariant Valid()
        invariant old(items) == handled + items
        invariant totalDequeued == old(totalDequeued) + |handled|
        invariant totalEnqueued == old(totalEnqueued) && closed == old(closed)
        invariant steps == |handled| + idlePolls <= fuel
        invariant closed ==> idlePolls == 0
        decreases fuel - steps
      {
        var r := Dequeue();
        if r.Item? {
          handled := handled + [r.value];
        } else {
          idlePolls := idlePolls + 1;
        }
        steps := steps + 1;
      }
    }

    /** `from_iterable`: a new queue filled by enqueueing each item in turn; the first refused
        enqueue raises `QueueFullError` out of the constructor, so no queue is returned. */
    static method FromIterable(xs: seq<T>, maxSize: nat, name: string) returns (q: Queue?<T>)
      ensures q == null <==> |xs| > maxSize
      ensures q != null ==> fresh(q) && q.Valid() && q.name == name
                            && q.State() == QueueState(xs, maxSize, |xs|, 0, false)
    {
      var queue := new Queue(maxSize, name);
      var i := 0;
      while i < |xs|
        invariant 0 <= i <= |xs| && i <= maxSize
        invariant fresh(queue) && queue.Valid() && queue.name == name
        invariant queue.State() == QueueState(xs[..i], maxSize, i, 0, false)
      {
        var err := queue.Enqueue(xs[i]);
        if err.Some? {
          return null;
        }
        assert xs[..i + 1] == xs[..i] + [xs[i]];
        i := i + 1;
      }
      assert xs[..i] == xs;
      q := queue;
    }
  }
}

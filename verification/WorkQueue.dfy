/**
 * The work queue of lib/queue.js, which lets one operation at a time into the native driver.
 *
 * Operations carry the id they were enqueued with, which is also their priority; nothing is
 * parked.  An operation at the head of the queue is live with the driver until nextOp.
 */
module WorkQueues {
  import opened PriorityQueues
  import opened Wrappers

  // ---------------------------------------------------------------- the queue as a state machine

  /**
   * `waiting` holds the queued operations, the live one among them; `started` is the order in
   * which operations have been run and `dropped` those taken out of the queue by dropItem.
   */
  datatype Queue = Queue(next: nat, waiting: set<nat>, started: seq<nat>, dropped: set<nat>)

  predicate IsHead(ids: set<nat>, head: nat) {
    head in ids && forall id | id in ids :: head <= id
  }

  lemma {:induction false} HeadExists(ids: set<nat>)
    requires ids != {}
    ensures exists head :: IsHead(ids, head)
  {
    var id :| id in ids;
    if ids == {id} {
      assert IsHead(ids, id);
    } else {
      HeadExists(ids - {id});
      var rest :| IsHead(ids - {id}, rest);
      var head := if rest < id then rest else id;
      forall other | other in ids ensures head <= other {
        assert other == id || other in ids - {id};
      }
      assert IsHead(ids, head);
    }
  }

  ghost function Head(ids: set<nat>): (head: nat)
    requires ids != {}
    ensures IsHead(ids, head)
  {
    HeadExists(ids);
    var head :| IsHead(ids, head);
    head
  }

  ghost function Enqueued(q: Queue): Queue {
    Queue(q.next + 1, q.waiting + {q.next}, if q.waiting == {} then q.started + [q.next] else q.started, q.dropped)
  }

  ghost function Advanced(q: Queue): Queue {
    if q.waiting == {} then q
    else
      var rest := q.waiting - {Head(q.waiting)};
      q.(waiting := rest, started := if rest == {} then q.started else q.started + [Head(rest)])
  }

  ghost function Dropped(q: Queue, id: nat): Queue {
    if id in q.waiting then q.(waiting := q.waiting - {id}, dropped := q.dropped + {id}) else q
  }

  datatype Event = Enqueue | Next | Drop(id: nat)

  ghost function Step(q: Queue, e: Event): Queue {
    match e
    case Enqueue => Enqueued(q)
    case Next => Advanced(q)
    case Drop(id) => Dropped(q, id)
  }

  ghost function Run(q: Queue, es: seq<Event>): Queue {
    if es == [] then q else Step(Run(q, es[..|es| - 1]), es[|es| - 1])
  }

  const EMPTY := Queue(0, {}, [], {})

  /** nextOp is called for a live operation, and dropItem not for it. */
  ghost predicate Proper(q: Queue, e: Event) {
    match e
    case Enqueue => true
    case Next => q.waiting != {}
    case Drop(id) => q.waiting != {} ==> id != Head(q.waiting)
  }

  ghost predicate ProperRun(q: Queue, es: seq<Event>) {
    es == [] || (ProperRun(q, es[..|es| - 1]) && Proper(Run(q, es[..|es| - 1]), es[|es| - 1]))
  }

  // ---------------------------------------------------------------- what every run keeps

  predicate Increasing(s: seq<nat>) {
    forall i, j | 0 <= i < j < |s| :: s[i] < s[j]
  }

  /** The operations that have had their turn: not dropped, and not behind the head. */
  predicate HasStarted(q: Queue, id: nat) {
    id < q.next && id !in q.dropped && (id !in q.waiting || forall other | other in q.waiting :: id <= other)
  }

  ghost predicate NothingLost(q: Queue) {
    && (forall id | id in q.waiting :: id < q.next && id !in q.dropped)
    && (forall id | id in q.dropped :: id < q.next)
    && (forall id | id in q.started :: HasStarted(q, id))
    && (forall id | HasStarted(q, id) :: id in q.started)
  }

  /** Only the head is live: it is the one started last. */
  predicate HeadIsLive(q: Queue) {
    q.waiting != {} ==> q.started != [] && IsHead(q.waiting, q.started[|q.started| - 1])
  }

  ghost predicate Inv(q: Queue) {
    Increasing(q.started) && NothingLost(q) && HeadIsLive(q)
  }

  lemma HeadIs(ids: set<nat>, head: nat)
    requires IsHead(ids, head)
    ensures Head(ids) == head
  {
  }

  lemma EnqueueKeeps(q: Queue)
    requires Inv(q)
    ensures Inv(Enqueued(q))
  {
    var q' := Enqueued(q);
    if q.waiting == {} {
      assert q'.waiting == {q.next};
      LaterStart(q.started, q.next);
      forall id ensures HasStarted(q', id) <==> HasStarted(q, id) || id == q.next {
      }
    } else {
      var head := q.started[|q.started| - 1];
      forall id ensures HasStarted(q', id) <==> HasStarted(q, id) {
        if id == q.next { assert head in q'.waiting; }
      }
    }
  }

  lemma LaterStart(started: seq<nat>, id: nat)
    requires Increasing(started) && forall other | other in started :: other < id
    ensures Increasing(started + [id])
  {
    forall i | 0 <= i < |started| ensures started[i] < id {
      assert started[i] in started;
    }
  }

  lemma NextKeeps(q: Queue)
    requires Inv(q) && q.waiting != {}
    ensures Inv(Advanced(q))
  {
    var q', head := Advanced(q), Head(q.waiting);
    var last := q.started[|q.started| - 1];
    HeadIs(q.waiting, last);
    assert last == head;
    forall id | id in q.started ensures id <= head {
      var i :| 0 <= i < |q.started| && q.started[i] == id;
    }
    if q'.waiting == {} {
      assert q.waiting == q'.waiting + {head};
      forall id ensures HasStarted(q', id) <==> HasStarted(q, id) {
      }
    } else {
      var follower := Head(q'.waiting);
      assert head < follower;
      LaterStart(q.started, follower);
      NextStarts(q, head, follower);
    }
  }

  /** What has started after a nextOp that leaves operations waiting. */
  lemma NextStarts(q: Queue, head: nat, follower: nat)
    requires NothingLost(q) && IsHead(q.waiting, head) && IsHead(q.waiting - {head}, follower)
    requires forall id | id in q.started :: id <= head
    ensures (var q' := q.(waiting := q.waiting - {head}, started := q.started + [follower]); NothingLost(q'))
  {
    var q' := q.(waiting := q.waiting - {head}, started := q.started + [follower]);
    forall id | HasStarted(q', id) ensures id in q'.started {
      if id != follower { assert HasStarted(q, id); }
    }
    forall id | id in q'.started ensures HasStarted(q', id) {
      if id != follower {
        assert HasStarted(q, id);
        assert id !in q'.waiting;
      }
    }
  }

  /** A drop keeps the invariant, under which no dropped operation has started, exactly off the head. */
  lemma DropKeepsExactlyWhen(q: Queue, id: nat)
    requires Inv(q) && id in q.waiting
    ensures Inv(Dropped(q, id)) <==> id != Head(q.waiting)
  {
    var q', head := Dropped(q, id), Head(q.waiting);
    HeadIs(q.waiting, q.started[|q.started| - 1]);
    if id == head {
      assert id in q'.started && !HasStarted(q', id);
    } else {
      assert head in q'.waiting && IsHead(q'.waiting, head);
      forall other ensures HasStarted(q', other) <==> HasStarted(q, other) {
        if other in q'.waiting && other != head { assert head in q.waiting; }
      }
    }
  }

  lemma StepKeepsInv(q: Queue, e: Event)
    requires Inv(q) && Proper(q, e)
    ensures Inv(Step(q, e))
  {
    match e
    case Enqueue => EnqueueKeeps(q);
    case Next => NextKeeps(q);
    case Drop(id) => if id in q.waiting { DropKeepsExactlyWhen(q, id); }
  }

  lemma {:induction false} RunKeepsInv(es: seq<Event>)
    requires ProperRun(EMPTY, es)
    ensures Inv(Run(EMPTY, es))
  {
    if es != [] {
      RunKeepsInv(es[..|es| - 1]);
      StepKeepsInv(Run(EMPTY, es[..|es| - 1]), es[|es| - 1]);
    }
  }

  ghost function NextTimes(q: Queue, n: nat): Queue
    decreases n
  {
    if n == 0 then q else NextTimes(Advanced(q), n - 1)
  }

  /** Once each queued operation has called nextOp, exactly those never dropped have started, in order. */
  lemma {:induction false} QueueDrains(q: Queue)
    requires Inv(q)
    ensures (var r := NextTimes(q, |q.waiting|);
             && r.waiting == {} && r.dropped == q.dropped && r.next == q.next && Increasing(r.started)
             && forall id: nat :: id in r.started <==> id < q.next && id !in q.dropped)
    decreases |q.waiting|
  {
    if q.waiting == {} {
      forall id: nat ensures id in q.started <==> id < q.next && id !in q.dropped {
        assert HasStarted(q, id) <==> id < q.next && id !in q.dropped;
      }
    } else {
      NextKeeps(q);
      hide Inv, HasStarted, Increasing, IsHead;
      assert |Advanced(q).waiting| == |q.waiting| - 1;
      QueueDrains(Advanced(q));
    }
  }

  /** An operation neither waiting nor started never starts. */
  lemma {:induction false} GoneStaysGone(q: Queue, n: nat, id: nat)
    requires id !in q.waiting && id !in q.started
    ensures id !in NextTimes(q, n).started
    decreases n
  {
    if n > 0 { GoneStaysGone(Advanced(q), n - 1, id); }
  }

  /** Once the live operation is dropped, the nextOp that follows takes out one that never ran. */
  lemma FollowerIsLost(q: Queue, head: nat)
    requires Inv(q) && IsHead(q.waiting, head) && q.waiting != {head}
    ensures (var d := Dropped(q, head);
             d.waiting != {} && Head(d.waiting) !in NextTimes(d, |d.waiting|).started)
  {
    var d := Dropped(q, head);
    assert q.waiting == d.waiting + {head};
    var follower := Head(d.waiting);
    assert follower !in q.started by { assert !HasStarted(q, follower); }
    if Advanced(d).waiting != {} { assert Head(Advanced(d).waiting) in d.waiting - {follower}; }
    GoneStaysGone(Advanced(d), |d.waiting| - 1, follower);
  }

  /**
   * After a drop, with one nextOp for each operation still queued, every one of those runs
   * exactly when the dropped operation was not live, or was alone in the queue.
   */
  lemma DropLosesNoOtherExactlyWhen(q: Queue, id: nat)
    requires Inv(q) && id in q.waiting
    ensures (var d := Dropped(q, id);
             (forall other | other in d.waiting :: other in NextTimes(d, |d.waiting|).started)
             <==> id != Head(q.waiting) || q.waiting == {id})
  {
    var d := Dropped(q, id);
    if id != Head(q.waiting) {
      DropKeepsExactlyWhen(q, id);
      QueueDrains(d);
      forall other | other in d.waiting ensures other in NextTimes(d, |d.waiting|).started {
        assert other < d.next && other !in d.dropped;
      }
    } else if q.waiting == {id} {
      assert d.waiting == {};
    } else {
      FollowerIsLost(q, id);
    }
  }

  /** A live operation taken out by dropItem: the next nextOp removes one that never ran. */
  lemma DroppedLiveLosesAnother()
    ensures (var q := Run(EMPTY, [Enqueue, Enqueue, Drop(0), Next]);
             q.next == 2 && q.waiting == {} && 1 !in q.started && 1 !in q.dropped)
  {
    var q2 := Enqueued(Enqueued(EMPTY));
    assert q2 == Queue(2, {0, 1}, [0], {});
    var q3 := Dropped(q2, 0);
    assert q3 == Queue(2, {1}, [0], {0});
    HeadIs({1}, 1);
    assert Advanced(q3) == Queue(2, {}, [0], {0});
    var es := [Enqueue, Enqueue, Drop(0), Next];
    assert es[..3] == [Enqueue, Enqueue, Drop(0)] && es[..3][..2] == [Enqueue, Enqueue];
    assert [Enqueue, Enqueue][..1] == [Enqueue] && [Enqueue][..0] == [];
    assert Run(EMPTY, []) == EMPTY;
    assert Run(EMPTY, [Enqueue]) == Enqueued(EMPTY);
    assert Run(EMPTY, [Enqueue, Enqueue]) == q2;
    assert Run(EMPTY, [Enqueue, Enqueue, Drop(0)]) == q3;
  }

  // ---------------------------------------------------------------- the queue over its heap

  /** The container holds these ids, each once. */
  ghost predicate Holds(container: seq<Item>, ids: set<nat>) {
    forall x :: multiset(container)[x] == if x in ids then 1 else 0
  }

  /** Priorities are ids. */
  predicate ById(priorities: map<Item, int>) {
    forall x | x in priorities :: priorities[x] == x
  }

  class WorkQueue {
    const workQueue: PriorityQueue
    var operationId: nat
    var started: seq<nat>         // calls of run
    ghost var waiting: set<nat>
    ghost var dropped: set<nat>

    ghost predicate Valid()
      reads this, workQueue
    {
      && workQueue.Valid() && ById(workQueue.priorities) && Holds(workQueue.heapContainer, waiting)
      && forall id | id in waiting :: id < operationId
    }

    ghost function State(): Queue
      reads this
    {
      Queue(operationId, waiting, started, dropped)
    }

    constructor ()
      ensures Valid() && State() == EMPTY && fresh(workQueue)
    {
      workQueue := new PriorityQueue();
      operationId, started, waiting, dropped := 0, [], {}, {};
    }

    method Run(op: nat)
      modifies `started
      ensures started == old(started) + [op]
    {
      started := started + [op];
    }

    method Peek() returns (peek: Option<Item>)
      requires Valid()
      ensures if waiting == {} then peek == None else peek == Some(Head(waiting))
    {
      peek := workQueue.Peek();
      HeldItems(workQueue.heapContainer, waiting);
      if peek.Some? { HeadIs(waiting, peek.value); }
    }

    /** Adds an operation to the heap. */
    method Add(op: nat)
      requires Valid() && op !in waiting && op < operationId
      modifies workQueue, `waiting
      ensures Valid() && waiting == old(waiting) + {op}
    {
      HeldItems(workQueue.heapContainer, waiting);
      workQueue.Add(op, op);
      waiting := waiting + {op};
    }

    /** Removes an operation from the heap; one that is not there is ignored. */
    method Remove(op: nat)
      requires Valid()
      modifies workQueue, `waiting
      ensures Valid() && waiting == old(waiting) - {op}
    {
      KnownItems(workQueue.heapContainer, workQueue.priorities, waiting);
      workQueue.Remove(op);
      waiting := waiting - {op};
    }

    method EmptyQueue()
      requires Valid()
      modifies workQueue, `waiting
      ensures Valid() && waiting == {}
    {
      HeldItems(workQueue.heapContainer, waiting);
      var empty := workQueue.IsEmpty();
      while !empty
        invariant Valid() && (empty <==> waiting == {})
        decreases |waiting|
      {
        HeldItems(workQueue.heapContainer, waiting);
        var item := workQueue.Poll();
        waiting := waiting - {item.value};
        HeldItems(workQueue.heapContainer, waiting);
        empty := workQueue.IsEmpty();
      }
    }

    method ExecQueueOp(op: nat)
      requires Valid() && op !in waiting && op < operationId
      modifies this, workQueue
      ensures Valid() && operationId == old(operationId) && dropped == old(dropped)
      ensures waiting == old(waiting) + {op}
      ensures started == if old(waiting) == {} then old(started) + [op] else old(started)
    {
      var peek := Peek();
      Add(op);
      if peek == None {
        Run(op);
      }
    }

    method Enqueue() returns (op: nat)
      requires Valid()
      modifies this, workQueue
      ensures Valid() && op == old(operationId) && State() == Enqueued(old(State()))
    {
      op := operationId;
      operationId := operationId + 1;
      ExecQueueOp(op);
    }

    method DropItem(op: nat)
      requires Valid()
      modifies this, workQueue
      ensures Valid() && State() == Dropped(old(State()), op)
    {
      if op in waiting {
        dropped := dropped + {op};
      }
      Remove(op);
    }

    /**
     * DriverMgr.execCancel: a live operation is cancelled by the driver, any other is dropped,
     * so that nothing but the cancelled operation loses its turn.
     */
    method ExecCancel(queueItem: nat) returns (sentToDriver: bool)
      requires Valid() && Inv(State()) && queueItem in waiting
      modifies this, workQueue
      ensures Valid() && Inv(State())
      ensures sentToDriver <==> queueItem == Head(old(waiting))
      ensures State() == if sentToDriver then old(State()) else Dropped(old(State()), queueItem)
    {
      var peek := Peek();
      sentToDriver := queueItem == peek.value;
      if !sentToDriver {
        DropKeepsExactlyWhen(State(), queueItem);
        DropItem(queueItem);
      }
    }

    method Exec()
      requires Valid()
      modifies `started
      ensures Valid()
      ensures started == if waiting == {} then old(started) else old(started) + [Head(waiting)]
    {
      var op := Peek();
      if op.Some? {
        Run(op.value);
      }
    }

    method NextOp()
      requires Valid()
      modifies this, workQueue
      ensures Valid() && State() == Advanced(old(State()))
    {
      var peek := Peek();
      if peek.Some? {
        Remove(peek.value);
      }
      Exec();
    }

    /** Operations that do not match are moved aside until one does. */
    method MoveUntil(primitive: nat -> bool) returns (ret: Option<Item>, ops: seq<nat>)
      requires Valid()
      modifies workQueue, `waiting
      ensures Valid() && Apart(ops, waiting) && waiting + ItemsOf(ops) == old(waiting)
      ensures forall op | op in ops :: !primitive(op)
      ensures ret == None ==> waiting == {}
      ensures ret.Some? ==> primitive(ret.value) && IsHead(waiting, ret.value)
    {
      hide Apart, ItemsOf;
      ret, ops := None, [];
      NothingMoved(waiting);
      var peek := Peek();
      while peek.Some?
        invariant Valid() && Apart(ops, waiting) && waiting + ItemsOf(ops) == old(waiting)
        invariant forall op | op in ops :: !primitive(op)
        invariant if waiting == {} then peek == None else peek == Some(Head(waiting))
        decreases |waiting|
      {
        if primitive(peek.value) {
          ret := peek;
          return;
        }
        MovedAside(ops, waiting, peek.value);
        Remove(peek.value);
        ops := ops + [peek.value];
        peek := Peek();
      }
    }

    method PushRange(ops: seq<nat>)
      requires Valid() && Apart(ops, waiting) && forall op | op in ops :: op < operationId
      modifies workQueue, `waiting
      ensures Valid() && waiting == old(waiting) + ItemsOf(ops)
    {
      var rest: seq<nat> := ops;
      while |rest| > 0
        invariant Valid() && Apart(rest, waiting) && forall op | op in rest :: op < operationId
        invariant waiting + ItemsOf(rest) == old(waiting) + ItemsOf(ops)
      {
        var op := rest[|rest| - 1];
        PutBack(rest, waiting);
        rest := rest[..|rest| - 1];
        Add(op);
      }
    }

    /** The lowest id that matches; the queue is as it was. */
    method First(primitive: nat -> bool) returns (ret: Option<Item>)
      requires Valid()
      modifies workQueue, `waiting
      ensures Valid() && State() == old(State())
      ensures ret == None <==> forall op | op in waiting :: !primitive(op)
      ensures ret.Some? ==> ret.value in waiting && primitive(ret.value)
                            && forall op | op in waiting && primitive(op) :: ret.value <= op
    {
      var ops;
      ret, ops := MoveUntil(primitive);
      PushRange(ops);
    }
  }

  /** A list without duplicates, none of it in the set. */
  predicate Apart(ops: seq<nat>, ids: set<nat>) {
    (forall i, j | 0 <= i < j < |ops| :: ops[i] != ops[j]) && forall op | op in ops :: op !in ids
  }

  function ItemsOf(ops: seq<nat>): set<nat> {
    set op | op in ops
  }

  lemma NothingMoved(ids: set<nat>)
    ensures Apart([], ids) && ids + ItemsOf([]) == ids
  {
  }

  lemma MovedAside(ops: seq<nat>, ids: set<nat>, op: nat)
    requires Apart(ops, ids) && op in ids
    ensures Apart(ops + [op], ids - {op}) && ids - {op} + ItemsOf(ops + [op]) == ids + ItemsOf(ops)
    ensures forall other | other in ops + [op] :: other in ops || other == op
  {
  }

  lemma PutBack(ops: seq<nat>, ids: set<nat>)
    requires Apart(ops, ids) && ops != []
    ensures (var op, front := ops[|ops| - 1], ops[..|ops| - 1];
             && op !in ids && Apart(front, ids + {op}) && ids + {op} + ItemsOf(front) == ids + ItemsOf(ops)
             && forall other | other in front :: other in ops)
  {
    assert ops == ops[..|ops| - 1] + [ops[|ops| - 1]];
  }

  lemma HeldItems(container: seq<Item>, ids: set<nat>)
    requires Holds(container, ids)
    ensures forall x :: x in container <==> x in ids
    ensures container == [] <==> ids == {}
  {
    forall x ensures x in container <==> x in ids {
      assert x in container <==> x in multiset(container);
    }
    if container != [] { assert container[0] in ids; }
  }

  lemma KnownItems(container: seq<Item>, priorities: map<Item, int>, ids: set<nat>)
    requires Known(container, priorities) && Holds(container, ids)
    ensures forall id | id in ids :: id in priorities
  {
    HeldItems(container, ids);
  }
}

/**
 * The Pool object of lib/pool.js: closure variables updated in place by its handlers.
 * Every method is proved to take the state to what the corresponding step of PoolModel
 * says, so the results about runs of the model are results about this object.
 */
module ConnectionPool {
  import opened PoolModel
  import opened PoolInvariants
  import opened PoolRuns
  import opened PoolTheorems
  import opened Wrappers
  import opened Arithmetic

  class ConnectionPool {
    const options: Options

    var idle: seq<DescId>
    var parked: seq<DescId>
    var workQueue: seq<WorkId>
    var pause: seq<WorkId>
    var busyConnectionCount: int
    var parkingConnectionCount: int
    var pendingCreates: int
    var isOpen: bool
    var descriptionId: nat
    var commandId: nat
    var delayed: int

    // objects the closures reach
    var descs: map<DescId, Description>
    var works: map<WorkId, Work>
    var queries: map<QueryId, LiveQuery>
    var nextQuery: nat
    var heartbeats: map<HeartbeatId, Heartbeat>
    var nextHeartbeat: nat

    // bookkeeping of the proofs
    ghost var out: map<DescId, Phase>
    ghost var closing: set<DescId>
    ghost var dispatched: seq<WorkId>
    ghost var released: seq<WorkId>
    ghost var everPaused: set<WorkId>
    ghost var raced: nat

    ghost function State(): PoolModel.Pool
      reads this
    {
      PoolModel.Pool(idle, parked, workQueue, pause, busyConnectionCount, parkingConnectionCount, pendingCreates,
                     isOpen, descriptionId, commandId, descs, works, queries, nextQuery, heartbeats, nextHeartbeat,
                     delayed, out, closing, dispatched, released, everPaused, raced)
    }

    constructor (options: Options)
      ensures this.options == options && State() == INITIAL
    {
      this.options := options;
      idle, parked, workQueue, pause := [], [], [], [];
      busyConnectionCount, parkingConnectionCount, pendingCreates, delayed := 0, 0, 0, 0;
      isOpen, descriptionId, commandId, nextQuery, nextHeartbeat := false, 0, 0, 0, 0;
      descs, works, queries, heartbeats := map[], map[], map[], map[];
      out, closing, dispatched, released, everPaused, raced := map[], {}, [], [], {}, 0;
    }

    // -------------------------------------------------------------- checkin and checkout

    method Checkin(d: DescId)
      requires d in descs
      modifies this
      ensures State() == PoolModel.Checkin(old(State()), d)
    {
      if d in idle || d in parked {
        return;
      }
      Unshift(d);
      if busyConnectionCount > 0 {
        CountBusy(-1);
      }
      Describe(d, descs[d].(work := None));
      Left(d);
    }

    method Unshift(d: DescId)
      modifies this
      ensures State() == old(State()).(idle := [d] + old(idle))
    {
      idle := [d] + idle;
    }

    method CountBusy(change: int)
      modifies this
      ensures State() == old(State()).(busy := old(busyConnectionCount) + change)
    {
      busyConnectionCount := busyConnectionCount + change;
    }

    /** Fields of one description object are assigned. */
    method Describe(d: DescId, description: Description)
      modifies this
      ensures State() == old(State()).(descs := old(descs)[d := description])
    {
      descs := descs[d := description];
    }

    ghost method Entered(d: DescId, phase: Phase)
      modifies this
      ensures State() == old(State()).(out := old(out)[d := phase])
    {
      out := out[d := phase];
    }

    ghost method Left(d: DescId)
      modifies this
      ensures State() == old(State()).(out := old(out) - {d})
    {
      out := out - {d};
    }

    /** checkout, for the activity recorded in `phase`; null when nothing is idle. */
    method Checkout(ghost phase: Phase) returns (description: Option<DescId>)
      modifies this
      ensures old(idle) == [] ==> description == None && State() == old(State())
      ensures old(idle) != [] ==>
                description == Some(Last(old(idle))) && State() == PoolModel.Checkout(old(State()), phase)
    {
      if idle == [] {
        return None;
      }
      var d := idle[|idle| - 1];
      idle := idle[..|idle| - 1];
      CountBusy(1);
      Entered(d, phase);
      description := Some(d);
    }

    /** item: the description begins, and a query is made and listened to. */
    method Item(d: DescId, w: WorkId, now: int)
      requires d in descs && w in works
      modifies this
      ensures State() == PoolModel.Item(old(State()), d, w, now)
    {
      Describe(d, descs[d].(lastActive := now, keepAlive := 0));
      var q := GetTheQuery(d, w);
      SetQueryObj(w);
      Entered(d, Running(w, Some(q)));
    }

    method GetTheQuery(d: DescId, w: WorkId) returns (q: QueryId)
      modifies this
      ensures q == old(nextQuery)
      ensures State() == old(State()).(queries := old(queries)[q := LiveQuery(d, w, false, false)], nextQuery := q + 1)
    {
      q := nextQuery;
      queries, nextQuery := queries[q := LiveQuery(d, w, false, false)], q + 1;
    }

    method SetQueryObj(w: WorkId)
      requires w in works
      modifies this
      ensures State() == old(State()).(works := old(works)[w := old(works[w]).(attached := true)])
    {
      works := works[w := works[w].(attached := true)];
    }

    // -------------------------------------------------------------- the work queue

    method Submit(kind: WorkKind) returns (w: WorkId)
      modifies this
      ensures State() == PoolModel.Submit(old(State()), kind) && w == old(commandId)
    {
      w := NewWorkItem(kind);
      workQueue := [w] + workQueue;
    }

    method NewWorkItem(kind: WorkKind) returns (w: WorkId)
      modifies this
      ensures w == old(commandId)
      ensures State() == old(State()).(works := old(works)[w := Work(kind, false, false, false)], nextWork := w + 1)
    {
      w := commandId;
      works, commandId := works[w := Work(kind, false, false, false)], w + 1;
    }

    /** PoolEventCaster.pauseQuery */
    method PauseQuery(w: WorkId)
      requires w in works
      modifies this
      ensures State() == old(State()).(
                           works := old(works)[w := old(works[w]).(paused := true)],
                           everPaused := if old(works[w]).attached then old(everPaused) else old(everPaused) + {w})
    {
      if !works[w].attached {
        NotePaused(w);
      }
      works := works[w := works[w].(paused := true)];
    }

    ghost method NotePaused(w: WorkId)
      modifies this
      ensures State() == old(State()).(everPaused := old(everPaused) + {w})
    {
      everPaused := everPaused + {w};
    }

    method ResumeQuery(w: WorkId)
      requires w in works
      modifies this
      ensures State() == old(State()).(works := old(works)[w := old(works[w]).(paused := false)])
    {
      works := works[w := works[w].(paused := false)];
    }

    /** PoolEventCaster.cancelQuery: an item with a query object passes the cancel on to it. */
    method CancelQuery(w: WorkId)
      requires w in works
      modifies this
      ensures State() == if old(works[w]).attached then old(State())
                         else old(State()).(works := old(works)[w := old(works[w]).(pendingCancel := true)])
    {
      if !works[w].attached {
        works := works[w := works[w].(pendingCancel := true)];
      }
    }

    /** promotePause splices items out of `pause` while it walks it. */
    method PromotePause()
      requires ItemsKnown(workQueue, pause, works.Keys)
      modifies this
      ensures State() == PoolModel.PromotePause(old(State()))
    {
      hide Promoting, Select, ItemsKnown;
      ghost var was, queued, s := pause, workQueue, State();
      PromotingStarts(queued, was, works);
      var i := 0;
      while i < |pause|
        invariant 0 <= i <= |pause|
        invariant State() == s.(workQueue := workQueue, pause := pause)
        invariant Promoting(queued, was, works, workQueue, pause, i)
        decreases |pause| - i
      {
        ghost var queue, rest := workQueue, pause;
        PromotingKnows(queued, was, works, queue, rest, i);
        if !works[pause[i]].paused {
          Promote(i);
          PromotedOne(queued, was, works, queue, rest, i, workQueue, pause);
          i := i - 1;
        } else {
          KeptOne(queued, was, works, queue, rest, i);
        }
        i := i + 1;
      }
      PromotingEnds(queued, was, works, workQueue, pause);
    }

    /** workQueue.push(pause.splice(i, 1)[0]) */
    method Promote(i: nat)
      requires i < |pause|
      modifies this
      ensures pause == Without(old(pause), i)
      ensures workQueue == old(workQueue) + [old(pause[i])]
      ensures State() == old(State()).(workQueue := workQueue, pause := pause)
    {
      workQueue := workQueue + [pause[i]];
      pause := pause[..i] + pause[i + 1..];
    }

    /** The drain loop that every way of cranking shares. */
    method DrainLoop(now: int)
      requires CanDrain(State())
      modifies this
      ensures State() == PoolModel.DrainLoop(old(State()), now)
    {
      while workQueue != [] && idle != []
        invariant CanDrain(State())
        invariant PoolModel.DrainLoop(State(), now) == PoolModel.DrainLoop(old(State()), now)
        decreases |workQueue|
      {
        DrainOnce(now);
      }
    }

    method DrainOnce(now: int)
      requires CanDrain(State()) && workQueue != [] && idle != []
      modifies this
      ensures State() == DrainStep(old(State()), now)
      ensures CanDrain(State()) && |workQueue| < old(|workQueue|)
    {
      var w := PopWork();
      if works[w].pendingCancel {
        DoneFree(w);
      } else if works[w].paused {
        pause := [w] + pause;
      } else {
        var description := Checkout(Running(w, None));
        Item(description.value, w, now);
        Dispatched(w);
      }
    }

    method PopWork() returns (w: WorkId)
      requires workQueue != []
      modifies this
      ensures w == Last(old(workQueue))
      ensures State() == old(State()).(workQueue := old(workQueue[..|workQueue| - 1]))
    {
      w := workQueue[|workQueue| - 1];
      workQueue := workQueue[..|workQueue| - 1];
    }

    /** 'done' and 'free' are raised for a cancelled item. */
    ghost method DoneFree(w: WorkId)
      modifies this
      ensures State() == old(State()).(released := old(released) + [w])
    {
      released := released + [w];
    }

    ghost method Dispatched(w: WorkId)
      modifies this
      ensures State() == old(State()).(dispatched := old(dispatched) + [w])
    {
      dispatched := dispatched + [w];
    }

    method Drain(now: int)
      requires CanDrain(State())
      modifies this
      ensures State() == PoolModel.Drain(old(State()), now)
    {
      PromoteKeepsKnown(State());
      PromotePause();
      DrainLoop(now);
    }

    method Crank(now: int)
      requires CanDrain(State()) && ValidOptions(options)
      modifies this
      ensures State() == PoolModel.Crank(options, old(State()), now)
    {
      if options.strategy == Efficient {
        Drain(now);
        if workQueue != [] && idle == [] {
          var existing := |idle| + busyConnectionCount + pendingCreates + parkingConnectionCount;
          if existing < options.ceiling {
            Grow();
          }
        }
      } else {
        Grow();
      }
    }

    // -------------------------------------------------------------- growing

    /** createConnectionWithDelay up to its first await. */
    method CreateConnection(index: nat)
      modifies this
      ensures State() == if index > 0 && options.scalingDelay > 0
                         then old(State()).(delayed := old(delayed) + 1)
                         else old(State()).(pendingCreates := old(pendingCreates) + 1)
    {
      if index > 0 && options.scalingDelay > 0 {
        delayed := delayed + 1;
      } else {
        pendingCreates := pendingCreates + 1;
      }
    }

    method Grow()
      requires ValidOptions(options)
      modifies this
      ensures State() == PoolModel.Grow(options, old(State()))
    {
      var existing := |idle| + busyConnectionCount + pendingCreates + parkingConnectionCount;
      if existing >= options.ceiling {
        return;
      }
      if options.strategy == Efficient && !isOpen {
        if existing >= options.floor && workQueue == [] {
          return;
        }
      }
      var connectionsToCreate := ConnectionsToCreate(existing);
      if options.scalingDelay > 0 && options.strategy != Aggressive {
        CreateInTurn(connectionsToCreate);
      } else {
        CreateTogether(connectionsToCreate);
      }
    }

    /** Creations one after the other: all but the first wait. */
    method CreateInTurn(count: int)
      requires options.scalingDelay > 0
      modifies this
      ensures State() == old(State()).(
                           pendingCreates := old(pendingCreates) + (if count > 0 then 1 else 0),
                           delayed := old(delayed) + Max(0, count - 1))
    {
      var i := 0;
      while i < count
        invariant 0 <= i <= Max(0, count)
        invariant State() == old(State()).(pendingCreates := old(pendingCreates) + (if i > 0 then 1 else 0),
                                           delayed := old(delayed) + Max(0, i - 1))
      {
        CreateConnection(i);
        i := i + 1;
      }
    }

    method CreateTogether(count: int)
      modifies this
      ensures State() == old(State()).(pendingCreates := old(pendingCreates) + Max(0, count))
    {
      var i := 0;
      while i < count
        invariant 0 <= i <= Max(0, count)
        invariant State() == old(State()).(pendingCreates := old(pendingCreates) + i)
      {
        CreateConnection(0);
        i := i + 1;
      }
    }

    /** The timer of a delayed creation fires. */
    method DelayPassed()
      modifies this
      ensures State() == old(State()).(delayed := old(delayed) - 1, pendingCreates := old(pendingCreates) + 1)
    {
      delayed := delayed - 1;
      pendingCreates := pendingCreates + 1;
    }

    method ConnectionFailed()
      modifies this
      ensures State() == old(State()).(pendingCreates := old(pendingCreates) - 1)
    {
      pendingCreates := pendingCreates - 1;
    }

    /** open up to its await. */
    method Open()
      requires ValidOptions(options)
      modifies this
      ensures State() == OpenPool(options, old(State()))
    {
      if isOpen {
        return;
      }
      Grow();
    }

    /** What open does once its connections are there. */
    method Opened()
      modifies this
      ensures State() == old(State()).(isOpen := true)
    {
      isOpen := true;
    }

    /** The switch on the scaling strategy. */
    method ConnectionsToCreate(existing: int) returns (count: int)
      requires existing == Existing(State()) < options.ceiling
      ensures count == GrowCount(options, State())
    {
      var needed := options.ceiling - existing;
      match options.strategy {
        case Efficient =>
          if !isOpen {
            count := Min(options.floor - existing, needed);
          } else {
            var additionalNeeded := Max(0, |workQueue| - |idle|);
            count := Min(Min(additionalNeeded, needed), options.scalingIncrement);
          }
          count := Max(0, count);
        case Gradual =>
          count := Min(options.scalingIncrement, needed);
        case Exponential =>
          var currentSize := |idle| + busyConnectionCount;
          if currentSize == 0 {
            count := Max(if options.floor == 0 then 1 else options.floor, 1);
          } else {
            count := Min(Share(currentSize, options.scalingFactor), needed);
          }
          count := Max(1, count);
        case Aggressive =>
          count := needed;
      }
    }

    method ConnectionOpened(now: int)
      modifies this
      ensures State() == OpenOk(old(State()), now)
    {
      var d := ReceiveConnection(now);
      Checkin(d);
    }

    method ReceiveConnection(now: int) returns (d: DescId)
      modifies this
      ensures d == DescriptionFor(old(State())) && d in descs
      ensures State() == Connected(old(State()), now)
    {
      pendingCreates := pendingCreates - 1;
      Race();
      d := GetDescription(now);
    }

    ghost method Race()
      modifies this
      ensures State() == old(State()).(raced := old(raced) + if busyConnectionCount > 0 then 1 else 0)
    {
      raced := raced + if busyConnectionCount > 0 then 1 else 0;
    }

    method GetDescription(now: int) returns (d: DescId)
      modifies this
      ensures d == DescriptionFor(old(State())) && d in descs
      ensures State() == old(State()).(
                           parked := parked, nextDesc := descriptionId,
                           descs := old(descs)[d := Description(true, None, 0, now)])
      ensures old(parked) != [] ==> parked == old(parked[..|parked| - 1]) && descriptionId == old(descriptionId)
      ensures old(parked) == [] ==> parked == [] && descriptionId == old(descriptionId) + 1
    {
      if parked != [] {
        d := parked[|parked| - 1];
        parked := parked[..|parked| - 1];
      } else {
        d := descriptionId;
        descriptionId := d + 1;
      }
      Describe(d, Description(true, None, 0, now));
    }

    // -------------------------------------------------------------- query and transaction events

    method OnSubmitted(q: QueryId)
      requires q in queries && queries[q].desc in descs
      modifies this
      ensures State() == QuerySubmitted(old(State()), q)
    {
      var live := queries[q];
      queries := queries[q := live.(submitted := true)];
      Describe(live.desc, descs[live.desc].(work := Some(live.work)));
    }

    method OnError(q: QueryId)
      requires q in queries
      modifies this
      ensures State() == QueryErrored(old(State()), q)
    {
      queries := queries[q := queries[q].(errored := true)];
    }

    method OnFree(q: QueryId)
      requires q in queries && queries[q].desc in descs
      modifies this
      ensures State() == QueryFreed(old(State()), q)
    {
      var live := queries[q];
      var d := live.desc;
      Freed(q);
      var work := descs[d].work;
      if !live.errored && work.Some? && work.value in works && works[work.value].kind == Transaction {
        if d in out && out[d].Running? && out[d].query == Some(q) {
          Entered(d, Running(out[d].work, None));
        }
        return;
      }
      Checkin(d);
    }

    method Freed(q: QueryId)
      modifies this
      ensures State() == old(State()).(queries := old(queries) - {q})
    {
      queries := queries - {q};
    }

    /** finishTransaction; `ok` is false where the source throws. */
    method FinishTransaction(d: DescId, now: int) returns (ok: bool)
      modifies this
      ensures ok == CanFinish(old(State()), d) && State() == Finish(old(State()), d, now)
    {
      if d !in descs || descs[d].work.None? || descs[d].work.value !in works {
        return false;
      }
      var w := descs[d].work.value;
      if works[w].kind != Transaction && works[w].kind != Committing {
        return false;
      }
      works := works[w := works[w].(kind := Committing)];
      Item(d, w, now);
      ok := true;
    }

    // -------------------------------------------------------------- the heartbeat timer

    /** findIndex over idle. */
    method FindIndex(p: DescId -> bool) returns (i: nat)
      ensures i == FirstIndex(idle, p)
    {
      i := 0;
      while i < |idle| && !p(idle[i])
        invariant 0 <= i <= |idle|
        invariant forall k | 0 <= k < i :: !p(idle[k])
      {
        i := i + 1;
      }
      FirstIndexIs(idle, p, i);
    }

    method Park()
      modifies this
      ensures State() == PoolModel.Park(options, old(State()))
    {
      var toParkIndex := FindIndex(Inactive(options, descs));
      if toParkIndex == |idle| {
        return;
      }
      var canPark := Max(0, |idle| - options.floor);
      if canPark == 0 {
        return;
      }
      Closing(idle[toParkIndex]);
      idle := idle[..toParkIndex] + idle[toParkIndex + 1..];
    }

    /** The connection starts to close. */
    method Closing(d: DescId)
      modifies this
      ensures State() == old(State()).(parking := old(parkingConnectionCount) + 1, closing := old(closing) + {d})
    {
      parkingConnectionCount, closing := parkingConnectionCount + 1, closing + {d};
    }

    /** The connection has closed. */
    method HasClosed(d: DescId)
      modifies this
      ensures State() == old(State()).(parking := old(parkingConnectionCount) - 1, closing := old(closing) - {d})
    {
      parkingConnectionCount, closing := parkingConnectionCount - 1, closing - {d};
    }

    method ParkClosed(d: DescId)
      requires d in descs
      modifies this
      ensures State() == ParkDone(old(State()), d)
    {
      HasClosed(d);
      Describe(d, descs[d].(connected := false, keepAlive := 0));
      parked := [d] + parked;
    }

    /**
     * heartbeat: the due description is moved to the end of idle and checked out, and its
     * connection, which must not be null, is queried.
     */
    method Heartbeat(now: int)
      requires forall d | d in idle :: d in descs && descs[d].connected
      modifies this
      ensures State() == Beat(options, old(State()), now)
    {
      var toHeartBeatIndex := FindIndex(Due(options, descs, now));
      if toHeartBeatIndex == |idle| {
        return;
      }
      PromoteToFront(toHeartBeatIndex);
      var description := Checkout(Beating(nextHeartbeat));
      BeginBeat(description.value);
    }

    /** The heartbeat query starts on a connection that must not be null. */
    method BeginBeat(d: DescId)
      requires d in descs && descs[d].connected
      modifies this
      ensures State() == old(State()).(
                           heartbeats := old(heartbeats)[old(nextHeartbeat) := PoolModel.Heartbeat(d, false, 0, 0)],
                           nextHeartbeat := old(nextHeartbeat) + 1)
    {
      heartbeats := heartbeats[nextHeartbeat := PoolModel.Heartbeat(d, false, 0, 0)];
      nextHeartbeat := nextHeartbeat + 1;
    }

    /** promoteToFront: checkout takes from the end of idle. */
    method PromoteToFront(index: nat)
      requires index < |idle|
      modifies this
      ensures idle != [] && Last(idle) == old(idle[index]) && idle[..|idle| - 1] == Without(old(idle), index)
      ensures State() == old(State()).(idle := idle)
    {
      var description := idle[index];
      idle := idle[..index] + idle[index + 1..] + [description];
    }

    /** The timer callback, on a pool whose idle descriptions are connected. */
    method Tick(now: int)
      requires forall d | d in idle :: d in descs && descs[d].connected
      modifies this
      ensures State() == PoolModel.Tick(options, old(State()), now)
    {
      Park();
      Heartbeat(now);
    }

    method OnHeartbeatDone(h: HeartbeatId, now: int)
      requires h in heartbeats && heartbeats[h].desc in descs
      modifies this
      ensures State() == HeartbeatDone(old(State()), h, now)
    {
      var hb := heartbeats[h];
      if hb.settled {
        return;
      }
      var desc := descs[hb.desc];
      heartbeats := heartbeats[h := hb.(settled := true, checkins := hb.checkins + 1)];
      Describe(hb.desc, desc.(keepAlive := desc.keepAlive + 1, lastActive := now));
      Checkin(hb.desc);
    }

    method OnHeartbeatError(h: HeartbeatId)
      requires h in heartbeats
      modifies this
      ensures State() == HeartbeatError(old(State()), h)
    {
      var hb := heartbeats[h];
      if hb.settled {
        return;
      }
      heartbeats := heartbeats[h := hb.(settled := true, recreates := hb.recreates + 1)];
      Entered(hb.desc, Recreating);
    }

    method OnRecreated(d: DescId, now: int)
      requires d in descs
      modifies this
      ensures State() == RecreateDone(old(State()), d, now)
    {
      Describe(d, descs[d].(connected := true, lastActive := now));
      Checkin(d);
    }

    // -------------------------------------------------------------- all handlers

    method HandleWork(e: Event)
      requires Closed(State()) && Enabled(State(), e)
      requires e.Submitted? || e.ItemPaused? || e.ItemResumed? || e.ItemCancelled? || e.PoolOpened?
      modifies this
      ensures State() == Step(options, old(State()), e)
    {
      hide Closed, Enabled, CanDrain;
      ClosedGives(State(), e);
      match e {
        case Submitted(kind) => var _ := Submit(kind);
        case ItemPaused(w) => PauseQuery(w);
        case ItemResumed(w) => ResumeQuery(w);
        case ItemCancelled(w) => CancelQuery(w);
        case PoolOpened => Opened();
      }
    }

    method HandleQuery(e: Event)
      requires Closed(State()) && Enabled(State(), e)
      requires e.SubmittedEvent? || e.ErrorEvent? || e.FreeEvent? || e.Finished?
      modifies this
      ensures State() == Step(options, old(State()), e)
    {
      hide Closed, Enabled, CanDrain, Step, QuerySubmitted, QueryErrored, QueryFreed, Finish, CanFinish;
      QueryStep(options, State(), e);
      match e {
        case SubmittedEvent(q) => OnSubmitted(q);
        case ErrorEvent(q) => OnError(q);
        case FreeEvent(q) => OnFree(q);
        case Finished(d, now) => var _ := FinishTransaction(d, now);
      }
    }

    method HandleTimer(e: Event)
      requires ValidOptions(options) && Closed(State()) && Enabled(State(), e)
      requires e.Ticked? || e.HeartbeatDoneEvent? || e.HeartbeatErrorEvent? || e.ParkClosed? || e.Recreated?
      requires e.Ticked? ==> forall d | d in idle :: d in descs && descs[d].connected
      modifies this
      ensures State() == Step(options, old(State()), e)
    {
      hide Closed, Enabled, CanDrain, Step, PoolModel.Tick, HeartbeatDone, HeartbeatError, ParkDone, RecreateDone,
           ValidOptions;
      TimerStep(options, State(), e);
      match e {
        case Ticked(now) => Tick(now);
        case HeartbeatDoneEvent(h, now) => OnHeartbeatDone(h, now);
        case HeartbeatErrorEvent(h) => OnHeartbeatError(h);
        case ParkClosed(d) => ParkClosed(d);
        case Recreated(d, now) => OnRecreated(d, now);
      }
    }

    method HandleGrowth(e: Event)
      requires ValidOptions(options) && Closed(State()) && Enabled(State(), e)
      requires || e.Cranked? || e.Drained? || e.OpenCalled? || e.DelayPassed? || e.ConnectionOpened?
               || e.ConnectionFailed?
      modifies this
      ensures State() == Step(options, old(State()), e)
    {
      hide Closed, Enabled, CanDrain, PoolModel.Crank, PoolModel.Drain, OpenOk, OpenPool, ValidOptions, DescriptionFor;
      ClosedGives(State(), e);
      match e {
        case Cranked(now) => Crank(now);
        case Drained(now) => Drain(now);
        case OpenCalled => Open();
        case DelayPassed => DelayPassed();
        case ConnectionOpened(now) => ConnectionOpened(now);
        case ConnectionFailed => ConnectionFailed();
      }
    }

    /** The event loop hands one event to its handler. */
    method Handle(e: Event)
      requires ValidOptions(options) && Closed(State()) && Enabled(State(), e)
      requires e.Ticked? ==> forall d | d in idle :: d in descs && descs[d].connected
      modifies this
      ensures State() == Step(options, old(State()), e)
    {
      hide Closed, Enabled, Step, ValidOptions;
      if e.Submitted? || e.ItemPaused? || e.ItemResumed? || e.ItemCancelled? || e.PoolOpened? {
        HandleWork(e);
      } else if e.SubmittedEvent? || e.ErrorEvent? || e.FreeEvent? || e.Finished? {
        HandleQuery(e);
      } else if e.Ticked? || e.HeartbeatDoneEvent? || e.HeartbeatErrorEvent? || e.ParkClosed? || e.Recreated? {
        HandleTimer(e);
      } else {
        HandleGrowth(e);
      }
    }

    /** Along any orderly run the object follows the model, and never uses a null connection. */
    method Play(events: seq<Event>)
      requires ValidOptions(options) && Inv(State())
      requires Legal(options, State(), events) && OrderlyRun(options, State(), events)
      modifies this
      ensures State() == Run(options, old(State()), events) && Inv(State())
    {
      hide Inv, Closed, Enabled, Step, Orderly;
      ghost var s := State();
      var i := 0;
      while i < |events|
        invariant i <= |events| && Inv(State())
        invariant Legal(options, State(), events[i..]) && OrderlyRun(options, State(), events[i..])
        invariant Run(options, State(), events[i..]) == Run(options, s, events)
      {
        ghost var before, rest := State(), events[i..];
        assert rest[0] == events[i] && rest[1..] == events[i + 1..];
        TimerIsSafe(before);
        StepKeepsInv(options, before, events[i]);
        Handle(events[i]);
        i := i + 1;
      }
    }
  }

  /** Where promotePause stands once `i` of the items left in `pause` have been looked at. */
  ghost predicate Promoting(
    queued: seq<WorkId>, was: seq<WorkId>, works: map<WorkId, Work>, queue: seq<WorkId>, pause: seq<WorkId>, i: nat)
  {
    && i <= |pause|
    && (forall w | w in was :: w in works) && (forall w | w in pause :: w in works)
    && queue + Select(pause[i..], works, false) == queued + Select(was, works, false)
    && pause[..i] + Select(pause[i..], works, true) == Select(was, works, true)
  }

  lemma PromotingStarts(queued: seq<WorkId>, was: seq<WorkId>, works: map<WorkId, Work>)
    requires ItemsKnown(queued, was, works.Keys)
    ensures Promoting(queued, was, works, queued, was, 0)
  {
    assert was[0..] == was;
  }

  lemma PromotingKnows(
    queued: seq<WorkId>, was: seq<WorkId>, works: map<WorkId, Work>, queue: seq<WorkId>, pause: seq<WorkId>, i: nat)
    requires Promoting(queued, was, works, queue, pause, i) && i < |pause|
    ensures pause[i] in works
  {
  }

  lemma PromotingEnds(
    queued: seq<WorkId>, was: seq<WorkId>, works: map<WorkId, Work>, queue: seq<WorkId>, pause: seq<WorkId>)
    requires Promoting(queued, was, works, queue, pause, |pause|) && ItemsKnown(queued, was, works.Keys)
    ensures queue == queued + Select(was, works, false) && pause == Select(was, works, true)
  {
    assert pause[..|pause|] == pause;
  }

  lemma PromotedOne(
    queued: seq<WorkId>, was: seq<WorkId>, works: map<WorkId, Work>, queue: seq<WorkId>, pause: seq<WorkId>, i: nat,
    queueAfter: seq<WorkId>, pauseAfter: seq<WorkId>)
    requires Promoting(queued, was, works, queue, pause, i) && i < |pause| && !works[pause[i]].paused
    requires queueAfter == queue + [pause[i]] && pauseAfter == Without(pause, i)
    ensures Promoting(queued, was, works, queueAfter, pauseAfter, i)
  {
    assert pauseAfter[i..] == pause[i..][1..] && pauseAfter[..i] == pause[..i];
  }

  lemma KeptOne(
    queued: seq<WorkId>, was: seq<WorkId>, works: map<WorkId, Work>, queue: seq<WorkId>, pause: seq<WorkId>, i: nat)
    requires Promoting(queued, was, works, queue, pause, i) && i < |pause| && works[pause[i]].paused
    ensures Promoting(queued, was, works, queue, pause, i + 1)
  {
    assert pause[i..][1..] == pause[i + 1..] && pause[..i + 1] == pause[..i] + [pause[i]];
  }

  lemma FirstIndexIs(xs: seq<DescId>, p: DescId -> bool, i: nat)
    requires i <= |xs| && (forall k | 0 <= k < i :: !p(xs[k])) && (i < |xs| ==> p(xs[i]))
    ensures FirstIndex(xs, p) == i
  {
  }

  lemma ClosedGives(s: PoolModel.Pool, e: Event)
    requires Closed(s) && Enabled(s, e)
    ensures CanDrain(s)
    ensures e.ItemPaused? || e.ItemResumed? || e.ItemCancelled? ==> e.work in s.works
  {
  }

  lemma QueryStep(o: Options, s: PoolModel.Pool, e: Event)
    requires Closed(s) && Enabled(s, e)
    ensures e.SubmittedEvent? || e.ErrorEvent? || e.FreeEvent? ==>
              e.query in s.queries && s.queries[e.query].desc in s.descs
    ensures e.SubmittedEvent? ==> Step(o, s, e) == QuerySubmitted(s, e.query)
    ensures e.ErrorEvent? ==> Step(o, s, e) == QueryErrored(s, e.query)
    ensures e.FreeEvent? ==> Step(o, s, e) == QueryFreed(s, e.query)
    ensures e.Finished? ==> Step(o, s, e) == Finish(s, e.desc, e.now)
  {
    hide QuerySubmitted, QueryErrored, QueryFreed, Finish;
  }

  lemma TimerStep(o: Options, s: PoolModel.Pool, e: Event)
    requires Closed(s) && Enabled(s, e)
    ensures e.HeartbeatDoneEvent? ==> e.heartbeat in s.heartbeats && s.heartbeats[e.heartbeat].desc in s.descs
    ensures e.HeartbeatErrorEvent? ==> e.heartbeat in s.heartbeats
    ensures e.ParkClosed? || e.Recreated? ==> e.desc in s.descs
    ensures e.Ticked? ==> Step(o, s, e) == PoolModel.Tick(o, s, e.now)
    ensures e.HeartbeatDoneEvent? ==> Step(o, s, e) == HeartbeatDone(s, e.heartbeat, e.now)
    ensures e.HeartbeatErrorEvent? ==> Step(o, s, e) == HeartbeatError(s, e.heartbeat)
    ensures e.ParkClosed? ==> Step(o, s, e) == ParkDone(s, e.desc)
    ensures e.Recreated? ==> Step(o, s, e) == RecreateDone(s, e.desc, e.now)
  {
    hide PoolModel.Tick, HeartbeatDone, HeartbeatError, ParkDone, RecreateDone;
  }

  /** In every state an orderly run reaches, the timer finds connections that are not null. */
  lemma TimerIsSafe(s: PoolModel.Pool)
    requires Inv(s)
    ensures forall d | d in s.idle :: d in s.descs && s.descs[d].connected
  {
  }
}

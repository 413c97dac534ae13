/**
 * Runs of the pool: any finite sequence of events the outside world can produce, from the
 * state a new Pool starts in or from any state the invariants describe.
 */
module PoolRuns {
  import opened PoolModel
  import opened PoolInvariants
  import opened Wrappers

  predicate Legal(o: Options, s: Pool, es: seq<Event>)
    decreases |es|
  {
    es == [] || (Closed(s) && Enabled(s, es[0]) && Legal(o, Step(o, s, es[0]), es[1..]))
  }

  function Run(o: Options, s: Pool, es: seq<Event>): Pool
    requires Legal(o, s, es)
    decreases |es|
  {
    if es == [] then s else Run(o, Step(o, s, es[0]), es[1..])
  }

  // ---------------------------------------------------------------- every run: Closed and WorkInv

  lemma DrainStepKeepsClosed(s: Pool, now: int)
    requires Closed(s) && s.workQueue != [] && s.idle != []
    ensures Closed(DrainStep(s, now))
  {
    hide BeatsKnown;
    LastSplit(s.workQueue);
    var w := Last(s.workQueue);
    var d := Last(s.idle);
    assert s.descs[d := s.descs[d].(lastActive := now, keepAlive := 0)].Keys == s.descs.Keys;
    assert s.works[w := s.works[w].(attached := true)].Keys == s.works.Keys;
  }

  lemma {:induction false} DrainLoopKeeps(s: Pool, now: int)
    requires Closed(s) && WorkInv(s)
    ensures Closed(DrainLoop(s, now)) && WorkInv(DrainLoop(s, now))
    decreases |s.workQueue|
  {
    if s.workQueue != [] && s.idle != [] {
      DrainStepKeepsClosed(s, now);
      DrainStepKeepsWork(s, now);
      hide WorkInv, Closed, CanDrain, DrainStep;
      DrainLoopKeeps(DrainStep(s, now), now);
    }
  }

  lemma PromoteKeepsClosed(s: Pool)
    requires Closed(s)
    ensures Closed(PromotePause(s))
  {
    SelectIsSubset(s.pause, s.works, false);
    SelectIsSubset(s.pause, s.works, true);
  }

  lemma DrainKeeps(s: Pool, now: int)
    requires Closed(s) && WorkInv(s)
    ensures Closed(Drain(s, now)) && WorkInv(Drain(s, now))
  {
    PromoteKeepsClosed(s);
    PromoteKeepsWork(s);
    hide WorkInv, Closed;
    DrainLoopKeeps(PromotePause(s), now);
  }

  lemma CheckinKeeps(s: Pool, d: DescId)
    requires Closed(s) && WorkInv(s) && d in s.descs
    ensures Closed(Checkin(s, d)) && WorkInv(Checkin(s, d))
  {
    hide ConservedOk, OrderOk, FlagsOk, ItemsKnown, QueriesKnown, BeatsKnown;
    assert s.descs[d := s.descs[d].(work := None)].Keys == s.descs.Keys;
    assert (s.out - {d}).Keys <= s.out.Keys;
  }

  lemma WithoutKnown(xs: seq<DescId>, i: nat, all: set<DescId>)
    requires i < |xs| && forall x | x in xs :: x in all
    ensures forall x | x in Without(xs, i) :: x in all
  {
  }

  lemma TickKeeps(o: Options, s: Pool, now: int)
    requires Closed(s) && WorkInv(s)
    ensures Closed(Tick(o, s, now)) && WorkInv(Tick(o, s, now))
  {
    ParkKeepsClosed(o, s);
    hide Park, Closed, WorkInv;
    BeatKeepsClosed(o, Park(o, s), now);
  }

  lemma ParkKeepsClosed(o: Options, s: Pool)
    requires Closed(s) && WorkInv(s)
    ensures Closed(Park(o, s)) && WorkInv(Park(o, s))
  {
    hide ConservedOk, OrderOk, FlagsOk, ItemsKnown, QueriesKnown, BeatsKnown, Without, Inactive;
    var i := FirstIndex(s.idle, Inactive(o, s.descs));
    if i < |s.idle| { WithoutKnown(s.idle, i, s.descs.Keys); }
  }

  lemma BeatKeepsClosed(o: Options, s: Pool, now: int)
    requires Closed(s) && WorkInv(s)
    ensures Closed(Beat(o, s, now)) && WorkInv(Beat(o, s, now))
  {
    hide ConservedOk, OrderOk, FlagsOk, ItemsKnown, QueriesKnown, Without, Due;
    var i := FirstIndex(s.idle, Due(o, s.descs, now));
    if i < |s.idle| {
      WithoutKnown(s.idle, i, s.descs.Keys);
      assert s.idle[i] in s.descs;
    }
  }

  lemma OpenOkKeepsClosed(s: Pool, now: int)
    requires Closed(s) && WorkInv(s)
    ensures Closed(OpenOk(s, now)) && WorkInv(OpenOk(s, now))
  {
    hide WorkInv, QueriesKnown, BeatsKnown, ItemsKnown, Checkin;
    var s1 := Connected(s, now);
    KnownGrow(s, s1.descs.Keys);
    WorkUnchanged(s, s1);
    CheckinKeeps(s1, DescriptionFor(s));
  }

  lemma KnownGrow(s: Pool, descs: set<DescId>)
    requires QueriesKnown(s.queries, s.descs.Keys, s.works.Keys) && BeatsKnown(s.heartbeats, s.descs.Keys)
    requires s.descs.Keys <= descs
    ensures QueriesKnown(s.queries, descs, s.works.Keys) && BeatsKnown(s.heartbeats, descs)
  {
  }

  lemma WorkUnchanged(s: Pool, s': Pool)
    requires WorkInv(s)
    requires s'.works == s.works && s'.nextWork == s.nextWork && s'.workQueue == s.workQueue && s'.pause == s.pause
    requires s'.dispatched == s.dispatched && s'.released == s.released && s'.everPaused == s.everPaused
    ensures WorkInv(s')
  {
    hide ConservedOk, OrderOk, FlagsOk;
  }

  lemma FreedKeepsClosed(s: Pool, q: QueryId)
    requires Closed(s) && WorkInv(s) && q in s.queries && s.queries[q].desc in s.descs
    ensures Closed(QueryFreed(s, q)) && WorkInv(QueryFreed(s, q))
  {
    hide WorkInv, BeatsKnown, ItemsKnown;
    var s1 := s.(queries := s.queries - {q});
    WorkUnchanged(s, s1);
    CheckinKeeps(s1, s.queries[q].desc);
    WorkUnchanged(s, QueryFreed(s, q));
  }

  lemma HeartbeatDoneKeepsClosed(s: Pool, h: HeartbeatId, now: int)
    requires Closed(s) && WorkInv(s) && h in s.heartbeats && s.heartbeats[h].desc in s.descs
    ensures Closed(HeartbeatDone(s, h, now)) && WorkInv(HeartbeatDone(s, h, now))
  {
    hide WorkInv, ItemsKnown, QueriesKnown, DescsKnown;
    var hb := s.heartbeats[h];
    var desc := s.descs[hb.desc].(keepAlive := s.descs[hb.desc].keepAlive + 1, lastActive := now);
    var s1 := s.(heartbeats := s.heartbeats[h := hb.(settled := true, checkins := hb.checkins + 1)],
                 descs := s.descs[hb.desc := desc]);
    assert s1.descs.Keys == s.descs.Keys;
    WorkUnchanged(s, s1);
    CheckinKeeps(s1, hb.desc);
  }

  lemma RecreateDoneKeepsClosed(s: Pool, d: DescId, now: int)
    requires Closed(s) && WorkInv(s) && d in s.descs
    ensures Closed(RecreateDone(s, d, now)) && WorkInv(RecreateDone(s, d, now))
  {
    hide WorkInv, ItemsKnown, QueriesKnown, DescsKnown, BeatsKnown;
    var s1 := s.(descs := s.descs[d := s.descs[d].(connected := true, lastActive := now)]);
    assert s1.descs.Keys == s.descs.Keys;
    WorkUnchanged(s, s1);
    CheckinKeeps(s1, d);
  }

  /** finishTransaction re-attaches an item that is attached already. */
  lemma FinishKeepsClosed(s: Pool, d: DescId, now: int)
    requires Closed(s) && WorkInv(s) && (CanFinish(s, d) ==> s.works[s.descs[d].work.value].attached)
    ensures Closed(Finish(s, d, now)) && WorkInv(Finish(s, d, now))
  {
    hide BeatsKnown, OrderOk, ConservedOk;
    if CanFinish(s, d) {
      var w := s.descs[d].work.value;
      var s' := Finish(s, d, now);
      assert s'.works == s.works[w := s.works[w].(kind := Committing)];
      assert s'.works.Keys == s.works.Keys && s'.descs.Keys == s.descs.Keys;
      FlagKeepsWork(s, w, s.works[w].(kind := Committing), s.everPaused);
      hide FlagsOk;
    }
  }

  // ---------------------------------------------------------------- every run: work held is attached

  /** Work held by a description or a live query has a query object, so it cannot be cancelled in the pool. */
  predicate AttachedOk(descs: map<DescId, Description>, queries: map<QueryId, LiveQuery>, works: map<WorkId, Work>) {
    && (forall q | q in queries :: queries[q].work in works && works[queries[q].work].attached)
    && (forall d | d in descs && descs[d].work.Some? ::
          descs[d].work.value in works && works[descs[d].work.value].attached)
  }

  predicate Attached(s: Pool) { AttachedOk(s.descs, s.queries, s.works) }

  lemma CheckinKeepsAttached(s: Pool, d: DescId)
    requires Attached(s) && d in s.descs
    ensures Attached(Checkin(s, d))
  {
  }

  lemma ItemKeepsAttached(s: Pool, d: DescId, w: WorkId, now: int)
    requires Attached(s) && d in s.descs && w in s.works
    ensures Attached(Item(s, d, w, now))
  {
  }

  lemma DrainStepKeepsAttached(s: Pool, now: int)
    requires Attached(s) && CanDrain(s) && s.workQueue != [] && s.idle != []
    ensures Attached(DrainStep(s, now))
  {
    var w := Last(s.workQueue);
    var s1 := s.(workQueue := s.workQueue[..|s.workQueue| - 1]);
    if !s.works[w].pendingCancel && !s.works[w].paused {
      ItemKeepsAttached(Checkout(s1, Running(w, None)), Last(s.idle), w, now);
    }
    hide AttachedOk;
  }

  lemma {:induction false} DrainLoopKeepsAttached(s: Pool, now: int)
    requires Attached(s) && CanDrain(s)
    ensures Attached(DrainLoop(s, now))
    decreases |s.workQueue|
  {
    hide Attached, CanDrain, DrainStep;
    if s.workQueue != [] && s.idle != [] {
      DrainStepKeepsAttached(s, now);
      DrainLoopKeepsAttached(DrainStep(s, now), now);
    }
  }

  lemma DrainKeepsAttached(s: Pool, now: int)
    requires Attached(s) && CanDrain(s)
    ensures Attached(Drain(s, now))
  {
    hide AttachedOk;
    PromoteKeepsKnown(s);
    DrainLoopKeepsAttached(PromotePause(s), now);
  }

  lemma KeepsAttached(s: Pool, s': Pool)
    requires Attached(s)
    requires forall w | w in s.works && s.works[w].attached :: w in s'.works && s'.works[w].attached
    requires forall d | d in s'.descs && s'.descs[d].work.Some? :: d in s.descs && s.descs[d].work == s'.descs[d].work
    requires forall q | q in s'.queries :: q in s.queries && s'.queries[q].work == s.queries[q].work
    ensures Attached(s')
  {
  }

  lemma SubmittedKeepsAttached(s: Pool, q: QueryId)
    requires Attached(s) && q in s.queries && s.queries[q].desc in s.descs
    ensures Attached(QuerySubmitted(s, q))
  {
  }

  lemma FinishKeepsAttached(s: Pool, d: DescId, now: int)
    requires Attached(s)
    ensures Attached(Finish(s, d, now))
  {
    hide AttachedOk;
    if CanFinish(s, d) {
      var w := s.descs[d].work.value;
      var s1 := s.(works := s.works[w := s.works[w].(kind := Committing)]);
      KeepsAttached(s, s1);
      ItemKeepsAttached(s1, d, w, now);
    }
  }

  lemma ParkLeavesWork(o: Options, s: Pool)
    ensures Park(o, s).works == s.works && Park(o, s).descs == s.descs && Park(o, s).queries == s.queries
  {
    hide FirstIndex, Inactive, Without;
  }

  lemma BeatLeavesWork(o: Options, s: Pool, now: int)
    ensures Beat(o, s, now).works == s.works && Beat(o, s, now).descs == s.descs && Beat(o, s, now).queries == s.queries
  {
    hide FirstIndex, Due, Without;
  }

  lemma TickKeepsAttached(o: Options, s: Pool, now: int)
    requires Attached(s)
    ensures Attached(Tick(o, s, now))
  {
    ParkLeavesWork(o, s);
    BeatLeavesWork(o, Park(o, s), now);
    hide Park, Beat, AttachedOk;
  }

  lemma OpenOkKeepsAttached(s: Pool, now: int)
    requires Attached(s)
    ensures Attached(OpenOk(s, now))
  {
    hide AttachedOk, Checkin;
    KeepsAttached(s, Connected(s, now));
    CheckinKeepsAttached(Connected(s, now), DescriptionFor(s));
  }

  lemma FreedKeepsAttached(s: Pool, q: QueryId)
    requires Attached(s) && q in s.queries && s.queries[q].desc in s.descs
    ensures Attached(QueryFreed(s, q))
  {
    hide Attached;
    KeepsAttached(s, QueryFreed(s, q));
  }

  lemma HeartbeatDoneKeepsAttached(s: Pool, h: HeartbeatId, now: int)
    requires Attached(s) && h in s.heartbeats && s.heartbeats[h].desc in s.descs
    ensures Attached(HeartbeatDone(s, h, now))
  {
    hide Attached;
    KeepsAttached(s, HeartbeatDone(s, h, now));
  }

  lemma RecreateDoneKeepsAttached(s: Pool, d: DescId, now: int)
    requires Attached(s) && d in s.descs
    ensures Attached(RecreateDone(s, d, now))
  {
    hide Attached;
    KeepsAttached(s, RecreateDone(s, d, now));
  }

  // ---------------------------------------------------------------- every run

  /** What holds along every run, however the transactions are finished. */
  predicate Base(s: Pool) {
    Closed(s) && WorkInv(s) && Attached(s)
  }

  lemma SubmitKeepsBase(s: Pool, kind: WorkKind)
    requires Base(s)
    ensures Base(Submit(s, kind))
  {
    SubmitKeepsWork(s, kind);
    NewWorkIsNew(s);
    assert Submit(s, kind).works.Keys == s.works.Keys + {s.nextWork};
    hide WorkInv, DescsKnown, BeatsKnown;
    KeepsAttached(s, Submit(s, kind));
  }

  lemma NewWorkIsNew(s: Pool)
    requires WorkInv(s)
    ensures s.nextWork !in s.works
  {
  }

  lemma FlagKeepsBase(s: Pool, w: WorkId, work: Work, everPaused: set<WorkId>)
    requires Base(s) && w in s.works && work.attached == s.works[w].attached
    requires s.works[w].attached ==> work.pendingCancel == s.works[w].pendingCancel
    requires s.works[w].pendingCancel ==> work.pendingCancel
    requires s.everPaused <= everPaused && (work.paused && !work.attached ==> w in everPaused)
    ensures Base(s.(works := s.works[w := work], everPaused := everPaused))
  {
    var s' := s.(works := s.works[w := work], everPaused := everPaused);
    FlagKeepsWork(s, w, work, everPaused);
    assert s'.works.Keys == s.works.Keys;
    hide WorkInv, DescsKnown, BeatsKnown, ItemsKnown, QueriesKnown;
    KeepsAttached(s, s');
  }

  lemma FlagEventKeepsBase(o: Options, s: Pool, e: Event)
    requires Base(s) && Enabled(s, e) && (e.ItemPaused? || e.ItemResumed? || e.ItemCancelled?)
    ensures Base(Step(o, s, e))
  {
    hide Closed, Attached;
    var w := e.work;
    var work := s.works[w];
    match e
    case ItemPaused(_) =>
      FlagKeepsBase(s, w, work.(paused := true), if work.attached then s.everPaused else s.everPaused + {w});
    case ItemResumed(_) => FlagKeepsBase(s, w, work.(paused := false), s.everPaused);
    case ItemCancelled(_) =>
      if !work.attached {
        if work.paused { EverPausedOf(s, w); }
        FlagKeepsBase(s, w, work.(pendingCancel := true), s.everPaused);
      }
  }

  lemma EverPausedOf(s: Pool, w: WorkId)
    requires WorkInv(s) && w in s.works && s.works[w].paused && !s.works[w].attached
    ensures w in s.everPaused
  {
  }

  lemma CounterKeepsBase(s: Pool, s': Pool)
    requires Base(s)
    requires s' == s.(pendingCreates := s'.pendingCreates, delayed := s'.delayed, isOpen := s'.isOpen)
    ensures Base(s')
  {
    hide WorkInv, DescsKnown, BeatsKnown, ItemsKnown, QueriesKnown, AttachedOk;
    WorkUnchanged(s, s');
  }

  lemma DrainKeepsBase(s: Pool, now: int)
    requires Base(s)
    ensures Base(Drain(s, now))
  {
    hide WorkInv, Attached, Drain;
    DrainKeeps(s, now);
    DrainKeepsAttached(s, now);
  }

  lemma CrankKeepsBase(o: Options, s: Pool, now: int)
    requires Base(s)
    ensures CanDrain(s) && Base(Crank(o, s, now))
  {
    assert CanDrain(s);
    hide Base, CanDrain, Drain, GrowStarts, GrowDelays;
    if o.strategy == Efficient {
      DrainKeepsBase(s, now);
      CounterKeepsBase(Drain(s, now), Crank(o, s, now));
    } else {
      CounterKeepsBase(s, Crank(o, s, now));
    }
  }

  lemma QueryEventKeepsBase(s: Pool, q: QueryId)
    requires Base(s) && q in s.queries && s.queries[q].desc in s.descs
    ensures Base(QuerySubmitted(s, q)) && Base(QueryErrored(s, q))
  {
    hide WorkInv, DescsKnown, BeatsKnown, ItemsKnown;
    SubmittedKeepsAttached(s, q);
    KeepsAttached(s, QueryErrored(s, q));
    WorkUnchanged(s, QuerySubmitted(s, q));
    WorkUnchanged(s, QueryErrored(s, q));
    assert QuerySubmitted(s, q).descs.Keys == s.descs.Keys;
  }

  lemma FinishKeepsBase(s: Pool, d: DescId, now: int)
    requires Base(s)
    ensures Base(Finish(s, d, now))
  {
    FinishKeepsClosed(s, d, now);
    FinishKeepsAttached(s, d, now);
    hide WorkInv, Closed, Attached, Finish;
  }

  lemma HeartbeatErrorKeepsBase(s: Pool, h: HeartbeatId)
    requires Base(s) && h in s.heartbeats
    ensures Base(HeartbeatError(s, h))
  {
    hide WorkInv, ItemsKnown, QueriesKnown, AttachedOk;
    WorkUnchanged(s, HeartbeatError(s, h));
  }

  lemma ParkDoneKeepsBase(s: Pool, d: DescId)
    requires Base(s) && d in s.descs
    ensures Base(ParkDone(s, d))
  {
    hide WorkInv, ItemsKnown, QueriesKnown, BeatsKnown;
    var s' := ParkDone(s, d);
    assert s'.descs.Keys == s.descs.Keys;
    WorkUnchanged(s, s');
    KeepsAttached(s, s');
  }

  lemma ReturnEventKeepsBase(s: Pool, e: Event, o: Options)
    requires Base(s) && Enabled(s, e)
    requires e.FreeEvent? || e.HeartbeatDoneEvent? || e.Recreated? || e.ConnectionOpened? || e.Ticked?
    ensures Base(Step(o, s, e))
  {
    hide QueryFreed, HeartbeatDone, RecreateDone, OpenOk, Tick, Closed, WorkInv, Attached;
    BaseGives(s, e);
    match e
    case FreeEvent(q) => FreedKeepsClosed(s, q); FreedKeepsAttached(s, q);
    case HeartbeatDoneEvent(h, now) => HeartbeatDoneKeepsClosed(s, h, now); HeartbeatDoneKeepsAttached(s, h, now);
    case Recreated(d, now) => RecreateDoneKeepsClosed(s, d, now); RecreateDoneKeepsAttached(s, d, now);
    case ConnectionOpened(now) => OpenOkKeepsClosed(s, now); OpenOkKeepsAttached(s, now);
    case Ticked(now) => TickKeeps(o, s, now); TickKeepsAttached(o, s, now);
  }

  lemma StepKeepsBase(o: Options, s: Pool, e: Event)
    requires Base(s) && Enabled(s, e)
    ensures Base(Step(o, s, e))
  {
    hide Base, Closed, Crank, Drain, OpenOk, QuerySubmitted, QueryErrored, QueryFreed, Finish, Tick;
    hide HeartbeatDone, HeartbeatError, ParkDone, RecreateDone, Submit;
    BaseGives(s, e);
    match e
    case Submitted(kind) => SubmitKeepsBase(s, kind);
    case ItemPaused(_) => FlagEventKeepsBase(o, s, e);
    case ItemResumed(_) => FlagEventKeepsBase(o, s, e);
    case ItemCancelled(_) => FlagEventKeepsBase(o, s, e);
    case Cranked(now) => CrankKeepsBase(o, s, now);
    case Drained(now) => DrainKeepsBase(s, now);
    case OpenCalled => CounterKeepsBase(s, Step(o, s, e));
    case PoolOpened => CounterKeepsBase(s, Step(o, s, e));
    case DelayPassed => CounterKeepsBase(s, Step(o, s, e));
    case ConnectionFailed => CounterKeepsBase(s, Step(o, s, e));
    case SubmittedEvent(q) => QueryEventKeepsBase(s, q);
    case ErrorEvent(q) => QueryEventKeepsBase(s, q);
    case Finished(d, now) => FinishKeepsBase(s, d, now);
    case HeartbeatErrorEvent(h) => HeartbeatErrorKeepsBase(s, h);
    case ParkClosed(d) => ParkDoneKeepsBase(s, d);
    case ConnectionOpened(_) => ReturnEventKeepsBase(s, e, o);
    case FreeEvent(_) => ReturnEventKeepsBase(s, e, o);
    case Ticked(_) => ReturnEventKeepsBase(s, e, o);
    case HeartbeatDoneEvent(_, _) => ReturnEventKeepsBase(s, e, o);
    case Recreated(_, _) => ReturnEventKeepsBase(s, e, o);
  }

  lemma BaseGives(s: Pool, e: Event)
    requires Base(s) && Enabled(s, e)
    ensures Closed(s)
    ensures e.SubmittedEvent? || e.ErrorEvent? || e.FreeEvent? ==> s.queries[e.query].desc in s.descs
    ensures e.ParkClosed? || e.Recreated? ==> e.desc in s.descs
    ensures e.HeartbeatDoneEvent? || e.HeartbeatErrorEvent? ==> s.heartbeats[e.heartbeat].desc in s.descs
    ensures CanDrain(s) && forall d | d in s.parked :: d in s.descs
  {
  }

  /** Along every run each item is in one place, the flags agree with it, and order is kept. */
  lemma {:induction false} RunKeepsBase(o: Options, s: Pool, es: seq<Event>)
    requires Base(s) && Legal(o, s, es)
    ensures Base(Run(o, s, es))
    decreases |es|
  {
    hide Base, Closed, Enabled, Step;
    if es != [] {
      StepKeepsBase(o, s, es[0]);
      RunKeepsBase(o, Step(o, s, es[0]), es[1..]);
    }
  }

  lemma InitialBase()
    ensures Base(INITIAL)
  {
  }
}

/**
 * What becomes of a query, from the dispatch that starts it to its 'free' event, over every run
 * in between: what it is told is what its last event acts on.
 */
module PoolOutcomes {
  import opened PoolModel
  import opened PoolInvariants
  import opened PoolRuns
  import opened PoolTheorems
  import opened PoolTransactions
  import opened Wrappers

  /** Query `q` of a work item of that kind is live on `d`, and has been told these two things. */
  predicate Serves(s: Pool, q: QueryId, live: LiveQuery, kind: WorkKind) {
    && q in s.queries && s.queries[q] == live
    && live.desc in s.descs && (!live.submitted ==> s.descs[live.desc].work == None)
    && live.work in s.works && s.works[live.work].kind == kind
  }

  lemma DispatchServes(s: Pool, now: int)
    requires DescInv(s) && CanDrain(s) && s.workQueue != [] && s.idle != []
    requires !s.works[Last(s.workQueue)].pendingCancel && !s.works[Last(s.workQueue)].paused
    ensures Serves(DrainStep(s, now), s.nextQuery, LiveQuery(Last(s.idle), Last(s.workQueue), false, false),
                   s.works[Last(s.workQueue)].kind)
  {
    hide PlacesOk, BeatsOk, CountersOk, ConnectedOk, IdsOk;
    IdleIsFree(s, |s.idle| - 1);
  }

  /** Nobody else has its description, its work or its name. */
  lemma ServesAlone(s: Pool, q: QueryId, live: LiveQuery, kind: WorkKind)
    requires DescInv(s) && Serves(s, q, live, kind)
    ensures q < s.nextQuery && live.desc in s.out && s.out[live.desc] == Running(live.work, Some(q))
    ensures live.desc !in s.idle && live.desc !in s.closing && DescriptionFor(s) != live.desc
    ensures forall p | p in s.queries && p != q :: s.queries[p].desc != live.desc
    ensures forall h | h in s.heartbeats && !s.heartbeats[h].settled :: s.heartbeats[h].desc != live.desc
    ensures forall c | c in s.descs && s.descs[c].work == Some(live.work) :: c == live.desc
  {
    hide CountersOk, ConnectedOk;
  }

  lemma DrainStepServes(s: Pool, now: int, q: QueryId, live: LiveQuery, kind: WorkKind)
    requires DescInv(s) && Serves(s, q, live, kind) && CanDrain(s) && s.workQueue != [] && s.idle != []
    ensures Serves(DrainStep(s, now), q, live, kind)
  {
    hide DescInv, CanDrain;
    ServesAlone(s, q, live, kind);
    assert Last(s.idle) in s.idle;
  }

  lemma {:induction false} DrainLoopServes(s: Pool, now: int, q: QueryId, live: LiveQuery, kind: WorkKind)
    requires Inv(s) && Serves(s, q, live, kind) && CanDrain(s)
    ensures Serves(DrainLoop(s, now), q, live, kind)
    decreases |s.workQueue|
  {
    hide Base, DescInv, DrainStep, CanDrain, Serves;
    if s.workQueue != [] && s.idle != [] {
      DrainStepServes(s, now, q, live, kind);
      DrainStepKeepsInv(s, now);
      DrainLoopServes(DrainStep(s, now), now, q, live, kind);
    }
  }

  lemma CrankServes(o: Options, s: Pool, now: int, q: QueryId, live: LiveQuery, kind: WorkKind)
    requires Inv(s) && Serves(s, q, live, kind) && CanDrain(s)
    ensures Serves(Drain(s, now), q, live, kind) && Serves(Crank(o, s, now), q, live, kind)
  {
    hide Base, DescInv, DrainLoop, GrowStarts, GrowDelays, Select, Existing;
    PromoteKeepsKnown(s);
    PromoteKeepsInv(s);
    DrainLoopServes(PromotePause(s), now, q, live, kind);
  }

  lemma CheckinServes(s: Pool, c: DescId, q: QueryId, live: LiveQuery, kind: WorkKind)
    requires c in s.descs && c != live.desc && Serves(s, q, live, kind)
    ensures Serves(Checkin(s, c), q, live, kind)
  {
  }

  /** The events of the query itself. */
  lemma OwnEventServes(o: Options, s: Pool, e: Event, q: QueryId, live: LiveQuery, kind: WorkKind)
    requires Closed(s) && Enabled(s, e) && Serves(s, q, live, kind)
    requires e == SubmittedEvent(q) || e == ErrorEvent(q)
    ensures Serves(Step(o, s, e), q, Told(live, e, q), kind)
  {
    hide Closed;
  }

  /** What an event tells the query. */
  function Told(live: LiveQuery, e: Event, q: QueryId): LiveQuery {
    live.(submitted := live.submitted || e == SubmittedEvent(q), errored := live.errored || e == ErrorEvent(q))
  }

  /** Events of other queries. */
  lemma QueryEventServes(o: Options, s: Pool, e: Event, q: QueryId, live: LiveQuery, kind: WorkKind)
    requires Inv(s) && Closed(s) && Enabled(s, e) && Orderly(s, e) && Serves(s, q, live, kind)
    requires e.SubmittedEvent? || e.ErrorEvent? || e.FreeEvent?
    requires e.query != q
    ensures Serves(Step(o, s, e), q, live, kind)
  {
    hide Base, DescInv, Closed, Checkin;
    BaseGives(s, e);
    ServesAlone(s, q, live, kind);
    if e.FreeEvent? {
      CheckinServes(s.(queries := s.queries - {e.query}), s.queries[e.query].desc, q, live, kind);
    }
  }

  lemma FinishServes(s: Pool, c: DescId, now: int, q: QueryId, live: LiveQuery, kind: WorkKind)
    requires DescInv(s) && Serves(s, q, live, kind) && (CanFinish(s, c) ==> c != live.desc)
    ensures Serves(Finish(s, c, now), q, live, kind)
  {
    hide DescInv;
    ServesAlone(s, q, live, kind);
  }

  lemma BeatServes(s: Pool, h: HeartbeatId, now: int, q: QueryId, live: LiveQuery, kind: WorkKind)
    requires DescInv(s) && Serves(s, q, live, kind) && h in s.heartbeats && s.heartbeats[h].desc in s.descs
    ensures Serves(HeartbeatDone(s, h, now), q, live, kind) && Serves(HeartbeatError(s, h), q, live, kind)
  {
    hide DescInv, Checkin;
    ServesAlone(s, q, live, kind);
    var hb := s.heartbeats[h];
    if !hb.settled {
      var desc := s.descs[hb.desc];
      CheckinServes(s.(heartbeats := s.heartbeats[h := hb.(settled := true, checkins := hb.checkins + 1)],
                       descs := s.descs[hb.desc := desc.(keepAlive := desc.keepAlive + 1, lastActive := now)]),
                    hb.desc, q, live, kind);
    }
  }

  lemma RecreatedServes(s: Pool, c: DescId, now: int, q: QueryId, live: LiveQuery, kind: WorkKind)
    requires DescInv(s) && Serves(s, q, live, kind) && c in s.out && s.out[c] == Recreating && c in s.descs
    ensures Serves(RecreateDone(s, c, now), q, live, kind)
  {
    hide DescInv, Checkin;
    ServesAlone(s, q, live, kind);
    CheckinServes(s.(descs := s.descs[c := s.descs[c].(connected := true, lastActive := now)]), c, q, live, kind);
  }

  lemma OpenServes(s: Pool, now: int, q: QueryId, live: LiveQuery, kind: WorkKind)
    requires DescInv(s) && Serves(s, q, live, kind)
    ensures Serves(OpenOk(s, now), q, live, kind)
  {
    hide DescInv, Checkin, DescriptionFor;
    ServesAlone(s, q, live, kind);
    CheckinServes(Connected(s, now), DescriptionFor(s), q, live, kind);
  }

  lemma TickServes(o: Options, s: Pool, now: int, q: QueryId, live: LiveQuery, kind: WorkKind)
    requires Serves(s, q, live, kind)
    ensures Serves(Tick(o, s, now), q, live, kind)
  {
    hide FirstIndex, Inactive, Due, Without;
  }

  lemma ParkServes(s: Pool, c: DescId, q: QueryId, live: LiveQuery, kind: WorkKind)
    requires DescInv(s) && Serves(s, q, live, kind) && c in s.closing && c in s.descs
    ensures Serves(ParkDone(s, c), q, live, kind)
  {
    hide DescInv;
    ServesAlone(s, q, live, kind);
  }

  lemma WorkEventServes(o: Options, s: Pool, e: Event, q: QueryId, live: LiveQuery, kind: WorkKind)
    requires WorkInv(s) && Closed(s) && Enabled(s, e) && Serves(s, q, live, kind)
    requires || e.Submitted? || e.ItemPaused? || e.ItemResumed? || e.ItemCancelled? || e.PoolOpened? || e.OpenCalled?
             || e.DelayPassed? || e.ConnectionFailed?
    ensures Serves(Step(o, s, e), q, live, kind)
  {
    hide Closed, WorkInv, Drain, Crank, OpenOk, QueryFreed, Finish, Tick, HeartbeatDone, HeartbeatError, RecreateDone;
    hide GrowStarts, GrowDelays, QuerySubmitted, QueryErrored, ParkDone;
    NewWorkIsNew(s);
  }

  lemma StepServes(o: Options, s: Pool, e: Event, q: QueryId, live: LiveQuery, kind: WorkKind)
    requires Inv(s) && Closed(s) && Enabled(s, e) && Orderly(s, e) && Serves(s, q, live, kind) && e != FreeEvent(q)
    ensures Serves(Step(o, s, e), q, Told(live, e, q), kind)
  {
    hide Base, DescInv, Closed, CanDrain, CanFinish, Drain, Crank, OpenOk, QueryFreed, Finish, Tick, Serves, OpenPool;
    hide HeartbeatDone, HeartbeatError, RecreateDone, QuerySubmitted, QueryErrored, ParkDone, Submit;
    BaseGives(s, e);
    BaseHolds(s);
    if e == SubmittedEvent(q) || e == ErrorEvent(q) {
      OwnEventServes(o, s, e, q, live, kind);
    } else {
      match e
      case Cranked(now) => CrankServes(o, s, now, q, live, kind);
      case Drained(now) => CrankServes(o, s, now, q, live, kind);
      case SubmittedEvent(_) => QueryEventServes(o, s, e, q, live, kind);
      case ErrorEvent(_) => QueryEventServes(o, s, e, q, live, kind);
      case FreeEvent(_) => QueryEventServes(o, s, e, q, live, kind);
      case Finished(c, now) => ServesIs(s, q, live, kind); FinishServes(s, c, now, q, live, kind);
      case Ticked(now) => TickServes(o, s, now, q, live, kind);
      case HeartbeatDoneEvent(h, now) => BeatServes(s, h, now, q, live, kind);
      case HeartbeatErrorEvent(h) => BeatServes(s, h, 0, q, live, kind);
      case Recreated(c, now) => RecreatedServes(s, c, now, q, live, kind);
      case ConnectionOpened(now) => OpenServes(s, now, q, live, kind);
      case ParkClosed(c) => ParkServes(s, c, q, live, kind);
      case _ => WorkEventServes(o, s, e, q, live, kind);
    }
  }

  lemma ServesIs(s: Pool, q: QueryId, live: LiveQuery, kind: WorkKind)
    requires Serves(s, q, live, kind)
    ensures q in s.queries && s.queries[q] == live
  {
  }

  /** Until it frees, a query is live with exactly what the events so far have told it. */
  lemma {:induction false} RunServes(
    o: Options, s: Pool, es: seq<Event>, q: QueryId, live: LiveQuery, kind: WorkKind)
    requires Inv(s) && Legal(o, s, es) && OrderlyRun(o, s, es) && Serves(s, q, live, kind) && FreeEvent(q) !in es
    ensures Inv(Run(o, s, es))
    ensures Serves(Run(o, s, es), q,
                   live.(submitted := live.submitted || SubmittedEvent(q) in es,
                         errored := live.errored || ErrorEvent(q) in es), kind)
    decreases |es|
  {
    hide Inv, Closed, Enabled, Orderly, Step, Serves;
    if es != [] {
      assert es[0] in es && es == [es[0]] + es[1..];
      StepServes(o, s, es[0], q, live, kind);
      StepKeepsInv(o, s, es[0]);
      RunServes(o, Step(o, s, es[0]), es[1..], q, Told(live, es[0], q), kind);
    }
  }

  /**
   * Over any run from its dispatch to its 'free' event, a query returns its description exactly
   * when it was never submitted, had an 'error' event, or began no transaction.
   */
  lemma DispatchedComesBackExactlyWhen(o: Options, s: Pool, es: seq<Event>, q: QueryId, live: LiveQuery, kind: WorkKind)
    requires Inv(s) && Legal(o, s, es) && OrderlyRun(o, s, es) && FreeEvent(q) !in es
    requires Serves(s, q, live, kind) && !live.submitted && !live.errored
    ensures (var t := Run(o, s, es);
             && Closed(t) && Enabled(t, FreeEvent(q))
             && (live.desc in Step(o, t, FreeEvent(q)).idle
                 <==> SubmittedEvent(q) !in es || ErrorEvent(q) in es || kind != Transaction))
  {
    hide Base, DescInv, Legal, OrderlyRun, Run, QueryFreed, Closed;
    RunServes(o, s, es, q, live, kind);
    var t := Run(o, s, es);
    BaseHolds(t);
    FreedReturnsExactlyWhen(t, q);
  }
}

/**
 * The main results about the pool: where descriptions are, who may use one, how many
 * connections there can be, and in which order work leaves the queue.
 */
module PoolTheorems {
  import opened PoolModel
  import opened PoolInvariants
  import opened PoolRuns
  import opened Wrappers

  /** A transaction is finished only when no query is live on its description. */
  predicate Orderly(s: Pool, e: Event) {
    e.Finished? && CanFinish(s, e.desc) ==> forall q | q in s.queries :: s.queries[q].desc != e.desc
  }

  predicate OrderlyRun(o: Options, s: Pool, es: seq<Event>)
    requires Legal(o, s, es)
    decreases |es|
  {
    es == [] || (Orderly(s, es[0]) && OrderlyRun(o, Step(o, s, es[0]), es[1..]))
  }

  predicate Inv(s: Pool) {
    Base(s) && DescInv(s)
  }

  // ---------------------------------------------------------------- descriptions along orderly runs

  lemma DrainStepKeepsInv(s: Pool, now: int)
    requires Inv(s) && CanDrain(s) && s.workQueue != [] && s.idle != []
    ensures Inv(DrainStep(s, now))
  {
    hide WorkInv, DescInv, Attached, Closed, DrainStep, CanDrain;
    DrainStepKeepsWork(s, now);
    DrainStepKeepsClosed(s, now);
    DrainStepKeepsAttached(s, now);
    DrainStepKeeps(s, now);
  }

  lemma {:induction false} DrainLoopKeepsInv(s: Pool, now: int)
    requires Inv(s) && CanDrain(s)
    ensures Inv(DrainLoop(s, now))
    decreases |s.workQueue|
  {
    hide Inv, DrainStep, CanDrain;
    if s.workQueue != [] && s.idle != [] {
      DrainStepKeepsInv(s, now);
      DrainLoopKeepsInv(DrainStep(s, now), now);
    }
  }

  lemma PromoteKeepsInv(s: Pool)
    requires Inv(s) && ItemsKnown(s.workQueue, s.pause, s.works.Keys)
    ensures Inv(PromotePause(s))
  {
    hide WorkInv, Closed, AttachedOk, PlacesOk, HoldsOk, BeatsOk, CountersOk, ConnectedOk, IdsOk, ItemsKnown;
    PromoteKeepsClosed(s);
    PromoteKeepsWork(s);
  }

  lemma DrainKeepsDesc(s: Pool, now: int)
    requires Inv(s) && CanDrain(s)
    ensures DescInv(Drain(s, now))
  {
    hide DescInv, Base, PromotePause, DrainLoop;
    PromoteKeepsKnown(s);
    PromoteKeepsInv(s);
    DrainLoopKeepsInv(PromotePause(s), now);
  }

  lemma CrankKeepsDesc(o: Options, s: Pool, now: int)
    requires Inv(s) && CanDrain(s)
    ensures DescInv(Crank(o, s, now))
  {
    hide DescInv, Grow, Base, Drain;
    if o.strategy == Efficient {
      DrainKeepsDesc(s, now);
      GrowKeeps(o, Drain(s, now));
    } else {
      GrowKeeps(o, s);
    }
  }

  lemma WorksKeepDesc(s: Pool, s': Pool)
    requires DescInv(s)
    requires forall w | w in s.works ::
               w in s'.works && s'.works[w].kind == s.works[w].kind && s'.works[w].attached == s.works[w].attached
    requires s' == s.(works := s'.works, workQueue := s'.workQueue, nextWork := s'.nextWork,
                      everPaused := s'.everPaused, isOpen := s'.isOpen)
    ensures DescInv(s')
  {
    HoldsWorks(s.out, s.queries, s.nextQuery, s.descs, s.works, s'.works);
    hide PlacesOk, HoldsOk, BeatsOk, CountersOk, ConnectedOk, IdsOk;
  }

  lemma WorkEventKeepsDesc(o: Options, s: Pool, e: Event)
    requires DescInv(s) && WorkInv(s) && Closed(s) && Enabled(s, e)
    requires e.Submitted? || e.ItemPaused? || e.ItemResumed? || e.ItemCancelled? || e.PoolOpened?
    ensures DescInv(Step(o, s, e))
  {
    hide DescInv, Closed, WorkInv;
    NewWorkIsNew(s);
    match e
    case Submitted(kind) => WorksKeepDesc(s, Submit(s, kind));
    case ItemPaused(w) => WorksKeepDesc(s, Step(o, s, e));
    case ItemResumed(w) => WorksKeepDesc(s, Step(o, s, e));
    case ItemCancelled(w) => WorksKeepDesc(s, Step(o, s, e));
    case PoolOpened => WorksKeepDesc(s, Step(o, s, e));
  }

  lemma OrderlyFinish(s: Pool, d: DescId)
    requires DescInv(s) && CanFinish(s, d)
    requires forall q | q in s.queries :: s.queries[q].desc != d
    ensures d in s.out && s.out[d].Running? && s.out[d].query == None
  {
  }

  lemma QueryEventKeepsDesc(o: Options, s: Pool, e: Event)
    requires Inv(s) && Closed(s) && Enabled(s, e) && Orderly(s, e)
    requires e.SubmittedEvent? || e.ErrorEvent? || e.FreeEvent? || e.Finished?
    ensures DescInv(Step(o, s, e))
  {
    hide Base, DescInv, Closed, CanFinish, QuerySubmitted, QueryErrored, QueryFreed, Finish;
    BaseGives(s, e);
    if e.Finished? && CanFinish(s, e.desc) { OrderlyFinish(s, e.desc); }
    match e
    case SubmittedEvent(q) => SubmittedKeeps(s, q);
    case ErrorEvent(q) => ErroredKeeps(s, q);
    case FreeEvent(q) => FreedKeeps(s, q);
    case Finished(d, now) => FinishKeeps(s, d, now);
  }

  lemma TimerEventKeepsDesc(o: Options, s: Pool, e: Event)
    requires Inv(s) && Closed(s) && Enabled(s, e)
    requires e.Ticked? || e.HeartbeatDoneEvent? || e.HeartbeatErrorEvent? || e.ParkClosed? || e.Recreated?
    ensures DescInv(Step(o, s, e))
  {
    hide Base, DescInv, Closed, Park, Beat, HeartbeatDone, HeartbeatError, ParkDone, RecreateDone;
    BaseGives(s, e);
    match e
    case Ticked(now) => ParkKeeps(o, s); BeatKeeps(o, Park(o, s), now);
    case HeartbeatDoneEvent(h, now) => HeartbeatDoneKeeps(s, h, now);
    case HeartbeatErrorEvent(h) => HeartbeatErrorKeeps(s, h);
    case ParkClosed(d) => ParkDoneKeeps(s, d);
    case Recreated(d, now) => RecreateDoneKeeps(s, d, now);
  }

  lemma GrowthEventKeepsDesc(o: Options, s: Pool, e: Event)
    requires Inv(s) && Closed(s) && Enabled(s, e)
    requires e.Cranked? || e.Drained? || e.OpenCalled? || e.DelayPassed? || e.ConnectionOpened? || e.ConnectionFailed?
    ensures DescInv(Step(o, s, e))
  {
    hide Base, DescInv, Closed, CanDrain, Crank, Drain, OpenOk, Grow;
    BaseGives(s, e);
    CountersAreNatural(s);
    match e
    case OpenCalled => GrowKeeps(o, s);
    case Cranked(now) => CrankKeepsDesc(o, s, now);
    case Drained(now) => DrainKeepsDesc(s, now);
    case DelayPassed => PendingKeeps(s, s.pendingCreates + 1, s.delayed - 1);
    case ConnectionFailed => PendingKeeps(s, s.pendingCreates - 1, s.delayed);
    case ConnectionOpened(now) => OpenOkKeeps(s, now);
  }

  lemma StepKeepsDesc(o: Options, s: Pool, e: Event)
    requires Inv(s) && Closed(s) && Enabled(s, e) && Orderly(s, e)
    ensures DescInv(Step(o, s, e))
  {
    hide Step, DescInv, Base, Closed, Enabled, Orderly;
    BaseHolds(s);
    if e.SubmittedEvent? || e.ErrorEvent? || e.FreeEvent? || e.Finished? {
      QueryEventKeepsDesc(o, s, e);
    } else if e.Ticked? || e.HeartbeatDoneEvent? || e.HeartbeatErrorEvent? || e.ParkClosed? || e.Recreated? {
      TimerEventKeepsDesc(o, s, e);
    } else if e.Submitted? || e.ItemPaused? || e.ItemResumed? || e.ItemCancelled? || e.PoolOpened? {
      WorkEventKeepsDesc(o, s, e);
    } else {
      GrowthEventKeepsDesc(o, s, e);
    }
  }

  lemma BaseHolds(s: Pool)
    requires Base(s)
    ensures Closed(s) && WorkInv(s) && Attached(s) && CanDrain(s)
  {
  }

  lemma StepKeepsInv(o: Options, s: Pool, e: Event)
    requires Inv(s) && Closed(s) && Enabled(s, e) && Orderly(s, e)
    ensures Inv(Step(o, s, e))
  {
    hide Base, DescInv, Closed, Enabled, Orderly, Step;
    StepKeepsBase(o, s, e);
    StepKeepsDesc(o, s, e);
  }

  lemma {:induction false} RunKeepsInv(o: Options, s: Pool, es: seq<Event>)
    requires Inv(s) && Legal(o, s, es) && OrderlyRun(o, s, es)
    ensures Inv(Run(o, s, es))
    decreases |es|
  {
    hide Inv, Closed, Enabled, Orderly, Step;
    if es != [] {
      StepKeepsInv(o, s, es[0]);
      RunKeepsInv(o, Step(o, s, es[0]), es[1..]);
    }
  }

  lemma InitialInv()
    ensures Inv(INITIAL)
  {
    InitialBase();
  }

  /** Exactly one of four. */
  predicate OneOf(a: bool, b: bool, c: bool, d: bool) {
    (if a then 1 else 0) + (if b then 1 else 0) + (if c then 1 else 0) + (if d then 1 else 0) == 1
  }

  /**
   * After any orderly run of a new pool: every description is in one phase, once; idle ones hold
   * a connection and parked ones none; a heartbeat has ended in at most one of checkin and
   * recreate however often its events came; and the busy counter is within what is out.
   */
  lemma EveryRunKeepsPhases(o: Options, es: seq<Event>)
    requires Legal(o, INITIAL, es) && OrderlyRun(o, INITIAL, es)
    ensures (var s := Run(o, INITIAL, es);
             && (forall d | d in s.descs :: OneOf(d in s.idle, d in s.parked, d in s.out, d in s.closing))
             && Distinct(s.idle) && Distinct(s.parked)
             && (forall d | d in s.descs :: s.descs[d].connected <==> d !in s.parked)
             && (forall h | h in s.heartbeats ::
                   s.heartbeats[h].checkins + s.heartbeats[h].recreates == if s.heartbeats[h].settled then 1 else 0)
             && 0 <= s.busy <= |s.out.Keys| && s.parking == |s.closing|)
  {
    hide Legal, OrderlyRun, Run, Base, HoldsOk, IdsOk, Distinct;
    InitialInv();
    RunKeepsInv(o, INITIAL, es);
  }

  function CheckinAll(s: Pool, ds: seq<DescId>): (r: Pool)
    requires forall d | d in ds :: d in s.descs
    ensures r.descs.Keys == s.descs.Keys && r.parked == s.parked
  {
    if ds == [] then s else Checkin(CheckinAll(s, ds[..|ds| - 1]), ds[|ds| - 1])
  }

  /** Checked out from the far end: descriptions leave idle in the order they came back to it. */
  lemma {:induction false} IdleIsFirstInFirstOut(s: Pool, ds: seq<DescId>)
    requires forall d | d in ds :: d in s.descs && d !in s.idle && d !in s.parked
    requires Distinct(ds)
    ensures (var idle := CheckinAll(s, ds).idle;
             && |idle| == |ds| + |s.idle| && idle[|ds|..] == s.idle
             && forall k | 0 <= k < |ds| :: idle[|ds| - 1 - k] == ds[k])
  {
    hide Checkin;
    if ds != [] {
      var front, last := ds[..|ds| - 1], ds[|ds| - 1];
      IdleIsFirstInFirstOut(s, front);
      NotYetIdle(CheckinAll(s, front).idle, s.idle, ds);
      CheckinIsPrepend(CheckinAll(s, front), last);
    } else {
      assert s.idle[0..] == s.idle;
    }
  }

  lemma NotYetIdle(idle: seq<DescId>, before: seq<DescId>, ds: seq<DescId>)
    requires Distinct(ds) && ds != [] && ds[|ds| - 1] !in before
    requires |idle| == |ds| - 1 + |before| && idle[|ds| - 1..] == before
    requires forall k | 0 <= k < |ds| - 1 :: idle[|ds| - 2 - k] == ds[k]
    ensures ds[|ds| - 1] !in idle
  {
    var n := |ds| - 1;
    forall i | 0 <= i < |idle| ensures idle[i] != ds[n] {
      if i < n { assert idle[n - 1 - (n - 1 - i)] == ds[n - 1 - i]; } else { assert idle[i] == before[i - n]; }
    }
  }

  lemma CheckinIsPrepend(s: Pool, d: DescId)
    requires d in s.descs && d !in s.idle && d !in s.parked
    ensures Checkin(s, d).idle == [d] + s.idle
  {
  }
}

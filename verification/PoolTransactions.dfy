/**
 * Who may use a connection while a transaction is open on it, and exactly when finishing a
 * transaction is safe.
 */
module PoolTransactions {
  import opened PoolModel
  import opened PoolInvariants
  import opened PoolRuns
  import opened PoolTheorems
  import opened Wrappers

  /** Work item `w`, a transaction begun or being finished, has description `d`. */
  predicate Open(s: Pool, w: WorkId, d: DescId) {
    && d in s.out && s.out[d].Running? && s.out[d].work == w
    && w in s.works && (s.works[w].kind == Transaction || s.works[w].kind == Committing)
  }

  /** What ends it: a begin query that failed or was never submitted, or the commit or rollback query, is freed. */
  predicate Ends(s: Pool, e: Event, w: WorkId, d: DescId) {
    && e.FreeEvent? && e.query in s.queries && s.queries[e.query].desc == d
    && (s.queries[e.query].errored || !s.queries[e.query].submitted || (w in s.works && s.works[w].kind == Committing))
  }

  predicate NeverEnds(o: Options, s: Pool, es: seq<Event>, w: WorkId, d: DescId)
    requires Legal(o, s, es)
    decreases |es|
  {
    es == [] || (!Ends(s, es[0], w, d) && NeverEnds(o, Step(o, s, es[0]), es[1..], w, d))
  }

  /** Nobody else has the description: it is not in the pool, and no other work or heartbeat runs on it. */
  predicate Exclusive(s: Pool, w: WorkId, d: DescId) {
    && d !in s.idle && d !in s.parked && d !in s.closing
    && (forall q | q in s.queries && s.queries[q].desc == d :: s.queries[q].work == w)
    && (forall h | h in s.heartbeats && s.heartbeats[h].desc == d :: s.heartbeats[h].settled)
    && (forall c | c in s.out && c != d && s.out[c].Running? :: s.out[c].work != w)
  }

  lemma OpenIsExclusive(s: Pool, w: WorkId, d: DescId)
    requires DescInv(s) && Open(s, w, d)
    ensures Exclusive(s, w, d)
  {
  }

  // ---------------------------------------------------------------- one step

  lemma Keeps(s: Pool, s': Pool, w: WorkId, d: DescId)
    requires Open(s, w, d)
    requires d in s'.out && s'.out[d].Running? && s'.out[d].work == w
    requires w in s'.works && (s'.works[w].kind == s.works[w].kind || s'.works[w].kind == Committing)
    ensures Open(s', w, d)
  {
  }

  lemma OpenFacts(s: Pool, w: WorkId, d: DescId)
    requires DescInv(s) && Open(s, w, d)
    ensures d in s.descs && d !in s.idle && DescriptionFor(s) != d
    ensures forall h | h in s.heartbeats && !s.heartbeats[h].settled :: s.heartbeats[h].desc != d
    ensures forall c | c in s.out && s.out[c].Running? && s.out[c].work == w :: c == d
    ensures forall q | q in s.queries && s.queries[q].desc == d :: s.queries[q].work == w
    ensures forall q | q in s.queries && s.queries[q].desc == d :: s.out[d] == Running(w, Some(q))
    ensures forall q | q in s.queries && s.queries[q].desc == d && s.queries[q].submitted :: s.descs[d].work == Some(w)
    ensures forall c | c in s.descs && s.descs[c].work.Some? && c != d :: s.descs[c].work.value != w
  {
  }

  lemma DrainStepKeepsOpen(s: Pool, now: int, w: WorkId, d: DescId)
    requires DescInv(s) && Open(s, w, d) && CanDrain(s) && s.workQueue != [] && s.idle != []
    ensures Open(DrainStep(s, now), w, d) && DrainStep(s, now).out[d] == s.out[d]
  {
    hide DescInv, CanDrain, Open;
    OpenFacts(s, w, d);
    assert Last(s.idle) in s.idle;
    OpenIs(s, w, d);
    Keeps(s, DrainStep(s, now), w, d);
  }

  lemma OpenIs(s: Pool, w: WorkId, d: DescId)
    requires Open(s, w, d)
    ensures d in s.out && s.out[d].Running? && s.out[d].work == w && w in s.works
    ensures s.works[w].kind == Transaction || s.works[w].kind == Committing
  {
  }

  lemma {:induction false} DrainLoopKeepsOpen(s: Pool, now: int, w: WorkId, d: DescId)
    requires Inv(s) && CanDrain(s) && Open(s, w, d)
    ensures Open(DrainLoop(s, now), w, d) && DrainLoop(s, now).out[d] == s.out[d]
    decreases |s.workQueue|
  {
    hide Base, DescInv, DrainStep, CanDrain, Open;
    OpenIs(s, w, d);
    if s.workQueue != [] && s.idle != [] {
      DrainStepKeepsOpen(s, now, w, d);
      DrainStepKeepsInv(s, now);
      DrainLoopKeepsOpen(DrainStep(s, now), now, w, d);
    }
  }

  lemma CrankKeepsOpen(o: Options, s: Pool, now: int, w: WorkId, d: DescId)
    requires Inv(s) && CanDrain(s) && Open(s, w, d)
    ensures Open(Drain(s, now), w, d) && Open(Crank(o, s, now), w, d)
    ensures Drain(s, now).out[d] == s.out[d] && Crank(o, s, now).out[d] == s.out[d]
  {
    hide Base, DescInv, DrainLoop, GrowStarts, GrowDelays, Select, Existing;
    PromoteKeepsKnown(s);
    PromoteKeepsInv(s);
    DrainLoopKeepsOpen(PromotePause(s), now, w, d);
  }

  lemma CheckinElsewhere(s: Pool, c: DescId, w: WorkId, d: DescId)
    requires c in s.descs && c != d && Open(s, w, d)
    ensures Open(Checkin(s, c), w, d) && Checkin(s, c).out[d] == s.out[d]
  {
  }

  lemma FreedKeepsOpen(s: Pool, q: QueryId, w: WorkId, d: DescId)
    requires DescInv(s) && Open(s, w, d) && q in s.queries && s.queries[q].desc in s.descs
    requires !Ends(s, FreeEvent(q), w, d)
    ensures Open(QueryFreed(s, q), w, d) && (s.queries[q].desc != d ==> QueryFreed(s, q).out[d] == s.out[d])
  {
    hide DescInv, Checkin;
    OpenFacts(s, w, d);
    QueryFacts(s, q);
    var c := s.queries[q].desc;
    if c != d { CheckinElsewhere(s.(queries := s.queries - {q}), c, w, d); }
  }

  lemma QueryFacts(s: Pool, q: QueryId)
    requires DescInv(s) && q in s.queries
    ensures s.queries[q].desc in s.out && s.out[s.queries[q].desc] == Running(s.queries[q].work, Some(q))
    ensures s.queries[q].submitted && s.queries[q].desc in s.descs ==>
              s.descs[s.queries[q].desc].work == Some(s.queries[q].work)
  {
  }

  lemma BeatDoneKeepsOpen(s: Pool, h: HeartbeatId, now: int, w: WorkId, d: DescId)
    requires h in s.heartbeats && s.heartbeats[h].desc in s.descs && DescInv(s) && Open(s, w, d)
    ensures Open(HeartbeatDone(s, h, now), w, d) && Open(HeartbeatError(s, h), w, d)
    ensures HeartbeatDone(s, h, now).out[d] == s.out[d] == HeartbeatError(s, h).out[d]
  {
    hide DescInv, Checkin;
    OpenFacts(s, w, d);
    var hb := s.heartbeats[h];
    if !hb.settled {
      var desc := s.descs[hb.desc];
      CheckinElsewhere(s.(heartbeats := s.heartbeats[h := hb.(settled := true, checkins := hb.checkins + 1)],
                          descs := s.descs[hb.desc := desc.(keepAlive := desc.keepAlive + 1, lastActive := now)]),
                       hb.desc, w, d);
    }
  }

  lemma RecreatedKeepsOpen(s: Pool, c: DescId, now: int, w: WorkId, d: DescId)
    requires c in s.descs && c in s.out && s.out[c] == Recreating && Open(s, w, d)
    ensures Open(RecreateDone(s, c, now), w, d) && RecreateDone(s, c, now).out[d] == s.out[d]
  {
    hide Checkin;
    CheckinElsewhere(s.(descs := s.descs[c := s.descs[c].(connected := true, lastActive := now)]), c, w, d);
  }

  lemma OpenedKeepsOpen(s: Pool, now: int, w: WorkId, d: DescId)
    requires DescInv(s) && Open(s, w, d)
    ensures Open(OpenOk(s, now), w, d) && OpenOk(s, now).out[d] == s.out[d]
  {
    hide DescInv, Checkin, DescriptionFor;
    OpenFacts(s, w, d);
    CheckinElsewhere(Connected(s, now), DescriptionFor(s), w, d);
  }

  lemma TickKeepsOpen(o: Options, s: Pool, now: int, w: WorkId, d: DescId)
    requires Open(s, w, d) && d !in s.idle
    ensures Open(Tick(o, s, now), w, d) && Tick(o, s, now).out[d] == s.out[d]
  {
    hide Park, Beat;
    ParkKeepsOpen(o, s, w, d);
    BeatKeepsOpen(o, Park(o, s), now, w, d);
  }

  lemma ParkKeepsOpen(o: Options, s: Pool, w: WorkId, d: DescId)
    requires Open(s, w, d) && d !in s.idle
    ensures Open(Park(o, s), w, d) && Park(o, s).out == s.out && d !in Park(o, s).idle
  {
    hide FirstIndex, Inactive;
  }

  lemma BeatKeepsOpen(o: Options, s: Pool, now: int, w: WorkId, d: DescId)
    requires Open(s, w, d) && d !in s.idle
    ensures Open(Beat(o, s, now), w, d) && Beat(o, s, now).out[d] == s.out[d]
  {
    hide FirstIndex, Due, Without;
  }

  lemma FinishKeepsOpen(s: Pool, c: DescId, now: int, w: WorkId, d: DescId)
    requires DescInv(s) && Open(s, w, d)
    ensures Open(Finish(s, c, now), w, d) && (c != d ==> Finish(s, c, now).out[d] == s.out[d])
  {
    hide DescInv;
    OpenFacts(s, w, d);
    if CanFinish(s, c) && c == d { HeldWork(s, d); }
  }

  lemma HeldWork(s: Pool, d: DescId)
    requires DescInv(s) && d in s.descs && s.descs[d].work.Some?
    ensures d in s.out && s.out[d].Running? && s.out[d].work == s.descs[d].work.value
  {
  }

  /** The events of the query on a description, or of the call that finishes its transaction. */
  predicate Touches(s: Pool, e: Event, d: DescId) {
    || (e.FreeEvent? && e.query in s.queries && s.queries[e.query].desc == d)
    || (e.Finished? && e.desc == d)
  }

  lemma StepKeepsOpen(o: Options, s: Pool, e: Event, w: WorkId, d: DescId)
    requires Inv(s) && Closed(s) && Enabled(s, e) && Open(s, w, d) && !Ends(s, e, w, d)
    ensures Open(Step(o, s, e), w, d)
    ensures Touches(s, e, d) || Step(o, s, e).out[d] == s.out[d]
  {
    hide Base, DescInv, Closed, CanDrain, Drain, Crank, OpenOk, QueryFreed, Finish, Tick, Ends;
    hide HeartbeatDone, HeartbeatError, RecreateDone, Open, OpenPool, QuerySubmitted, QueryErrored, ParkDone, Submit;
    BaseGives(s, e);
    match e
    case Cranked(now) => CrankKeepsOpen(o, s, now, w, d);
    case Drained(now) => CrankKeepsOpen(o, s, now, w, d);
    case FreeEvent(q) => FreedKeepsOpen(s, q, w, d);
    case Finished(c, now) => FinishKeepsOpen(s, c, now, w, d);
    case Ticked(now) => OpenFacts(s, w, d); TickKeepsOpen(o, s, now, w, d);
    case HeartbeatDoneEvent(h, now) => BeatDoneKeepsOpen(s, h, now, w, d);
    case HeartbeatErrorEvent(h) => BeatDoneKeepsOpen(s, h, 0, w, d);
    case Recreated(c, now) => RecreatedKeepsOpen(s, c, now, w, d);
    case ConnectionOpened(now) => OpenedKeepsOpen(s, now, w, d);
    case _ => BaseHolds(s); OtherEventKeepsOpen(o, s, e, w, d);
  }

  lemma OtherEventKeepsOpen(o: Options, s: Pool, e: Event, w: WorkId, d: DescId)
    requires WorkInv(s) && Closed(s) && Enabled(s, e) && Open(s, w, d)
    requires || e.Submitted? || e.ItemPaused? || e.ItemResumed? || e.ItemCancelled? || e.PoolOpened? || e.OpenCalled?
             || e.DelayPassed? || e.ConnectionFailed? || e.SubmittedEvent? || e.ErrorEvent? || e.ParkClosed?
    ensures Open(Step(o, s, e), w, d) && Step(o, s, e).out == s.out
  {
    hide Closed, WorkInv, Drain, Crank, OpenOk, QueryFreed, Finish, Tick, HeartbeatDone, HeartbeatError, RecreateDone;
    hide GrowStarts, GrowDelays;
    NewWorkIsNew(s);
  }

  // ---------------------------------------------------------------- whole runs

  /**
   * From the moment a transaction has a description until the event that ends it, the
   * description is out of the pool and nothing but the transaction runs on its connection.
   */
  lemma {:induction false} TransactionIsExclusive(o: Options, s: Pool, es: seq<Event>, w: WorkId, d: DescId)
    requires Inv(s) && Open(s, w, d)
    requires Legal(o, s, es) && OrderlyRun(o, s, es) && NeverEnds(o, s, es, w, d)
    ensures Open(Run(o, s, es), w, d) && Exclusive(Run(o, s, es), w, d)
    decreases |es|
  {
    hide Base, DescInv, Closed, Enabled, Orderly, Step, Open, Exclusive, Ends;
    if es != [] {
      StepKeepsOpen(o, s, es[0], w, d);
      StepKeepsInv(o, s, es[0]);
      TransactionIsExclusive(o, Step(o, s, es[0]), es[1..], w, d);
    } else {
      OpenIsExclusive(s, w, d);
    }
  }

  /** A transaction popped by the drain loop has its description from that step on. */
  lemma DispatchOpens(s: Pool, now: int)
    requires CanDrain(s) && s.workQueue != [] && s.idle != []
    requires var work := s.works[Last(s.workQueue)];
             work.kind == Transaction && !work.pendingCancel && !work.paused
    ensures Open(DrainStep(s, now), Last(s.workQueue), Last(s.idle))
  {
  }

  // ---------------------------------------------------------------- when a description comes back

  /**
   * A freed query returns its description exactly when it errored or the description's work is not
   * a begun transaction.  Errors that went to the work's own callback leave `errored` as it was.
   */
  lemma FreedReturnsExactlyWhen(s: Pool, q: QueryId)
    requires DescInv(s) && q in s.queries
    ensures s.queries[q].desc in s.descs && s.queries[q].work in s.works
    ensures (var live, t := s.queries[q], QueryFreed(s, q);
             && (live.desc in t.idle <==> live.errored || !InTransaction(s, live.desc))
             && (live.submitted ==>
                   (live.desc in t.idle <==> live.errored || s.works[live.work].kind != Transaction))
             && (live.desc in t.idle <==> !Held(t, live.work, live.desc)))
  {
    hide BeatsOk, ConnectedOk, IdsOk, CountersOk;
    QueryFacts(s, q);
    assert s.queries[q].desc !in s.idle;
  }

  /** A begun transaction has the description, and no query is live on it. */
  predicate Held(s: Pool, w: WorkId, d: DescId) {
    d in s.out && s.out[d] == Running(w, None)
  }

  lemma HeldFacts(s: Pool, w: WorkId, d: DescId)
    requires DescInv(s) && Held(s, w, d)
    ensures Open(s, w, d) && d in s.descs && d !in s.idle && d !in s.parked && CanFinish(s, d)
    ensures forall q | q in s.queries :: s.queries[q].desc != d
  {
  }

  lemma StepKeepsHeld(o: Options, s: Pool, e: Event, w: WorkId, d: DescId)
    requires Inv(s) && Closed(s) && Enabled(s, e) && Held(s, w, d) && !(e.Finished? && e.desc == d)
    ensures Held(Step(o, s, e), w, d)
  {
    hide Base, DescInv, Closed, Enabled, Step, Open, CanFinish;
    HeldFacts(s, w, d);
    StepKeepsOpen(o, s, e, w, d);
    OpenIs(Step(o, s, e), w, d);
  }

  /** Held, a description stays out for as long as nobody commits or rolls back on it. */
  lemma {:induction false} HeldUntilFinished(o: Options, s: Pool, es: seq<Event>, w: WorkId, d: DescId)
    requires Inv(s) && Held(s, w, d) && Legal(o, s, es) && OrderlyRun(o, s, es)
    requires forall e | e in es :: !(e.Finished? && e.desc == d)
    ensures Held(Run(o, s, es), w, d) && d !in Run(o, s, es).idle
    decreases |es|
  {
    hide Base, DescInv, Closed, Enabled, Orderly, Step, Open, CanFinish, Held;
    HeldFacts(s, w, d);
    if es != [] {
      assert es[0] in es;
      StepKeepsHeld(o, s, es[0], w, d);
      StepKeepsInv(o, s, es[0]);
      HeldUntilFinished(o, Step(o, s, es[0]), es[1..], w, d);
    }
  }

  /** Finished, it comes back when the commit or rollback query frees, errors or not. */
  lemma FinishedComesBack(s: Pool, w: WorkId, d: DescId, now: int)
    requires DescInv(s) && Held(s, w, d)
    ensures (var t := Finish(s, d, now);
             && s.nextQuery in t.queries && t.queries[s.nextQuery].desc == d && d in t.descs
             && d in QueryFreed(t, s.nextQuery).idle && d in QueryFreed(QueryErrored(t, s.nextQuery), s.nextQuery).idle)
  {
    hide PlacesOk, BeatsOk, ConnectedOk, IdsOk, CountersOk;
    OutIsNowhereElse(s, d);
    HeldFacts(s, w, d);
  }

  // ---------------------------------------------------------------- when finishing is safe

  /** A query is live on a description that the pool may hand out. */
  predicate Exposed(s: Pool) {
    exists q | q in s.queries :: s.queries[q].desc in s.idle
  }

  lemma NotExposed(s: Pool, q: QueryId)
    requires DescInv(s) && q in s.queries && s.queries[q].desc in s.descs
    ensures !Exposed(QueryFreed(s, q))
  {
    var d := s.queries[q].desc;
    hide BeatsOk, ConnectedOk, IdsOk, CountersOk;
    assert forall p | p in s.queries && p != q :: s.queries[p].desc != d && s.queries[p].desc !in s.idle;
  }

  /**
   * finishTransaction leaves the pool one 'free' event away from exposing a live query
   * exactly when some query is still live on the description.
   */
  lemma FinishIsSafeExactlyWhen(s: Pool, d: DescId, now: int)
    requires DescInv(s) && CanFinish(s, d)
    requires forall q | q in s.queries :: s.queries[q].desc in s.descs
    ensures (exists q | q in s.queries :: s.queries[q].desc == d)
       <==> (exists q | Enabled(Finish(s, d, now), FreeEvent(q))
                        && Finish(s, d, now).queries[q].desc in Finish(s, d, now).descs ::
               Exposed(QueryFreed(Finish(s, d, now), q)))
  {
    hide DescInv, CanFinish, Finish, QueryFreed, Exposed;
    if q :| q in s.queries && s.queries[q].desc == d {
      EarlyFinishExposes(s, d, now, q);
    } else {
      OrderlyFinish(s, d);
      CanFinishKnows(s, d);
      FinishKeeps(s, d, now);
      var s' := Finish(s, d, now);
      forall q | Enabled(s', FreeEvent(q)) && s'.queries[q].desc in s'.descs ensures !Exposed(QueryFreed(s', q)) {
        NotExposed(s', q);
      }
    }
  }

  /** finishTransaction does something exactly on a description whose work is a transaction, finished before or not. */
  lemma FinishesExactlyWhen(s: Pool, d: DescId, now: int)
    ensures Finish(s, d, now) != s
       <==> d in s.descs && s.descs[d].work.Some? && s.descs[d].work.value in s.works
            && s.works[s.descs[d].work.value].kind in {Transaction, Committing}
  {
    if CanFinish(s, d) { assert Finish(s, d, now).nextQuery == s.nextQuery + 1; }
  }

  lemma CanFinishKnows(s: Pool, d: DescId)
    requires CanFinish(s, d)
    ensures d in s.descs
  {
  }

  lemma EarlyFinishExposes(s: Pool, d: DescId, now: int, q: QueryId)
    requires DescInv(s) && CanFinish(s, d) && q in s.queries && s.queries[q].desc == d
    ensures var s' := Finish(s, d, now);
            Enabled(s', FreeEvent(q)) && s'.queries[q].desc in s'.descs && Exposed(QueryFreed(s', q))
  {
    hide PlacesOk, HoldsOk, BeatsOk, ConnectedOk, IdsOk, CountersOk;
    QueryIsOut(s, q);
    OutIsNowhereElse(s, d);
    QueryIsOld(s, q);
    var s' := Finish(s, d, now);
    var freed := QueryFreed(s', q);
    assert !InTransaction(s', d);
    assert s.nextQuery in freed.queries && freed.queries[s.nextQuery].desc == d;
    assert freed.idle[0] == d;
  }

  lemma QueryIsOld(s: Pool, q: QueryId)
    requires HoldsOk(s.out, s.queries, s.nextQuery, s.descs, s.works) && q in s.queries
    ensures q < s.nextQuery
  {
  }
}

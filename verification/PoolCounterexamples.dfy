/**
 * Runs of the pool that break what it is meant to keep, each showing that the condition under
 * which a general theorem is proved cannot be dropped.
 */
module PoolCounterexamples {
  import opened PoolModel
  import opened PoolInvariants
  import opened PoolRuns
  import opened PoolTheorems
  import opened PoolTransactions
  import opened PoolCeiling
  import opened Wrappers

  lemma RunCons(o: Options, s: Pool, e: Event, s1: Pool, es: seq<Event>)
    requires Closed(s) && Enabled(s, e) && Step(o, s, e) == s1 && Legal(o, s1, es)
    ensures Legal(o, s, [e] + es) && Run(o, s, [e] + es) == Run(o, s1, es)
    ensures OrderlyRun(o, s1, es) && Orderly(s, e) ==> OrderlyRun(o, s, [e] + es)
  {
    hide Closed, Enabled, Step, Orderly;
    assert ([e] + es)[1..] == es;
  }

  const NEW_DESC := Description(true, None, 0, 0)
  const NEW_WORK := Work(Statement, false, false, false)
  const TAKEN_WORK := Work(Statement, false, false, true)

  // ---------------------------------------------------------------- a raced open exceeds the ceiling

  /** gradual growth by one, at most two connections */
  const TWO := Options(0, 2, 20, 60, Gradual, 1, 1.5, 0)

  const A1 := INITIAL.(pendingCreates := 1)
  const A2 := INITIAL.(idle := [0], nextDesc := 1, descs := map[0 := NEW_DESC])
  const A3 := A2.(isOpen := true)
  const A4 := A3.(workQueue := [0], nextWork := 1, works := map[0 := NEW_WORK])
  const A5 := A4.(pendingCreates := 1)
  const A6 := A5.(workQueue := [1, 0], nextWork := 2, works := map[0 := NEW_WORK, 1 := NEW_WORK])
  const A7 := A6.(idle := [], busy := 1, out := map[0 := Running(0, Some(0))], workQueue := [1], dispatched := [0],
                  works := map[0 := TAKEN_WORK, 1 := NEW_WORK],
                  queries := map[0 := LiveQuery(0, 0, false, false)], nextQuery := 1)
  const A8 := A7.(idle := [1], busy := 0, pendingCreates := 0, raced := 1, nextDesc := 2,
                  descs := map[0 := NEW_DESC, 1 := NEW_DESC])
  const A9 := A8.(pendingCreates := 1)

  /** crank with gradual growth by one and room for one more connection */
  lemma CrankGrows(o: Options, s: Pool)
    requires o.strategy == Gradual && o.scalingIncrement == 1 && o.scalingDelay == 0
    requires Closed(s) && Existing(s) < o.ceiling
    ensures Step(o, s, Cranked(0)) == s.(pendingCreates := s.pendingCreates + 1)
  {
    hide Closed, Existing, Drain, CanDrain;
    CanCrank(s);
  }

  /** A drain with one idle connection, nothing in `pause`, and runnable work at its end. */
  lemma DrainsOne(o: Options, s: Pool)
    requires Closed(s) && s.pause == [] && |s.idle| == 1 && s.workQueue != []
    requires !s.works[Last(s.workQueue)].pendingCancel && !s.works[Last(s.workQueue)].paused
    ensures CanDrain(s) && Step(o, s, Drained(0)) == DrainStep(s, 0)
  {
    hide Closed, ItemsKnown;
    CanCrank(s);
    assert PromotePause(s) == s;
    var s' := DrainStep(s, 0);
    assert s'.idle == [];
    assert DrainLoop(s', 0) == s';
  }

  lemma CanCrank(s: Pool)
    requires Closed(s)
    ensures CanDrain(s)
  {
  }

  lemma StepA1()
    ensures Closed(INITIAL) && Step(TWO, INITIAL, Cranked(0)) == A1
  {
    hide Step;
    CrankGrows(TWO, INITIAL);
  }

  lemma StepA2()
    ensures Closed(A1) && Step(TWO, A1, ConnectionOpened(0)) == A2
  {
  }

  lemma StepA4()
    ensures Closed(A3) && Step(TWO, A3, Submitted(Statement)) == A4
  {
  }

  lemma StepA5()
    ensures Closed(A4) && Step(TWO, A4, Cranked(0)) == A5
  {
    hide Step;
    CrankGrows(TWO, A4);
  }

  lemma StepA6()
    ensures Closed(A5) && Step(TWO, A5, Submitted(Statement)) == A6
  {
  }

  lemma ClosedA6()
    ensures Closed(A6)
  {
  }

  lemma StepA7()
    ensures Closed(A6) && Step(TWO, A6, Drained(0)) == A7
  {
    hide Step, Closed;
    ClosedA6();
    DrainsOne(TWO, A6);
  }

  lemma ClosedA7()
    ensures Closed(A7)
  {
  }

  lemma StepA8()
    ensures Closed(A7) && Step(TWO, A7, ConnectionOpened(0)) == A8
  {
    hide Closed;
    ClosedA7();
  }

  lemma StepA9()
    ensures Closed(A8) && Step(TWO, A8, Cranked(0)) == A9
  {
    hide Step;
    CrankGrows(TWO, A8);
  }

  lemma StepA3()
    ensures Closed(A2) && Step(TWO, A2, PoolOpened) == A3
  {
  }

  const RACE8 := [Cranked(0)] + []
  const RACE7 := [ConnectionOpened(0)] + RACE8
  const RACE6 := [Drained(0)] + RACE7
  const RACE5 := [Submitted(Statement)] + RACE6
  const RACE4 := [Cranked(0)] + RACE5
  const RACE3 := [Submitted(Statement)] + RACE4
  const RACE2 := [PoolOpened] + RACE3
  const RACE1 := [ConnectionOpened(0)] + RACE2
  const RACE := [Cranked(0)] + RACE1

  lemma SecondHalfOfRace()
    ensures Legal(TWO, A4, RACE4) && OrderlyRun(TWO, A4, RACE4) && Run(TWO, A4, RACE4) == A9
  {
    hide Closed, Step, CanFinish;
    StepA9(); RunCons(TWO, A8, Cranked(0), A9, []);
    StepA8(); RunCons(TWO, A7, ConnectionOpened(0), A8, RACE8);
    StepA7(); RunCons(TWO, A6, Drained(0), A7, RACE7);
    StepA6(); RunCons(TWO, A5, Submitted(Statement), A6, RACE6);
    StepA5(); RunCons(TWO, A4, Cranked(0), A5, RACE5);
  }

  lemma LegalRace()
    ensures Legal(TWO, INITIAL, RACE) && OrderlyRun(TWO, INITIAL, RACE) && Run(TWO, INITIAL, RACE) == A9
  {
    hide Closed, Step, CanFinish;
    SecondHalfOfRace();
    StepA4(); RunCons(TWO, A3, Submitted(Statement), A4, RACE4);
    StepA3(); RunCons(TWO, A2, PoolOpened, A3, RACE3);
    StepA2(); RunCons(TWO, A1, ConnectionOpened(0), A2, RACE2);
    StepA1(); RunCons(TWO, INITIAL, Cranked(0), A1, RACE1);
  }

  /** With a bounded strategy, a ceiling of two and orderly transactions, a pool gets to three connections. */
  lemma RacedOpenExceedsCeiling()
    ensures ValidOptions(TWO) && Bounded(TWO)
    ensures Legal(TWO, INITIAL, RACE) && OrderlyRun(TWO, INITIAL, RACE)
    ensures Total(Run(TWO, INITIAL, RACE)) == 3 > TWO.ceiling && Run(TWO, INITIAL, RACE).raced == 1
  {
    hide Legal, OrderlyRun, Run;
    LegalRace();
    assert A9.out.Keys == {0};
  }

  // ---------------------------------------------------------------- a transaction finished too early

  const ONE := TWO.(ceiling := 1)

  const TX := Work(Transaction, false, false, false)
  const TAKEN_TX := Work(Transaction, false, false, true)

  const B1 := INITIAL.(pendingCreates := 1)
  const B2 := A2
  const B3 := B2.(workQueue := [0], nextWork := 1, works := map[0 := TX])
  const B4 := B3.(workQueue := [1, 0], nextWork := 2, works := map[0 := TX, 1 := NEW_WORK])
  const B5 := B4.(idle := [], busy := 1, out := map[0 := Running(0, Some(0))], workQueue := [1], dispatched := [0],
                  works := map[0 := TAKEN_TX, 1 := NEW_WORK],
                  queries := map[0 := LiveQuery(0, 0, false, false)], nextQuery := 1)
  const B6 := B5.(queries := map[0 := LiveQuery(0, 0, true, false)], descs := map[0 := NEW_DESC.(work := Some(0))])
  const B7 := B6.(works := map[0 := TAKEN_TX.(kind := Committing), 1 := NEW_WORK], nextQuery := 2,
                  queries := map[0 := LiveQuery(0, 0, true, false), 1 := LiveQuery(0, 0, false, false)],
                  out := map[0 := Running(0, Some(1))])
  const B8 := B7.(queries := map[1 := LiveQuery(0, 0, false, false)], idle := [0], busy := 0, out := map[],
                  descs := map[0 := NEW_DESC])
  const B9 := B8.(idle := [], busy := 1, out := map[0 := Running(1, Some(2))], workQueue := [], dispatched := [0, 1],
                  works := map[0 := TAKEN_TX.(kind := Committing), 1 := TAKEN_WORK],
                  queries := map[1 := LiveQuery(0, 0, false, false), 2 := LiveQuery(0, 1, false, false)],
                  nextQuery := 3)

  lemma StepB1()
    ensures Closed(INITIAL) && Step(ONE, INITIAL, Cranked(0)) == B1
  {
    hide Step;
    CrankGrows(ONE, INITIAL);
  }

  lemma StepB2()
    ensures Closed(B1) && Step(ONE, B1, ConnectionOpened(0)) == B2
  {
  }

  lemma StepB3()
    ensures Closed(B2) && Step(ONE, B2, Submitted(Transaction)) == B3
  {
  }

  lemma StepB4()
    ensures Closed(B3) && Step(ONE, B3, Submitted(Statement)) == B4
  {
  }

  lemma ClosedB4()
    ensures Closed(B4)
  {
  }

  lemma StepB5()
    ensures Closed(B4) && Step(ONE, B4, Drained(0)) == B5
  {
    hide Step, Closed;
    ClosedB4();
    DrainsOne(ONE, B4);
  }

  lemma ClosedB5()
    ensures Closed(B5)
  {
  }

  lemma StepB6()
    ensures Closed(B5) && Step(ONE, B5, SubmittedEvent(0)) == B6
  {
    hide Closed;
    ClosedB5();
  }

  lemma ClosedB6()
    ensures Closed(B6)
  {
  }

  lemma StepB7()
    ensures Closed(B6) && Step(ONE, B6, Finished(0, 0)) == B7
  {
    hide Closed;
    ClosedB6();
  }

  lemma ClosedB7()
    ensures Closed(B7)
  {
  }

  /** The begin query frees on a description that is committing: it is checked in. */
  lemma FreedEarly(s: Pool, q: QueryId, w: WorkId)
    requires q in s.queries && s.queries[q] == LiveQuery(0, w, true, false)
    requires 0 in s.descs && s.descs[0].work == Some(w) && w in s.works && s.works[w].kind == Committing
    ensures QueryFreed(s, q) == Checkin(s.(queries := s.queries - {q}), 0)
  {
    hide Checkin;
  }

  lemma CheckinB7()
    ensures 0 in B7.descs && Checkin(B7.(queries := B7.queries - {0}), 0) == B8
  {
    assert B7.queries - {0} == B8.queries;
    assert B7.out - {0} == map[];
    assert B7.descs[0 := B7.descs[0].(work := None)] == B8.descs;
  }

  lemma StepB8()
    ensures Closed(B7) && Enabled(B7, FreeEvent(0)) && Step(ONE, B7, FreeEvent(0)) == B8
  {
    hide Closed, QueryFreed, Checkin;
    ClosedB7();
    FreedEarly(B7, 0, 0);
    CheckinB7();
  }

  lemma ClosedB8()
    ensures Closed(B8)
  {
  }

  lemma StepB9()
    ensures Closed(B8) && Step(ONE, B8, Drained(0)) == B9
  {
    hide Step, Closed, CanDrain;
    ClosedB8();
    DrainsOne(ONE, B8);
    assert B8.works[1 := TAKEN_WORK] == B9.works;
    assert B8.queries[2 := LiveQuery(0, 1, false, false)] == B9.queries;
    assert B8.descs[0 := NEW_DESC] == B9.descs;
    assert B8.out[0 := Running(1, None)][0 := Running(1, Some(2))] == B9.out;
  }

  const EARLY8 := [Drained(0)] + []
  const EARLY7 := [FreeEvent(0)] + EARLY8
  const EARLY6 := [Finished(0, 0)] + EARLY7
  const EARLY5 := [SubmittedEvent(0)] + EARLY6
  const EARLY4 := [Drained(0)] + EARLY5
  const EARLY3 := [Submitted(Statement)] + EARLY4
  const EARLY2 := [Submitted(Transaction)] + EARLY3
  const EARLY1 := [ConnectionOpened(0)] + EARLY2
  const EARLY_COMMIT := [Cranked(0)] + EARLY1

  lemma FreedAndTaken()
    ensures Legal(ONE, B7, EARLY7) && Run(ONE, B7, EARLY7) == B9
  {
    hide Closed, Step, CanFinish, Orderly, OrderlyRun;
    StepB9(); RunCons(ONE, B8, Drained(0), B9, []);
    StepB8(); RunCons(ONE, B7, FreeEvent(0), B8, EARLY8);
  }

  lemma CommitTooEarly()
    ensures Legal(ONE, B4, EARLY4) && Run(ONE, B4, EARLY4) == B9
  {
    hide Closed, Step, CanFinish, Orderly, OrderlyRun;
    FreedAndTaken();
    StepB7(); RunCons(ONE, B6, Finished(0, 0), B7, EARLY7);
    StepB6(); RunCons(ONE, B5, SubmittedEvent(0), B6, EARLY6);
    StepB5(); RunCons(ONE, B4, Drained(0), B5, EARLY5);
  }

  lemma LegalEarlyCommit()
    ensures Legal(ONE, INITIAL, EARLY_COMMIT) && Run(ONE, INITIAL, EARLY_COMMIT) == B9
  {
    hide Closed, Step, CanFinish;
    CommitTooEarly();
    StepB4(); RunCons(ONE, B3, Submitted(Statement), B4, EARLY4);
    StepB3(); RunCons(ONE, B2, Submitted(Transaction), B3, EARLY3);
    StepB2(); RunCons(ONE, B1, ConnectionOpened(0), B2, EARLY2);
    StepB1(); RunCons(ONE, INITIAL, Cranked(0), B1, EARLY1);
  }

  /**
   * Committing from the callback of beginTransaction, before the begin query's 'free' event: the
   * description goes back to the pool while the commit is running, and the next statement joins it.
   */
  lemma EarlyCommitSharesConnection()
    ensures Legal(ONE, INITIAL, EARLY_COMMIT)
    ensures var s := Run(ONE, INITIAL, EARLY_COMMIT);
            && 1 in s.queries && 2 in s.queries
            && s.queries[1].desc == s.queries[2].desc && s.queries[1].work != s.queries[2].work
  {
    hide Legal, Run;
    LegalEarlyCommit();
  }

  // ---------------------------------------------------------------- a begin whose caller has no description

  const E4 := B3.(idle := [], busy := 1, out := map[0 := Running(0, Some(0))], workQueue := [], dispatched := [0],
                  works := map[0 := TAKEN_TX], queries := map[0 := LiveQuery(0, 0, false, false)], nextQuery := 1)
  const E5 := E4.(queries := map[0 := LiveQuery(0, 0, true, false)], descs := map[0 := NEW_DESC.(work := Some(0))])
  const E6 := E5.(queries := map[], out := map[0 := Running(0, None)])

  lemma ClosedB3()
    ensures Closed(B3)
  {
  }

  lemma StepE4()
    ensures Closed(B3) && Step(ONE, B3, Drained(0)) == E4
  {
    hide Step, Closed;
    ClosedB3();
    DrainsOne(ONE, B3);
  }

  lemma ClosedE(s: Pool)
    requires s == E4 || s == E5
    ensures Closed(s)
  {
  }

  lemma StepE5()
    ensures Closed(E4) && Step(ONE, E4, SubmittedEvent(0)) == E5
  {
    hide Closed;
    ClosedE(E4);
  }

  lemma StepE6()
    ensures Closed(E5) && Enabled(E5, FreeEvent(0)) && Step(ONE, E5, FreeEvent(0)) == E6
  {
    hide Closed, Checkin;
    ClosedE(E5);
    assert E5.queries - {0} == map[];
  }

  const BEGIN5 := [FreeEvent(0)] + []
  const BEGIN4 := [SubmittedEvent(0)] + BEGIN5
  const BEGIN3 := [Drained(0)] + BEGIN4
  const BEGIN2 := [Submitted(Transaction)] + BEGIN3
  const BEGIN1 := [ConnectionOpened(0)] + BEGIN2
  const BEGIN := [Cranked(0)] + BEGIN1

  lemma LegalBegin()
    ensures Legal(ONE, INITIAL, BEGIN) && Run(ONE, INITIAL, BEGIN) == E6 && OrderlyRun(ONE, INITIAL, BEGIN)
  {
    hide Closed, Step, CanFinish;
    StepE6(); RunCons(ONE, E5, FreeEvent(0), E6, []);
    StepE5(); RunCons(ONE, E4, SubmittedEvent(0), E5, BEGIN5);
    StepE4(); RunCons(ONE, B3, Drained(0), E4, BEGIN4);
    StepB3(); RunCons(ONE, B2, Submitted(Transaction), B3, BEGIN3);
    StepB2(); RunCons(ONE, B1, ConnectionOpened(0), B2, BEGIN2);
    StepB1(); RunCons(ONE, INITIAL, Cranked(0), B1, BEGIN1);
  }

  /** One of at most one connection is out, so that none is idle or opening. */
  lemma AllOut(s: Pool)
    requires DescInv(s) && Held(s, 0, 0) && s.raced == 0 && CeilingInv(1, s)
    ensures s.idle == [] && s.pendingCreates == 0
  {
    hide PlacesOk, HoldsOk, BeatsOk, ConnectedOk, IdsOk;
    assert s.out.Keys == {0} + (s.out.Keys - {0});
  }

  lemma {:induction false} NeverIdleAgain(s: Pool, es: seq<Event>)
    requires Inv(s) && Held(s, 0, 0) && s.raced == 0 && s.delayed == 0 && CeilingInv(1, s)
    requires Legal(ONE, s, es) && OrderlyRun(ONE, s, es) && forall e | e in es :: !(e.Finished? && e.desc == 0)
    ensures Run(ONE, s, es).idle == []
    decreases |es|
  {
    hide Base, DescInv, Closed, Orderly, Step, Held, CeilingInv, Uncounted;
    AllOut(s);
    if es != [] {
      assert es[0] in es;
      StepKeepsHeld(ONE, s, es[0], 0, 0);
      StepKeepsInv(ONE, s, es[0]);
      DelaysKept(ONE, s, es[0]);
      NothingUncounted(ONE, s);
      StepKeepsCeiling(ONE, 1, s, es[0]);
      RacedOnlyGrows(ONE, s, es[0]);
      NeverIdleAgain(Step(ONE, s, es[0]), es[1..]);
    }
  }

  lemma InvE6()
    ensures Inv(E6) && Held(E6, 0, 0) && E6.raced == 0 && E6.delayed == 0 && CeilingInv(1, E6)
  {
    hide Inv;
    InitialInv();
    LegalBegin();
    RunKeepsInv(ONE, INITIAL, BEGIN);
    assert E6.out.Keys == {0};
  }

  /**
   * A begin that fails on the server raises no 'error', because its errors go to its callback - with
   * no description, so that its caller cannot roll back.  The pool of one connection has lost it: in
   * every run that follows, without a commit or rollback on it, nothing is ever idle again.
   */
  lemma FailedBeginKeepsConnection(es: seq<Event>)
    requires Legal(ONE, E6, es) && OrderlyRun(ONE, E6, es) && forall e | e in es :: !(e.Finished? && e.desc == 0)
    ensures Legal(ONE, INITIAL, BEGIN) && OrderlyRun(ONE, INITIAL, BEGIN) && Run(ONE, INITIAL, BEGIN) == E6
    ensures Run(ONE, E6, es).idle == []
  {
    hide Legal, OrderlyRun, Run, Inv, Held, CeilingInv;
    LegalBegin();
    InvE6();
    NeverIdleAgain(E6, es);
  }

  // ---------------------------------------------------------------- exponential growth overshoots

  /** exponential growth, two connections at least and three at most */
  const THREE := Options(2, 3, 20, 60, Exponential, 1, 1.5, 0)

  const C1 := INITIAL.(pendingCreates := 2)
  const C2 := INITIAL.(pendingCreates := 4)

  /** open of an empty pool that grows exponentially starts `floor` connections, needed or not */
  lemma OpenGrows(o: Options, s: Pool)
    requires o.strategy == Exponential && o.scalingDelay == 0 && o.floor >= 1 && !s.isOpen
    requires Closed(s) && s.idle == [] && s.busy == 0 && Existing(s) < o.ceiling
    ensures Step(o, s, OpenCalled) == s.(pendingCreates := s.pendingCreates + o.floor)
  {
    hide Existing, Share, Closed;
  }

  lemma ClosedC(s: Pool)
    requires s == INITIAL.(pendingCreates := s.pendingCreates)
    ensures Closed(s)
  {
  }

  lemma StepC(s: Pool)
    requires s == INITIAL || s == C1
    ensures Closed(s) && Step(THREE, s, OpenCalled) == s.(pendingCreates := s.pendingCreates + 2)
  {
    hide Step, Closed;
    ClosedC(s);
    OpenGrows(THREE, s);
  }

  const OVERSHOOT1 := [OpenCalled] + []
  const OVERSHOOT := [OpenCalled] + OVERSHOOT1

  /** open called again before the first connections are there: four connections under a ceiling of three. */
  lemma SecondOpenOvershoots()
    ensures ValidOptions(THREE) && Legal(THREE, INITIAL, OVERSHOOT) && OrderlyRun(THREE, INITIAL, OVERSHOOT)
    ensures (var s := Run(THREE, INITIAL, OVERSHOOT); s.raced == 0 && Total(s) == 4 && Total(s) > THREE.ceiling)
  {
    hide Closed, Step;
    StepC(C1); RunCons(THREE, C1, OpenCalled, C2, []);
    StepC(INITIAL); RunCons(THREE, INITIAL, OpenCalled, C1, OVERSHOOT1);
    assert |C2.out.Keys| == 0;
  }

  // ---------------------------------------------------------------- delayed creations are not counted

  /** gradual growth by two, with a delay, at most two connections */
  const SLOW := Options(0, 2, 20, 60, Gradual, 2, 1.5, 1000)

  const D1 := INITIAL.(pendingCreates := 1, delayed := 1)
  const D2 := INITIAL.(pendingCreates := 2, delayed := 1)
  const D3 := INITIAL.(pendingCreates := 3)

  lemma ClosedD(s: Pool)
    requires s == INITIAL.(pendingCreates := s.pendingCreates, delayed := s.delayed)
    ensures Closed(s)
  {
  }

  /** open of a pool that grows by two, one of them later */
  lemma OpenGrowsSlowly(s: Pool)
    requires s == INITIAL.(pendingCreates := s.pendingCreates, delayed := s.delayed) && 0 <= s.pendingCreates < 2
    ensures Closed(s) && Step(SLOW, s, OpenCalled)
                         == s.(pendingCreates := s.pendingCreates + 1, delayed := s.delayed + 1 - s.pendingCreates)
  {
    hide Closed, Share;
    ClosedD(s);
  }

  lemma DelayEnds()
    ensures Closed(D2) && Step(SLOW, D2, DelayPassed) == D3
  {
    hide Closed;
    ClosedD(D2);
  }

  const DELAYED2 := [DelayPassed] + []
  const DELAYED1 := [OpenCalled] + DELAYED2
  const DELAYED := [OpenCalled] + DELAYED1

  /** A grow while another still has a creation to start: three connections under a ceiling of two. */
  lemma DelayedCreationOvershoots()
    ensures ValidOptions(SLOW) && Legal(SLOW, INITIAL, DELAYED) && OrderlyRun(SLOW, INITIAL, DELAYED)
    ensures (var s := Run(SLOW, INITIAL, DELAYED); s.raced == 0 && s.delayed == 0 && Total(s) == 3 > SLOW.ceiling)
  {
    hide Closed, Step;
    DelayEnds(); RunCons(SLOW, D2, DelayPassed, D3, []);
    OpenGrowsSlowly(D1); RunCons(SLOW, D1, OpenCalled, D2, DELAYED2);
    OpenGrowsSlowly(INITIAL); RunCons(SLOW, INITIAL, OpenCalled, D1, DELAYED1);
    assert |D3.out.Keys| == 0;
  }
}

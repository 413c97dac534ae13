/**
 * What happens to submitted work: one drain in full, and conservation, cancellation and
 * order along every run.
 */
module PoolOrder {
  import opened PoolModel
  import opened PoolInvariants
  import opened PoolRuns
  import opened Wrappers
  import opened Arithmetic

  // ---------------------------------------------------------------- one drain

  datatype Fate = Dispatch | Release | Shelve

  /** What the drain loop does with an item, by its flags. */
  function FateOf(w: Work): Fate {
    if w.pendingCancel then Release else if w.paused then Shelve else Dispatch
  }

  /** The items with a given fate, in the order they are popped: from the end of the queue. */
  function Popped(ws: seq<WorkId>, works: map<WorkId, Work>, fate: Fate): seq<WorkId> {
    if ws == [] then [] else One(Last(ws), works, fate) + Popped(ws[..|ws| - 1], works, fate)
  }

  function One(w: WorkId, works: map<WorkId, Work>, fate: Fate): seq<WorkId> {
    if w in works && FateOf(works[w]) == fate then [w] else []
  }

  lemma LastPopped(ws: seq<WorkId>, works: map<WorkId, Work>, fate: Fate)
    requires ws != []
    ensures Popped(ws, works, fate) == One(Last(ws), works, fate) + Popped(ws[..|ws| - 1], works, fate)
  {
  }

  function Reverse(ws: seq<WorkId>): (r: seq<WorkId>)
    ensures |r| == |ws|
  {
    if ws == [] then [] else Reverse(ws[1..]) + [ws[0]]
  }

  lemma ReverseSnoc(ws: seq<WorkId>, w: WorkId)
    ensures Reverse(ws + [w]) == [w] + Reverse(ws)
  {
    if ws != [] {
      assert (ws + [w])[1..] == ws[1..] + [w];
      ReverseSnoc(ws[1..], w);
    }
  }

  lemma {:induction false} PoppedIgnoresAttached(ws: seq<WorkId>, works: map<WorkId, Work>, works': map<WorkId, Work>,
      fate: Fate)
    requires forall w | w in ws :: w in works && w in works' && FateOf(works[w]) == FateOf(works'[w])
    ensures Popped(ws, works, fate) == Popped(ws, works', fate)
  {
    hide FateOf;
    if ws != [] {
      LastSplit(ws);
      PoppedIgnoresAttached(ws[..|ws| - 1], works, works', fate);
    }
  }

  /** `s'` is what draining `s` down to its first `k` queued items gives. */
  predicate DrainedTo(s: Pool, s': Pool, k: nat)
    requires ItemsKnown(s.workQueue, s.pause, s.works.Keys)
  {
    && k <= |s.workQueue| && s'.workQueue == s.workQueue[..k]
    && s'.dispatched == s.dispatched + Popped(s.workQueue[k..], s.works, Dispatch)
    && s'.released == s.released + Popped(s.workQueue[k..], s.works, Release)
    && s'.pause == Reverse(Popped(s.workQueue[k..], s.works, Shelve)) + s.pause
    && |s'.idle| == |s.idle| - |Popped(s.workQueue[k..], s.works, Dispatch)|
    && s'.busy == s.busy + |Popped(s.workQueue[k..], s.works, Dispatch)|
  }

  lemma SuffixSplit(ws: seq<WorkId>, k: nat)
    requires k < |ws|
    ensures Last(ws[k..]) == Last(ws) && ws[k..][..|ws| - k - 1] == ws[..|ws| - 1][k..]
  {
  }

  lemma StepPopped(s: Pool, now: int, k: nat, fate: Fate)
    requires CanDrain(s) && s.workQueue != [] && s.idle != [] && k < |s.workQueue|
    ensures var s1 := DrainStep(s, now);
            && |s1.workQueue| == |s.workQueue| - 1 && s1.workQueue[..k] == s.workQueue[..k]
            && Popped(s.workQueue[k..], s.works, fate)
            == One(Last(s.workQueue), s.works, fate) + Popped(s1.workQueue[k..], s1.works, fate)
  {
    hide FateOf, DrainStep, CanDrain, ItemsKnown, Popped, One, Last;
    CanDrainKnows(s);
    var s1 := DrainStep(s, now);
    StepKeepsFates(s, now);
    SuffixSplit(s.workQueue, k);
    LastPopped(s.workQueue[k..], s.works, fate);
    var rest := s1.workQueue[k..];
    assert forall v | v in rest :: v in s.workQueue;
    PoppedIgnoresAttached(rest, s.works, s1.works, fate);
  }

  lemma StepKeepsFates(s: Pool, now: int)
    requires CanDrain(s) && s.workQueue != [] && s.idle != []
    ensures var s1 := DrainStep(s, now);
            && s1.workQueue == s.workQueue[..|s.workQueue| - 1]
            && forall w | w in s.works :: w in s1.works && FateOf(s1.works[w]) == FateOf(s.works[w])
  {
    hide CanDrain, ItemsKnown, Item, FateOf;
    CanDrainKnows(s);
    var w := Last(s.workQueue);
    var s1 := s.(workQueue := s.workQueue[..|s.workQueue| - 1]);
    ItemKeepsFates(Checkout(s1, Running(w, None)), Last(s.idle), w, now);
  }

  lemma ItemKeepsFates(s: Pool, d: DescId, w: WorkId, now: int)
    requires d in s.descs && w in s.works
    ensures var s1 := Item(s, d, w, now);
            && s1.workQueue == s.workQueue
            && forall v | v in s.works :: v in s1.works && FateOf(s1.works[v]) == FateOf(s.works[v])
  {
  }

  lemma StepThenRest(s: Pool, now: int, s': Pool, k: nat)
    requires CanDrain(s) && s.workQueue != [] && s.idle != []
    requires ItemsKnown(DrainStep(s, now).workQueue, DrainStep(s, now).pause, DrainStep(s, now).works.Keys)
    requires DrainedTo(DrainStep(s, now), s', k)
    ensures DrainedTo(s, s', k)
  {
    hide DrainStep, Popped, Reverse, ItemsKnown, FateOf, CanDrain;
    var s1 := DrainStep(s, now);
    var w := Last(s.workQueue);
    StepKeepsFates(s, now);
    CanDrainKnows(s);
    StepPopped(s, now, k, Dispatch);
    StepPopped(s, now, k, Release);
    StepPopped(s, now, k, Shelve);
    StepLists(s, now);
    var shelved := Popped(s1.workQueue[k..], s1.works, Shelve);
    ReverseCons(w, shelved);
    assert s1.dispatched + Popped(s1.workQueue[k..], s1.works, Dispatch)
        == s.dispatched + (One(w, s.works, Dispatch) + Popped(s1.workQueue[k..], s1.works, Dispatch));
    assert s1.released + Popped(s1.workQueue[k..], s1.works, Release)
        == s.released + (One(w, s.works, Release) + Popped(s1.workQueue[k..], s1.works, Release));
    assert Reverse(shelved) + ([w] + s.pause) == Reverse(shelved) + [w] + s.pause;
    assert [] + shelved == shelved && [] + s.pause == s.pause;
  }

  lemma CanDrainKnows(s: Pool)
    requires CanDrain(s)
    ensures ItemsKnown(s.workQueue, s.pause, s.works.Keys) && forall w | w in s.workQueue :: w in s.works
    ensures s.idle != [] ==> Last(s.idle) in s.descs
  {
    assert s.idle != [] ==> Last(s.idle) in s.idle;
  }

  lemma ReverseCons(w: WorkId, ws: seq<WorkId>)
    ensures Reverse([w] + ws) == Reverse(ws) + [w]
  {
    assert ([w] + ws)[1..] == ws;
  }

  /** What one turn of the loop does to the lists. */
  lemma StepLists(s: Pool, now: int)
    requires CanDrain(s) && s.workQueue != [] && s.idle != []
    ensures var s1, w := DrainStep(s, now), Last(s.workQueue);
            && s1.dispatched == s.dispatched + One(w, s.works, Dispatch)
            && s1.released == s.released + One(w, s.works, Release)
            && s1.pause == One(w, s.works, Shelve) + s.pause
            && |s1.idle| == |s.idle| - |One(w, s.works, Dispatch)|
            && s1.busy == s.busy + |One(w, s.works, Dispatch)|
  {
    hide CanDrain, ItemsKnown;
    CanDrainKnows(s);
    var work := s.works[Last(s.workQueue)];
    if work.pendingCancel || work.paused { hide Item, Checkout; }
  }

  /** A cancelled item is released even where it is also paused, a paused one put back, any other given a connection. */
  lemma CancelComesFirst(s: Pool, now: int)
    requires CanDrain(s) && s.workQueue != [] && s.idle != []
    ensures (var s1, w := DrainStep(s, now), s.workQueue[|s.workQueue| - 1];
             && w in s.works
             && (w in s1.released <==> w in s.released || s.works[w].pendingCancel)
             && (w in s1.pause <==> w in s.pause || (s.works[w].paused && !s.works[w].pendingCancel))
             && (w in s1.dispatched <==> w in s.dispatched || !(s.works[w].paused || s.works[w].pendingCancel)))
  {
    hide CanDrain, ItemsKnown, DrainStep;
    CanDrainKnows(s);
    StepLists(s, now);
  }

  /** The drain loop stops only when the queue or the pool is empty, and does to each item what its flags say. */
  lemma {:induction false} DrainLoopTakes(s: Pool, now: int) returns (k: nat)
    requires CanDrain(s)
    ensures ItemsKnown(s.workQueue, s.pause, s.works.Keys) && DrainedTo(s, DrainLoop(s, now), k)
    ensures k == 0 || DrainLoop(s, now).idle == []
    decreases |s.workQueue|
  {
    hide DrainStep, Popped, Reverse, DrainedTo, ItemsKnown;
    if s.workQueue != [] && s.idle != [] {
      k := DrainLoopTakes(DrainStep(s, now), now);
      StepThenRest(s, now, DrainLoop(s, now), k);
    } else {
      k := |s.workQueue|;
      NothingDrained(s);
    }
  }

  lemma NothingDrained(s: Pool)
    requires CanDrain(s)
    ensures DrainedTo(s, s, |s.workQueue|)
  {
    assert s.workQueue[|s.workQueue|..] == [] && s.workQueue[..|s.workQueue|] == s.workQueue;
  }

  // promoted work

  lemma {:induction false} PoppedConcat(a: seq<WorkId>, b: seq<WorkId>, works: map<WorkId, Work>, fate: Fate)
    ensures Popped(a + b, works, fate) == Popped(b, works, fate) + Popped(a, works, fate)
  {
    hide One, Popped;
    if b == [] {
      assert a + b == a;
      NothingPopped(works, fate);
    } else {
      var front := b[..|b| - 1];
      PoppedConcat(a, front, works, fate);
      assert (a + b)[..|a + b| - 1] == a + front;
      LastPopped(a + b, works, fate);
      LastPopped(b, works, fate);
      Associates(One(Last(b), works, fate), Popped(front, works, fate), Popped(a, works, fate));
    }
  }

  lemma Associates(x: seq<WorkId>, y: seq<WorkId>, z: seq<WorkId>)
    ensures x + (y + z) == x + y + z
  {
  }

  lemma NothingPopped(works: map<WorkId, Work>, fate: Fate)
    ensures Popped([], works, fate) == []
  {
  }

  lemma {:induction false} PoppedAll(ws: seq<WorkId>, works: map<WorkId, Work>, fate: Fate)
    requires forall w | w in ws :: w in works && FateOf(works[w]) == fate
    ensures Popped(ws, works, fate) == Reverse(ws)
  {
    if ws != [] {
      LastSplit(ws);
      PoppedAll(ws[..|ws| - 1], works, fate);
      ReverseSnoc(ws[..|ws| - 1], Last(ws));
    }
  }

  /** What a drain has to dispatch: first the items it promotes, then those already queued. */
  function ToDispatch(s: Pool): seq<WorkId>
    requires ItemsKnown(s.workQueue, s.pause, s.works.Keys)
  {
    Popped(Select(s.pause, s.works, false), s.works, Dispatch) + Popped(s.workQueue, s.works, Dispatch)
  }

  /** Emptied down to its first k items, a queue has given a prefix of all it would give. */
  lemma PoppedPrefix(ws: seq<WorkId>, works: map<WorkId, Work>, fate: Fate, k: nat)
    requires k <= |ws|
    ensures Popped(ws[k..], works, fate) <= Popped(ws, works, fate)
    ensures k == 0 ==> Popped(ws[k..], works, fate) == Popped(ws, works, fate)
  {
    assert ws == ws[..k] + ws[k..];
    PoppedConcat(ws[..k], ws[k..], works, fate);
    if k == 0 { assert ws[k..] == ws; }
  }

  /**
   * A drain dispatches as many items as connections are idle or as there are, in one order:
   * items promoted together go ahead of everything queued, the one paused longest first, and
   * the rest follow in the order of the queue.
   */
  lemma PromotedGoFirst(s: Pool, now: int)
    requires CanDrain(s)
    ensures Drain(s, now).dispatched == s.dispatched + ToDispatch(s)[..Min(|s.idle|, |ToDispatch(s)|)]
  {
    hide DrainLoop, Popped, Select, FateOf;
    PromoteKeepsKnown(s);
    SelectIsSubset(s.pause, s.works, false);
    var p := PromotePause(s);
    var k := DrainLoopTakes(p, now);
    PoppedConcat(s.workQueue, Select(s.pause, s.works, false), p.works, Dispatch);
    PoppedPrefix(p.workQueue, p.works, Dispatch, k);
  }

  lemma {:induction false} PausedLongestFirst(pause: seq<WorkId>, works: map<WorkId, Work>, i: nat, j: nat)
    requires i < j < |pause| && forall w | w in pause :: w in works && FateOf(works[w]) == Dispatch
    ensures (var order := Popped(pause, works, Dispatch);
             |order| == |pause| && order[|pause| - 1 - j] == pause[j] && order[|pause| - 1 - i] == pause[i])
  {
    PoppedAll(pause, works, Dispatch);
    ReversedAt(pause, i);
    ReversedAt(pause, j);
  }

  lemma {:induction false} ReversedAt(ws: seq<WorkId>, k: nat)
    requires k < |ws|
    ensures Reverse(ws)[|ws| - 1 - k] == ws[k]
  {
    if k > 0 { ReversedAt(ws[1..], k - 1); }
  }

  // ---------------------------------------------------------------- every run

  lemma BaseSays(s: Pool)
    requires Base(s)
    ensures WorkInv(s) && Closed(s)
  {
  }

  /** Each submitted item is in exactly one of the queue, `pause`, dispatched and released, and once. */
  lemma EachItemInOnePlace(o: Options, es: seq<Event>, w: WorkId)
    requires Legal(o, INITIAL, es)
    ensures (var s := Run(o, INITIAL, es);
             multiset(s.workQueue)[w] + multiset(s.pause)[w] + multiset(s.dispatched)[w] + multiset(s.released)[w]
             == if w in s.works then 1 else 0)
  {
    hide Legal, Run, Base;
    InitialBase();
    RunKeepsBase(o, INITIAL, es);
    var s := Run(o, INITIAL, es);
    BaseSays(s);
    ConservedOnce(s, w);
  }

  /** Work never paused while it waited is dispatched in the order it was submitted. */
  lemma DispatchedInSubmitOrder(o: Options, es: seq<Event>, i: nat, j: nat)
    requires Legal(o, INITIAL, es) && i < j < |Run(o, INITIAL, es).dispatched|
    requires Run(o, INITIAL, es).dispatched[i] !in Run(o, INITIAL, es).everPaused
    requires Run(o, INITIAL, es).dispatched[j] !in Run(o, INITIAL, es).everPaused
    ensures Run(o, INITIAL, es).dispatched[i] < Run(o, INITIAL, es).dispatched[j]
  {
    hide Legal, Run, Base;
    InitialBase();
    RunKeepsBase(o, INITIAL, es);
    BaseSays(Run(o, INITIAL, es));
  }

  // a cancelled item stays cancelled, and one paused while it waits stays back until it is resumed

  datatype Stop = Cancelled | Paused

  predicate StoppedIn(works: map<WorkId, Work>, w: WorkId, why: Stop) {
    w in works && if why == Cancelled then works[w].pendingCancel else works[w].paused && !works[w].attached
  }

  lemma {:induction false} DrainLoopKeepsStop(s: Pool, now: int, w: WorkId, why: Stop)
    requires CanDrain(s) && StoppedIn(s.works, w, why)
    ensures StoppedIn(DrainLoop(s, now).works, w, why)
    decreases |s.workQueue|
  {
    hide CanDrain;
    if s.workQueue != [] && s.idle != [] { DrainLoopKeepsStop(DrainStep(s, now), now, w, why); }
  }

  lemma DrainKeepsStop(o: Options, s: Pool, now: int, w: WorkId, why: Stop)
    requires CanDrain(s) && StoppedIn(s.works, w, why)
    ensures StoppedIn(Drain(s, now).works, w, why)
    ensures StoppedIn(Crank(o, s, now).works, w, why)
  {
    hide DrainLoop, GrowStarts, GrowDelays, Existing;
    PromoteKeepsKnown(s);
    DrainLoopKeepsStop(PromotePause(s), now, w, why);
  }

  lemma HandlersKeepWorks(s: Pool, now: int)
    ensures OpenOk(s, now).works == s.works
    ensures forall q | q in s.queries && s.queries[q].desc in s.descs :: QueryFreed(s, q).works == s.works
    ensures forall h | h in s.heartbeats && s.heartbeats[h].desc in s.descs :: HeartbeatDone(s, h, now).works == s.works
    ensures forall d | d in s.descs :: RecreateDone(s, d, now).works == s.works
  {
    hide Checkin, DescriptionFor, InTransaction;
  }

  lemma TickLeavesWorks(o: Options, s: Pool, now: int)
    ensures Tick(o, s, now).works == s.works
  {
    hide Park, Beat;
    ParkLeavesWork(o, s);
    BeatLeavesWork(o, Park(o, s), now);
  }

  lemma OpenLeavesWorks(o: Options, s: Pool)
    ensures OpenPool(o, s).works == s.works
  {
    hide GrowStarts, GrowDelays;
  }

  lemma SubmitKeepsStop(s: Pool, kind: WorkKind, w: WorkId, why: Stop)
    requires WorkInv(s) && StoppedIn(s.works, w, why)
    ensures StoppedIn(Submit(s, kind).works, w, why)
  {
    hide WorkInv;
    NewWorkIsNew(s);
  }

  lemma FinishKeepsStop(s: Pool, d: DescId, now: int, w: WorkId, why: Stop)
    requires why == Paused ==> Attached(s)
    requires StoppedIn(s.works, w, why)
    ensures StoppedIn(Finish(s, d, now).works, w, why)
  {
  }

  lemma BaseHas(s: Pool)
    requires Base(s)
    ensures Attached(s)
  {
  }

  /** Events that only touch the queue, its items or the counters. */
  predicate Outside(e: Event) {
    || e.Submitted? || e.ItemPaused? || e.ItemResumed? || e.ItemCancelled? || e.PoolOpened? || e.OpenCalled?
    || e.DelayPassed? || e.ConnectionFailed? || e.Cranked? || e.Drained?
  }

  lemma OutsideKeepsStop(o: Options, s: Pool, e: Event, w: WorkId, why: Stop)
    requires Base(s) && Closed(s) && Enabled(s, e) && StoppedIn(s.works, w, why) && Outside(e)
    requires why == Paused ==> e != ItemResumed(w)
    ensures StoppedIn(Step(o, s, e).works, w, why)
  {
    hide Base, Closed, OpenOk, QueryFreed, HeartbeatDone, RecreateDone, Tick, CanDrain, Crank, Drain, Submit, OpenPool;
    hide QuerySubmitted, QueryErrored, HeartbeatError, ParkDone, Finish;
    BaseGives(s, e);
    match e
    case OpenCalled => OpenLeavesWorks(o, s);
    case Submitted(kind) => BaseSays(s); SubmitKeepsStop(s, kind, w, why);
    case Cranked(now) => DrainKeepsStop(o, s, now, w, why);
    case Drained(now) => DrainKeepsStop(o, s, now, w, why);
    case _ =>
  }

  lemma StepKeepsStop(o: Options, s: Pool, e: Event, w: WorkId, why: Stop)
    requires Base(s) && Closed(s) && Enabled(s, e) && StoppedIn(s.works, w, why)
    requires why == Paused ==> e != ItemResumed(w)
    ensures StoppedIn(Step(o, s, e).works, w, why)
  {
    hide Base, Closed, OpenOk, QueryFreed, HeartbeatDone, RecreateDone, Tick, CanDrain, Crank, Drain, Submit, OpenPool;
    hide Finish;
    BaseGives(s, e);
    if Outside(e) {
      OutsideKeepsStop(o, s, e, w, why);
    } else {
      match e
      case ConnectionOpened(now) => HandlersKeepWorks(s, now);
      case FreeEvent(_) => HandlersKeepWorks(s, 0);
      case HeartbeatDoneEvent(_, now) => HandlersKeepWorks(s, now);
      case Recreated(_, now) => HandlersKeepWorks(s, now);
      case Ticked(now) => TickLeavesWorks(o, s, now);
      case Finished(d, now) => BaseHas(s); FinishKeepsStop(s, d, now, w, why);
      case _ =>
    }
  }

  /** Work stopped before it was dispatched gets no connection in any run that does not resume it. */
  lemma {:induction false} StoppedIsNotDispatched(o: Options, s: Pool, es: seq<Event>, w: WorkId, why: Stop)
    requires Base(s) && Legal(o, s, es) && StoppedIn(s.works, w, why) && (why == Paused ==> ItemResumed(w) !in es)
    ensures w !in Run(o, s, es).dispatched
    decreases |es|
  {
    hide Base, Closed, Enabled, Step, StoppedIn;
    if es != [] {
      assert es[0] in es;
      StepKeepsStop(o, s, es[0], w, why);
      StepKeepsBase(o, s, es[0]);
      StoppedIsNotDispatched(o, Step(o, s, es[0]), es[1..], w, why);
    } else {
      BaseSays(s);
      StoppedIsWaiting(s, w, why);
    }
  }

  lemma StoppedIsWaiting(s: Pool, w: WorkId, why: Stop)
    requires WorkInv(s) && StoppedIn(s.works, w, why)
    ensures w !in s.dispatched
  {
  }

  /** A cancel that finds the item waiting keeps it from ever getting a connection, whatever happens afterwards. */
  lemma CancelledNeverDispatched(o: Options, s: Pool, es: seq<Event>, w: WorkId)
    requires Base(s) && Legal(o, s, [ItemCancelled(w)] + es) && w !in s.dispatched
    ensures w !in Run(o, s, [ItemCancelled(w)] + es).dispatched
  {
    StopsHere(o, s, ItemCancelled(w), es, w, Cancelled);
  }

  /** A pause that finds the item waiting keeps it from a connection until it is resumed. */
  lemma PausedUntilResumed(o: Options, s: Pool, es: seq<Event>, w: WorkId)
    requires Base(s) && Legal(o, s, [ItemPaused(w)] + es) && w !in s.dispatched && ItemResumed(w) !in es
    ensures w !in Run(o, s, [ItemPaused(w)] + es).dispatched
  {
    StopsHere(o, s, ItemPaused(w), es, w, Paused);
  }

  lemma StopsHere(o: Options, s: Pool, e: Event, es: seq<Event>, w: WorkId, why: Stop)
    requires Base(s) && Legal(o, s, [e] + es) && w !in s.dispatched && (why == Paused ==> ItemResumed(w) !in es)
    requires e == if why == Cancelled then ItemCancelled(w) else ItemPaused(w)
    ensures w !in Run(o, s, [e] + es).dispatched
  {
    hide Base, Closed;
    assert ([e] + es)[0] == e && ([e] + es)[1..] == es;
    BaseSays(s);
    WaitingIsFree(s, w);
    StepKeepsBase(o, s, e);
    StoppedIsNotDispatched(o, Step(o, s, e), es, w, why);
  }

  lemma WaitingIsFree(s: Pool, w: WorkId)
    requires WorkInv(s) && w !in s.dispatched
    ensures w in s.works ==> !s.works[w].attached
  {
  }

  /** Resumed, the item leaves `pause` for the queue at the next drain. */
  lemma ResumedIsQueued(o: Options, s: Pool, w: WorkId)
    requires Closed(s) && w in s.pause && Enabled(s, ItemResumed(w))
    ensures (var t := Step(o, s, ItemResumed(w));
             CanDrain(t) && w in PromotePause(t).workQueue && w !in PromotePause(t).pause)
  {
    var t := Step(o, s, ItemResumed(w));
    SelectIsSubset(t.pause, t.works, true);
    SelectHas(t.pause, t.works, false, w);
  }

  lemma {:induction false} SelectHas(ws: seq<WorkId>, works: map<WorkId, Work>, paused: bool, w: WorkId)
    requires (forall v | v in ws :: v in works) && w in ws && works[w].paused == paused
    ensures w in Select(ws, works, paused)
  {
    if ws[0] != w { SelectHas(ws[1..], works, paused, w); }
  }
}

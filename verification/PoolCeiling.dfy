/**
 * How many connections a pool can hold.
 *
 * grow counts what exists with `busyConnectionCount`, which every checkin decrements while
 * it is positive - also the checkin of a connection that grow itself has just opened.  An
 * open that completes while something is checked out therefore makes the counter too low,
 * and a later grow can go past the ceiling by as much.  Creations that wait for the scaling
 * delay are not counted at all until they start.
 */
module PoolCeiling {
  import opened PoolModel
  import opened PoolInvariants
  import opened PoolRuns
  import opened PoolTheorems
  import opened Wrappers
  import opened Arithmetic

  /** Options under which a grow starts all its creations at once, and never more than it needs. */
  predicate Bounded(o: Options) {
    o.strategy == Aggressive || (o.scalingDelay == 0 && (o.strategy == Exponential ==> o.floor <= 1))
  }

  /** Connections open, opening, being recreated or being closed. */
  function Total(s: Pool): int {
    |s.idle| + |s.out.Keys| + s.pendingCreates + |s.closing|
  }

  /** How far the busy counter lags behind what is checked out. */
  function Lag(s: Pool): int {
    |s.out.Keys| - s.busy
  }

  lemma TotalIsExistingAndLag(s: Pool)
    requires DescInv(s)
    ensures Total(s) == Existing(s) + Lag(s) && Lag(s) >= 0
  {
    hide PlacesOk, HoldsOk, BeatsOk, ConnectedOk, IdsOk;
  }

  // ---------------------------------------------------------------- one grow

  /** A grow that does not stop asks for more than it needs exactly in one case. */
  lemma CountExceedsNeedExactlyWhen(o: Options, s: Pool)
    requires ValidOptions(o) && !GrowStops(o, s)
    ensures GrowCount(o, s) > o.ceiling - Existing(s)
       <==> o.strategy == Exponential && |s.idle| + s.busy == 0 && o.floor > o.ceiling - Existing(s)
  {
    hide Share, Existing;
  }

  /** Outside the efficient strategy every grow that does not stop brings the pool nearer its ceiling. */
  lemma GrowMakesProgress(o: Options, s: Pool)
    requires ValidOptions(o) && !GrowStops(o, s) && o.strategy != Efficient
    ensures GrowStarts(o, s) >= 1
    ensures o.ceiling - Existing(Grow(o, s)) < o.ceiling - Existing(s)
  {
    hide Share;
  }

  /** n is the least of three. */
  predicate LeastOf(n: int, a: int, b: int, c: int) {
    n <= a && n <= b && n <= c && (n == a || n == b || n == c)
  }

  lemma CeilIs(x: real)
    ensures x <= Ceil(x) as real < x + 1.0
  {
  }

  /**
   * What a grow with room under the ceiling starts or delays, strategy by strategy: an open
   * efficient pool one connection for each queued item that no idle one waits for, and a pool
   * that is not open what is missing to its floor; gradual growth its increment; exponential
   * growth its share of the current size, rounded up, or its floor where the size is zero; each
   * no more than there is room for, but for that floor; aggressive growth all there is room for.
   */
  lemma GrowthMeetsNeed(o: Options, s: Pool)
    requires ValidOptions(o) && |s.idle| + s.busy + s.pendingCreates + s.parking < o.ceiling
    requires s.busy >= 0
    ensures (var room := o.ceiling - (|s.idle| + s.busy + s.pendingCreates + s.parking);
             var missing := o.floor - (|s.idle| + s.busy + s.pendingCreates + s.parking);
             var size := |s.idle| + s.busy;
             var count := GrowStarts(o, s) + GrowDelays(o, s);
             match o.strategy
             case Efficient =>
               if s.isOpen
               then if |s.workQueue| > |s.idle|
                    then LeastOf(count, |s.workQueue| - |s.idle|, room, o.scalingIncrement)
                    else count == 0
               else count == if missing > 0 then missing else 0
             case Gradual => LeastOf(count, room, room, o.scalingIncrement)
             case Exponential =>
               if size == 0 then count == if o.floor > 0 then o.floor else 1
               else count <= room && count as real < size as real * (o.scalingFactor - 1.0) + 1.0
                    && (count == room || count as real >= size as real * (o.scalingFactor - 1.0))
             case Aggressive => count == room)
  {
    hide Share;
    if o.strategy == Exponential && |s.idle| + s.busy > 0 { ShareIs(|s.idle| + s.busy, o.scalingFactor); }
  }

  lemma ShareIs(size: int, factor: real)
    requires size > 0 && 1.1 <= factor <= 2.0
    ensures size as real * (factor - 1.0) <= Share(size, factor) as real < size as real * (factor - 1.0) + 1.0
    ensures Share(size, factor) >= 1
  {
    var x, f := size as real, factor - 1.0;
    CeilIs(x * f);
    assert x * f > 0.0;
  }

  /** Without room nothing is started; with room one at least, and all at once or one now, as the delay says. */
  lemma GrowthStarts(o: Options, s: Pool)
    requires ValidOptions(o) && s.busy >= 0
    ensures (var existing, starts, delays := |s.idle| + s.busy + s.pendingCreates + s.parking,
                                             GrowStarts(o, s), GrowDelays(o, s);
             && Grow(o, s) == s.(pendingCreates := s.pendingCreates + starts, delayed := s.delayed + delays)
             && (existing >= o.ceiling ==> starts == delays == 0)
             && (existing < o.ceiling && (o.strategy == Efficient ==> s.isOpen && |s.workQueue| > |s.idle|) ==>
                   starts >= 1)
             && (o.scalingDelay == 0 || o.strategy == Aggressive ==> delays == 0)
             && (o.scalingDelay > 0 && o.strategy != Aggressive ==> starts == if starts + delays > 0 then 1 else 0))
  {
    hide Share;
  }

  /** A crank that leaves work without a connection, and room for one, starts one. */
  lemma CrankServesQueue(o: Options, s: Pool, now: int)
    requires ValidOptions(o) && CanDrain(s) && Drain(s, now).busy >= 0 && s.busy >= 0
    ensures (var d := Drain(s, now);
             o.strategy == Efficient ==>
               && (d.isOpen && d.workQueue != [] && d.idle == []
                   && d.busy + d.pendingCreates + d.parking < o.ceiling ==>
                     Crank(o, s, now).pendingCreates > d.pendingCreates)
               && (d.workQueue == [] || d.idle != [] ==> Crank(o, s, now) == d))
    ensures o.strategy != Efficient && |s.idle| + s.busy + s.pendingCreates + s.parking < o.ceiling ==>
              Crank(o, s, now).pendingCreates > s.pendingCreates
  {
    hide Drain, GrowStarts, GrowDelays, CanDrain;
    GrowthStarts(o, s);
    GrowthStarts(o, Drain(s, now));
  }

  /** Opening a new pool starts what its strategy first asks for: `floor` connections when it is efficient. */
  lemma OpenStarts(o: Options)
    requires ValidOptions(o) && o.scalingDelay == 0
    ensures (var s := Step(o, INITIAL, OpenCalled);
             && s.pendingCreates == match o.strategy
                                    case Efficient => o.floor
                                    case Gradual => Min(o.scalingIncrement, o.ceiling)
                                    case Exponential => Max(o.floor, 1)
                                    case Aggressive => o.ceiling)
  {
    hide Share;
  }

  lemma CeilIsLeast(x: real, n: int)
    requires x <= n as real
    ensures Ceil(x) <= n
  {
  }

  lemma AtMostDouble(size: int, factor: real)
    requires size >= 0 && 1.1 <= factor <= 2.0
    ensures Share(size, factor) <= size
  {
    var x, f := size as real, factor - 1.0;
    SmallerPart(x, f);
    CeilIsLeast(x * f, size);
  }

  lemma SmallerPart(x: real, f: real)
    requires x >= 0.0 && f <= 1.0
    ensures x * f <= x
  {
  }

  /**
   * The pace of each strategy: gradual growth by its increment, exponential growth to at most
   * double, efficient growth up to the floor before the pool is open and then by no more than
   * the queued work needs, and never more than asked for unless every connection is needed.
   */
  lemma GrowthIsPaced(o: Options, s: Pool)
    requires ValidOptions(o) && !GrowStops(o, s) && s.busy >= 0
    ensures o.strategy == Gradual ==> GrowCount(o, s) <= o.scalingIncrement
    ensures o.strategy == Exponential && |s.idle| + s.busy > 0 ==> GrowCount(o, s) <= |s.idle| + s.busy
    ensures o.strategy == Efficient && !s.isOpen ==> Existing(s) + GrowCount(o, s) <= Max(o.floor, Existing(s))
    ensures o.strategy == Efficient && s.isOpen ==>
              GrowCount(o, s) <= Max(0, |s.workQueue| - |s.idle|) && GrowCount(o, s) <= o.scalingIncrement
    ensures o.strategy == Aggressive ==> Existing(s) + GrowCount(o, s) == o.ceiling
  {
    hide Share;
    AtMostDouble(|s.idle| + s.busy, o.scalingFactor);
  }

  /** Parking takes one inactive description and leaves at least `floor` idle. */
  lemma ParkLeavesFloor(o: Options, s: Pool)
    ensures (var t := Park(o, s);
             t == s || (|t.idle| == |s.idle| - 1 >= o.floor
                        && exists d | d in s.idle && d in t.closing :: Inactive(o, s.descs)(d)))
  {
    var i := FirstIndex(s.idle, Inactive(o, s.descs));
    if i < |s.idle| { assert s.idle[i] in s.idle; }
  }

  /**
   * With an exact busy counter a grow that does not stop keeps what it starts, now or later,
   * within the ceiling - except an exponential one from size zero whose floor is above the need.
   */
  lemma GrowStaysWithinCeilingExactlyWhen(o: Options, s: Pool)
    requires ValidOptions(o) && DescInv(s) && Lag(s) == 0 && !GrowStops(o, s)
    ensures Total(Grow(o, s)) + GrowDelays(o, s) <= o.ceiling
       <==> !(o.strategy == Exponential && |s.idle| + s.busy == 0 && o.floor > o.ceiling - Existing(s))
    ensures o.scalingDelay == 0 ==> GrowDelays(o, s) == 0
  {
    hide DescInv, GrowCount, Existing;
    TotalIsExistingAndLag(s);
    CountExceedsNeedExactlyWhen(o, s);
    NeedIsPositive(o, s);
  }

  /** After an aggressive grow the pool holds exactly the ceiling plus the lag of its counter. */
  lemma AggressiveGrowFills(o: Options, s: Pool)
    requires ValidOptions(o) && DescInv(s) && o.strategy == Aggressive && !GrowStops(o, s)
    ensures Total(Grow(o, s)) == o.ceiling + Lag(s)
    ensures Total(Grow(o, s)) <= o.ceiling <==> s.busy == |s.out.Keys|
  {
    hide PlacesOk, HoldsOk, BeatsOk, ConnectedOk, IdsOk;
    TotalIsExistingAndLag(s);
  }

  // ---------------------------------------------------------------- whole runs

  /** Everything created or promised is within the bound but for one connection per raced open. */
  predicate CeilingInv(bound: int, s: Pool) {
    Total(s) + s.delayed <= bound + s.raced && Lag(s) <= s.raced
  }

  /**
   * What a grow can add past its need: creations of earlier grows still waiting for their timer,
   * which it does not count, and what it asks for beyond the need.
   */
  function Uncounted(o: Options, s: Pool): int {
    if GrowStops(o, s) then 0 else Max(0, s.delayed + Max(0, GrowCount(o, s) - (o.ceiling - Existing(s))))
  }

  /** The same for the grow that an event causes, if it causes one. */
  function UncountedBy(o: Options, s: Pool, e: Event): int
    requires Closed(s)
  {
    match e
    case OpenCalled => if s.isOpen then 0 else Uncounted(o, s)
    case Cranked(now) =>
      ClosedDrains(s);
      if o.strategy == Efficient then Uncounted(o, Drain(s, now)) else Uncounted(o, s)
    case _ => 0
  }

  /** The most that any grow of a run left uncounted. */
  function Excess(o: Options, s: Pool, es: seq<Event>): int
    requires Legal(o, s, es)
    decreases |es|
  {
    if es == [] then 0 else Max(UncountedBy(o, s, es[0]), Excess(o, Step(o, s, es[0]), es[1..]))
  }

  lemma GrowKeepsCeiling(o: Options, bound: int, s: Pool)
    requires ValidOptions(o) && DescInv(s) && CeilingInv(bound, s) && bound >= o.ceiling + Uncounted(o, s)
    ensures CeilingInv(bound, Grow(o, s))
  {
    hide DescInv, GrowCount, Existing, GrowStops;
    TotalIsExistingAndLag(s);
    if !GrowStops(o, s) { NeedIsPositive(o, s); }
  }

  lemma NeedIsPositive(o: Options, s: Pool)
    requires !GrowStops(o, s)
    ensures o.ceiling - Existing(s) >= 1
  {
  }

  lemma SameCounts(bound: int, s: Pool, s': Pool)
    requires CeilingInv(bound, s)
    requires |s'.idle| == |s.idle| && |s'.out.Keys| == |s.out.Keys| && |s'.closing| == |s.closing|
    requires s'.pendingCreates == s.pendingCreates && s'.busy == s.busy && s'.delayed == s.delayed
        && s'.raced == s.raced
    ensures CeilingInv(bound, s')
  {
  }

  /** A checkout and the query it is for: one idle description goes out. */
  lemma DispatchCounts(s: Pool, w: WorkId, now: int)
    requires s.idle != [] && Last(s.idle) in s.descs && Last(s.idle) !in s.out && w in s.works
    ensures var s' := Item(Checkout(s, Running(w, None)), Last(s.idle), w, now);
            && |s'.idle| == |s.idle| - 1 && |s'.out.Keys| == |s.out.Keys| + 1 && s'.busy == s.busy + 1
            && s'.closing == s.closing && s'.pendingCreates == s.pendingCreates && s'.delayed == s.delayed
            && s'.raced == s.raced
  {
    KeysAdd(s.out, Last(s.idle), Running(w, None), Running(w, Some(s.nextQuery)));
  }

  lemma MovedKeepsCeiling(bound: int, s: Pool, s': Pool)
    requires CeilingInv(bound, s)
    requires |s'.idle| == |s.idle| - 1 && |s'.out.Keys| == |s.out.Keys| + 1 && s'.busy == s.busy + 1
    requires && s'.closing == s.closing && s'.pendingCreates == s.pendingCreates && s'.delayed == s.delayed
             && s'.raced == s.raced
    ensures CeilingInv(bound, s')
  {
  }

  lemma DrainStepKeepsCeiling(bound: int, s: Pool, now: int)
    requires DescInv(s) && CanDrain(s) && s.workQueue != [] && s.idle != [] && CeilingInv(bound, s)
    ensures CeilingInv(bound, DrainStep(s, now))
  {
    hide HoldsOk, BeatsOk, ConnectedOk, IdsOk, PlacesOk, CountersOk, CeilingInv, Item, Checkout;
    IdleIsFree(s, |s.idle| - 1);
    var w := Last(s.workQueue);
    var s1 := s.(workQueue := s.workQueue[..|s.workQueue| - 1]);
    if s.works[w].pendingCancel || s.works[w].paused {
      SameCounts(bound, s, DrainStep(s, now));
    } else {
      DispatchCounts(s1, w, now);
      MovedKeepsCeiling(bound, s, DrainStep(s, now));
    }
  }

  lemma KeysAdd(out: map<DescId, Phase>, d: DescId, p: Phase, q: Phase)
    requires d !in out
    ensures |out[d := p].Keys| == |out.Keys| + 1 && |out[d := p][d := q].Keys| == |out.Keys| + 1
  {
    assert out[d := p].Keys == out.Keys + {d};
    assert out[d := p][d := q].Keys == out.Keys + {d};
  }

  lemma KeysDrop(out: map<DescId, Phase>, d: DescId)
    ensures |(out - {d}).Keys| == if d in out then |out.Keys| - 1 else |out.Keys|
  {
    assert (out - {d}).Keys == out.Keys - {d};
  }

  lemma {:induction false} DrainLoopKeepsCeiling(bound: int, s: Pool, now: int)
    requires Inv(s) && CanDrain(s) && CeilingInv(bound, s)
    ensures CeilingInv(bound, DrainLoop(s, now))
    decreases |s.workQueue|
  {
    hide Base, DescInv, DrainStep, CanDrain, CeilingInv;
    if s.workQueue != [] && s.idle != [] {
      DrainStepKeepsCeiling(bound, s, now);
      DrainStepKeepsInv(s, now);
      DrainLoopKeepsCeiling(bound, DrainStep(s, now), now);
    }
  }

  lemma DrainKeepsCeiling(bound: int, s: Pool, now: int)
    requires Inv(s) && CanDrain(s) && CeilingInv(bound, s)
    ensures CeilingInv(bound, Drain(s, now))
  {
    hide Base, DescInv, DrainLoop, Select;
    PromoteKeepsKnown(s);
    PromoteKeepsInv(s);
    DrainLoopKeepsCeiling(bound, PromotePause(s), now);
  }

  lemma CrankKeepsCeiling(o: Options, bound: int, s: Pool, now: int)
    requires ValidOptions(o) && Inv(s) && Closed(s) && CanDrain(s) && CeilingInv(bound, s)
    requires bound >= o.ceiling + UncountedBy(o, s, Cranked(now))
    ensures CeilingInv(bound, Crank(o, s, now))
  {
    hide Base, DescInv, Drain, Grow, CeilingInv, Uncounted, Closed;
    if o.strategy == Efficient {
      DrainKeepsCeiling(bound, s, now);
      DrainKeepsDesc(s, now);
      GrowKeepsCeiling(o, bound, Drain(s, now));
    } else {
      GrowKeepsCeiling(o, bound, s);
    }
  }

  /** A checkin of a description that was out leaves the total alone and never adds to the lag. */
  lemma CheckinKeepsCeiling(bound: int, s: Pool, d: DescId)
    requires d in s.out && d !in s.idle && d !in s.parked && d in s.descs
    requires CeilingInv(bound, s) && 0 <= s.busy <= |s.out.Keys|
    ensures CeilingInv(bound, Checkin(s, d))
  {
    KeysDrop(s.out, d);
  }

  lemma BusyBounds(s: Pool)
    requires DescInv(s)
    ensures 0 <= s.busy <= |s.out.Keys| && s.parking == |s.closing|
  {
  }

  /** The counters a checkin by a handler starts from. */
  lemma HandlerKeepsCeiling(bound: int, s: Pool, s': Pool, d: DescId)
    requires DescInv(s) && d in s.out && CeilingInv(bound, s)
    requires s' == s.(queries := s'.queries, descs := s'.descs, heartbeats := s'.heartbeats) && d in s'.descs
    ensures CeilingInv(bound, Checkin(s', d))
  {
    hide PlacesOk, HoldsOk, BeatsOk, ConnectedOk, IdsOk, Checkin;
    OutIsNowhereElse(s, d);
    CheckinKeepsCeiling(bound, s', d);
  }

  lemma FreedKeepsCeiling(bound: int, s: Pool, q: QueryId)
    requires DescInv(s) && q in s.queries && s.queries[q].desc in s.descs && CeilingInv(bound, s)
    ensures CeilingInv(bound, QueryFreed(s, q))
  {
    hide PlacesOk, HoldsOk, BeatsOk, ConnectedOk, IdsOk, CountersOk, Checkin;
    QueryIsOut(s, q);
    var d := s.queries[q].desc;
    HandlerKeepsCeiling(bound, s, s.(queries := s.queries - {q}), d);
    SameKeys(s.out, d, Running(s.queries[q].work, None));
  }

  lemma HeartbeatKeepsCeiling(bound: int, s: Pool, h: HeartbeatId, now: int)
    requires DescInv(s) && h in s.heartbeats && s.heartbeats[h].desc in s.descs && CeilingInv(bound, s)
    ensures CeilingInv(bound, HeartbeatDone(s, h, now)) && CeilingInv(bound, HeartbeatError(s, h))
  {
    hide PlacesOk, HoldsOk, BeatsOk, ConnectedOk, IdsOk, CountersOk, Checkin;
    var hb := s.heartbeats[h];
    if !hb.settled {
      BeatIsOut(s, h);
      SameKeys(s.out, hb.desc, Recreating);
      var desc := s.descs[hb.desc].(keepAlive := s.descs[hb.desc].keepAlive + 1, lastActive := now);
      var beats := s.heartbeats[h := hb.(settled := true, checkins := hb.checkins + 1)];
      HandlerKeepsCeiling(bound, s, s.(heartbeats := beats, descs := s.descs[hb.desc := desc]), hb.desc);
    }
  }

  lemma RecreatedKeepsCeiling(bound: int, s: Pool, d: DescId, now: int)
    requires DescInv(s) && d in s.out && d in s.descs && CeilingInv(bound, s)
    ensures CeilingInv(bound, RecreateDone(s, d, now))
  {
    hide PlacesOk, HoldsOk, BeatsOk, ConnectedOk, IdsOk, CountersOk, Checkin;
    HandlerKeepsCeiling(bound, s, s.(descs := s.descs[d := s.descs[d].(connected := true, lastActive := now)]), d);
  }

  lemma CheckinOfNew(s: Pool, d: DescId)
    requires d in s.descs && d !in s.idle && d !in s.parked && d !in s.out
    ensures var s' := Checkin(s, d);
            && |s'.idle| == |s.idle| + 1 && s'.out == s.out && s'.closing == s.closing
            && s'.pendingCreates == s.pendingCreates && s'.delayed == s.delayed && s'.raced == s.raced
            && s'.busy == if s.busy > 0 then s.busy - 1 else s.busy
  {
    assert s.out - {d} == s.out;
  }

  /** An open moves one connection from pending to idle; the lag grows by one exactly if it raced. */
  lemma OpenKeepsCeiling(bound: int, s: Pool, now: int)
    requires DescInv(s) && s.pendingCreates > 0 && CeilingInv(bound, s)
    ensures CeilingInv(bound, OpenOk(s, now))
    ensures Lag(OpenOk(s, now)) == Lag(s) + (if s.busy > 0 then 1 else 0)
  {
    hide DescInv, Checkin, DescriptionFor;
    DescriptionForIsNowhere(s, now);
    BusyBounds(s);
    CheckinOfNew(Connected(s, now), DescriptionFor(s));
  }

  lemma TickKeepsCeiling(o: Options, bound: int, s: Pool, now: int)
    requires DescInv(s) && CeilingInv(bound, s)
    ensures CeilingInv(bound, Tick(o, s, now))
  {
    hide DescInv, CeilingInv, Park, Beat;
    ParkKeepsCeiling(o, bound, s);
    ParkKeeps(o, s);
    BeatKeepsCeiling(o, bound, Park(o, s), now);
  }

  lemma ParkKeepsCeiling(o: Options, bound: int, s: Pool)
    requires DescInv(s) && CeilingInv(bound, s)
    ensures CeilingInv(bound, Park(o, s))
  {
    hide HoldsOk, BeatsOk, ConnectedOk, CountersOk, IdsOk, PlacesOk, Inactive;
    var i := FirstIndex(s.idle, Inactive(o, s.descs));
    if i < |s.idle| {
      PlacesFromIdle(s.idle, s.parked, s.out.Keys, s.closing, s.descs.Keys, i);
      assert |s.closing + {s.idle[i]}| == |s.closing| + 1;
    }
  }

  lemma BeatKeepsCeiling(o: Options, bound: int, s: Pool, now: int)
    requires DescInv(s) && CeilingInv(bound, s)
    ensures CeilingInv(bound, Beat(o, s, now))
  {
    hide HoldsOk, BeatsOk, ConnectedOk, CountersOk, IdsOk, PlacesOk, Due;
    var i := FirstIndex(s.idle, Due(o, s.descs, now));
    if i < |s.idle| {
      IdleIsFree(s, i);
      KeysAdd(s.out, s.idle[i], Beating(s.nextHeartbeat), Recreating);
    }
  }

  lemma FinishKeepsCeiling(bound: int, s: Pool, d: DescId, now: int)
    requires DescInv(s) && CeilingInv(bound, s) && d in s.descs
    requires CanFinish(s, d) ==> d in s.out && s.out[d].Running? && s.out[d].query == None
    ensures CeilingInv(bound, Finish(s, d, now))
  {
    hide DescInv;
    if CanFinish(s, d) { SameKeys(s.out, d, Running(s.descs[d].work.value, Some(s.nextQuery))); }
  }

  lemma StepKeepsCeiling(o: Options, bound: int, s: Pool, e: Event)
    requires ValidOptions(o) && Inv(s) && Closed(s) && Enabled(s, e) && Orderly(s, e)
    requires CeilingInv(bound, s) && bound >= o.ceiling + UncountedBy(o, s, e)
    ensures CeilingInv(bound, Step(o, s, e))
    ensures Step(o, s, e).raced >= s.raced
  {
    hide Base, DescInv, Closed, CanFinish, CanDrain, Crank, Drain, OpenOk, QueryFreed, Finish, Tick, CeilingInv;
    hide HeartbeatDone, HeartbeatError, RecreateDone, QuerySubmitted, QueryErrored, ParkDone, Submit, Uncounted;
    BaseGives(s, e);
    RacedOnlyGrows(o, s, e);
    match e
    case OpenCalled => if !s.isOpen { GrowKeepsCeiling(o, bound, s); }
    case Cranked(now) => CrankKeepsCeiling(o, bound, s, now);
    case Drained(now) => DrainKeepsCeiling(bound, s, now);
    case ConnectionOpened(now) => OpenKeepsCeiling(bound, s, now);
    case FreeEvent(q) => FreedKeepsCeiling(bound, s, q);
    case Finished(d, now) =>
      if CanFinish(s, d) { OrderlyFinish(s, d); }
      FinishKeepsCeiling(bound, s, d, now);
    case Ticked(now) => TickKeepsCeiling(o, bound, s, now);
    case HeartbeatDoneEvent(h, now) => HeartbeatKeepsCeiling(bound, s, h, now);
    case HeartbeatErrorEvent(h) => HeartbeatKeepsCeiling(bound, s, h, 0);
    case Recreated(d, now) => RecreatedKeepsCeiling(bound, s, d, now);
    case _ => OtherEventKeepsCeiling(o, bound, s, e);
  }

  lemma OtherEventKeepsCeiling(o: Options, bound: int, s: Pool, e: Event)
    requires DescInv(s) && Closed(s) && Enabled(s, e) && CeilingInv(bound, s)
    requires || e.Submitted? || e.ItemPaused? || e.ItemResumed? || e.ItemCancelled? || e.PoolOpened?
             || e.DelayPassed? || e.ConnectionFailed? || e.SubmittedEvent? || e.ErrorEvent? || e.ParkClosed?
    ensures CeilingInv(bound, Step(o, s, e))
  {
    hide DescInv, Closed, CeilingInv, Crank, Drain, OpenPool, OpenOk, Finish, Tick, HeartbeatDone, HeartbeatError;
    hide QueryFreed, RecreateDone;
    match e
    case DelayPassed => StartedKeepsCeiling(bound, s, Step(o, s, e));
    case ConnectionFailed => FewerKeepCeiling(bound, s, Step(o, s, e));
    case ParkClosed(d) =>
      assert |s.closing - {d}| == |s.closing| - 1;
      FewerKeepCeiling(bound, s, Step(o, s, e));
    case Submitted(_) => SameCounts(bound, s, Step(o, s, e));
    case ItemPaused(_) => SameCounts(bound, s, Step(o, s, e));
    case ItemResumed(_) => SameCounts(bound, s, Step(o, s, e));
    case ItemCancelled(_) => SameCounts(bound, s, Step(o, s, e));
    case PoolOpened => SameCounts(bound, s, Step(o, s, e));
    case SubmittedEvent(_) => SameCounts(bound, s, Step(o, s, e));
    case ErrorEvent(_) => SameCounts(bound, s, Step(o, s, e));
  }

  /** A delayed creation that starts was promised already. */
  lemma StartedKeepsCeiling(bound: int, s: Pool, s': Pool)
    requires CeilingInv(bound, s)
    requires s' == s.(pendingCreates := s'.pendingCreates, delayed := s'.delayed)
    requires s'.pendingCreates == s.pendingCreates + 1 && s'.delayed == s.delayed - 1
    ensures CeilingInv(bound, s')
  {
  }

  lemma FewerKeepCeiling(bound: int, s: Pool, s': Pool)
    requires CeilingInv(bound, s)
    requires s'.idle == s.idle && s'.out == s.out && s'.busy == s.busy && s'.delayed == s.delayed && s'.raced == s.raced
    requires s'.pendingCreates <= s.pendingCreates && |s'.closing| <= |s.closing|
    ensures CeilingInv(bound, s')
  {
  }

  /** The history counter counts the opens that found the busy counter positive, and nothing else. */
  lemma RacedOnlyGrows(o: Options, s: Pool, e: Event)
    requires Closed(s) && Enabled(s, e)
    ensures Step(o, s, e).raced == s.raced + (if e.ConnectionOpened? && s.busy > 0 then 1 else 0)
  {
    hide Closed, Drain, Crank, CanDrain, GrowStarts, GrowDelays;
    hide QueryFreed, HeartbeatDone, HeartbeatError, RecreateDone, OpenOk, Tick, Finish;
    HandlerKeepsHistory(o, s, e);
    if e.Cranked? { CrankKeepsRaced(o, s, e.now); }
    if e.Drained? { DrainKeepsRaced(s, e.now); }
  }

  /** Nothing more is delayed, and so many creations have been answered. */
  predicate SameCreations(s: Pool, s': Pool, answered: int) {
    s'.delayed == s.delayed && s'.pendingCreates == s.pendingCreates - answered
  }

  /** Handlers of queries, connections and the timer delay nothing, and no other open is counted. */
  lemma HandlerKeepsHistory(o: Options, s: Pool, e: Event)
    requires Closed(s) && Enabled(s, e)
    ensures e.FreeEvent? || e.HeartbeatDoneEvent? || e.HeartbeatErrorEvent? || e.Recreated? || e.Finished?
            || e.Ticked? ==>
              Step(o, s, e).raced == s.raced && SameCreations(s, Step(o, s, e), 0)
    ensures e.ConnectionOpened? ==>
              Step(o, s, e).raced == s.raced + (if s.busy > 0 then 1 else 0) && SameCreations(s, Step(o, s, e), 1)
  {
    hide Closed, QueryFreed, HeartbeatDone, HeartbeatError, RecreateDone, OpenOk, Tick, Finish, Crank, Drain, Grow;
    TickKeepsHistory(o, s, if e.Ticked? then e.now else 0);
    match e
    case FreeEvent(q) => ClosedGives(s); FreedKeepsHistory(s, q);
    case HeartbeatDoneEvent(h, now) => ClosedGives(s); BeatKeepsHistory(s, h, now);
    case HeartbeatErrorEvent(h) => ClosedGives(s); BeatKeepsHistory(s, h, 0);
    case Recreated(d, now) => ClosedGives(s); RecreatedKeepsHistory(s, d, now);
    case Finished(d, now) => FinishKeepsHistory(s, d, now);
    case ConnectionOpened(now) => OpenKeepsHistory(s, now);
    case _ =>
  }

  lemma ClosedGives(s: Pool)
    requires Closed(s)
    ensures QueriesKnown(s.queries, s.descs.Keys, s.works.Keys) && BeatsKnown(s.heartbeats, s.descs.Keys)
    ensures s.out.Keys <= s.descs.Keys
  {
  }

  lemma TickKeepsHistory(o: Options, s: Pool, now: int)
    ensures Tick(o, s, now).raced == s.raced && SameCreations(s, Tick(o, s, now), 0)
  {
    hide Park, Beat;
    ParkKeepsHistory(o, s);
    StartedBeatKeepsHistory(o, Park(o, s), now);
  }

  lemma ParkKeepsHistory(o: Options, s: Pool)
    ensures Park(o, s).raced == s.raced && SameCreations(s, Park(o, s), 0)
  {
    hide FirstIndex, Inactive, Without;
  }

  lemma StartedBeatKeepsHistory(o: Options, s: Pool, now: int)
    ensures Beat(o, s, now).raced == s.raced && SameCreations(s, Beat(o, s, now), 0)
  {
    hide FirstIndex, Due, Without;
  }

  lemma FreedKeepsHistory(s: Pool, q: QueryId)
    requires q in s.queries && s.queries[q].desc in s.descs
    ensures QueryFreed(s, q).raced == s.raced && SameCreations(s, QueryFreed(s, q), 0)
  {
    hide Checkin, InTransaction;
  }

  lemma BeatKeepsHistory(s: Pool, h: HeartbeatId, now: int)
    requires h in s.heartbeats && s.heartbeats[h].desc in s.descs
    ensures HeartbeatDone(s, h, now).raced == s.raced && SameCreations(s, HeartbeatDone(s, h, now), 0)
    ensures HeartbeatError(s, h).raced == s.raced && SameCreations(s, HeartbeatError(s, h), 0)
  {
    hide Checkin;
  }

  lemma RecreatedKeepsHistory(s: Pool, d: DescId, now: int)
    requires d in s.descs
    ensures RecreateDone(s, d, now).raced == s.raced && SameCreations(s, RecreateDone(s, d, now), 0)
  {
    hide Checkin;
  }

  lemma FinishKeepsHistory(s: Pool, d: DescId, now: int)
    ensures Finish(s, d, now).raced == s.raced && SameCreations(s, Finish(s, d, now), 0)
  {
  }

  lemma OpenKeepsHistory(s: Pool, now: int)
    ensures OpenOk(s, now).raced == s.raced + (if s.busy > 0 then 1 else 0) && SameCreations(s, OpenOk(s, now), 1)
  {
    hide Checkin;
  }

  lemma CrankKeepsRaced(o: Options, s: Pool, now: int)
    requires Closed(s)
    ensures CanDrain(s) && Crank(o, s, now).raced == s.raced
  {
    hide Closed, Drain, GrowStarts, GrowDelays, Existing, CanDrain;
    DrainKeepsRaced(s, now);
  }

  lemma DrainKeepsRaced(s: Pool, now: int)
    requires Closed(s)
    ensures CanDrain(s) && Drain(s, now).raced == s.raced
  {
    hide Closed, DrainLoop, Select, CanDrain;
    ClosedDrains(s);
    PromoteKeepsKnown(s);
    DrainLoopKeepsRaced(PromotePause(s), now);
  }

  lemma CrankKeepsDelayed(o: Options, s: Pool, now: int)
    requires Bounded(o) && Closed(s)
    ensures CanDrain(s) && Crank(o, s, now).delayed == s.delayed && Drain(s, now).delayed == s.delayed
  {
    hide Closed, Drain, GrowCount, GrowStops, Existing, CanDrain;
    DrainKeepsDelayed(s, now);
  }

  lemma DrainKeepsDelayed(s: Pool, now: int)
    requires Closed(s)
    ensures CanDrain(s) && SameCreations(s, Drain(s, now), 0)
  {
    hide Closed, DrainLoop, Select, CanDrain;
    ClosedDrains(s);
    PromoteKeepsKnown(s);
    DrainLoopKeepsRaced(PromotePause(s), now);
  }

  lemma ClosedDrains(s: Pool)
    requires Closed(s)
    ensures CanDrain(s)
  {
  }

  lemma {:induction false} DrainLoopKeepsRaced(s: Pool, now: int)
    requires CanDrain(s)
    ensures DrainLoop(s, now).raced == s.raced && SameCreations(s, DrainLoop(s, now), 0)
    decreases |s.workQueue|
  {
    hide CanDrain;
    if s.workQueue != [] && s.idle != [] { DrainLoopKeepsRaced(DrainStep(s, now), now); }
  }

  /**
   * Along every orderly run, under every strategy, the total is within the ceiling but for what
   * the grow that counted least left out, and one connection per raced open.
   */
  lemma {:induction false} CeilingHolds(o: Options, bound: int, s: Pool, es: seq<Event>)
    requires ValidOptions(o) && Inv(s) && CeilingInv(bound, s)
    requires Legal(o, s, es) && OrderlyRun(o, s, es) && bound >= o.ceiling + Excess(o, s, es)
    ensures CeilingInv(bound, Run(o, s, es)) && Run(o, s, es).raced >= s.raced
    decreases |es|
  {
    hide Inv, Closed, Enabled, Orderly, Step, CeilingInv, UncountedBy;
    if es != [] {
      StepKeepsCeiling(o, bound, s, es[0]);
      StepKeepsInv(o, s, es[0]);
      CeilingHolds(o, bound, Step(o, s, es[0]), es[1..]);
    }
  }

  lemma DelaysKept(o: Options, s: Pool, e: Event)
    requires Bounded(o) && Closed(s) && Enabled(s, e) && s.delayed == 0
    ensures Step(o, s, e).delayed == 0
    ensures e.Cranked? ==> CanDrain(s) && Drain(s, e.now).delayed == 0
  {
    hide Closed, Drain, Crank, CanDrain, GrowCount, GrowStops;
    hide QueryFreed, HeartbeatDone, HeartbeatError, RecreateDone, OpenOk, Tick, Finish;
    HandlerKeepsHistory(o, s, e);
    if e.Cranked? { CrankKeepsDelayed(o, s, e.now); }
    if e.Drained? { DrainKeepsDelayed(s, e.now); }
  }

  /** Under those options no grow leaves anything uncounted. */
  lemma {:induction false} BoundedHasNoExcess(o: Options, s: Pool, es: seq<Event>)
    requires ValidOptions(o) && Bounded(o) && Legal(o, s, es) && s.delayed == 0
    ensures Excess(o, s, es) == 0
    decreases |es|
  {
    hide Closed, Enabled, Step, Drain, GrowCount, Existing, GrowStops;
    if es != [] {
      DelaysKept(o, s, es[0]);
      NothingUncounted(o, s);
      if es[0].Cranked? { NothingUncounted(o, Drain(s, es[0].now)); }
      BoundedHasNoExcess(o, Step(o, s, es[0]), es[1..]);
    }
  }

  lemma NothingUncounted(o: Options, s: Pool)
    requires ValidOptions(o) && Bounded(o) && s.delayed == 0
    ensures Uncounted(o, s) == 0
  {
    hide GrowCount, Existing;
    if !GrowStops(o, s) {
      CountExceedsNeedExactlyWhen(o, s);
      NeedIsPositive(o, s);
    }
  }

  /**
   * Without a raced open the busy counter is exact, and a pool exceeds its ceiling by no more than
   * a grow left uncounted - by nothing where creations are not delayed and no grow asks for more
   * than it needs.
   */
  lemma CeilingWithoutRaces(o: Options, es: seq<Event>)
    requires ValidOptions(o) && Legal(o, INITIAL, es) && OrderlyRun(o, INITIAL, es)
    ensures (var s := Run(o, INITIAL, es);
             s.raced == 0 ==> Total(s) + s.delayed <= o.ceiling + Excess(o, INITIAL, es) && s.busy == |s.out.Keys|)
    ensures Bounded(o) ==> Excess(o, INITIAL, es) == 0
  {
    InitialInv();
    NoNegativeExcess(o, INITIAL, es);
    CeilingHolds(o, o.ceiling + Excess(o, INITIAL, es), INITIAL, es);
    RunKeepsInv(o, INITIAL, es);
    if Bounded(o) { BoundedHasNoExcess(o, INITIAL, es); }
  }

  lemma {:induction false} NoNegativeExcess(o: Options, s: Pool, es: seq<Event>)
    requires Legal(o, s, es)
    ensures Excess(o, s, es) >= 0
    decreases |es|
  {
    hide UncountedBy, Step;
    if es != [] { NoNegativeExcess(o, Step(o, s, es[0]), es[1..]); }
  }

  // ---------------------------------------------------------------- every creation is answered once

  /** The creations an event starts or delays. */
  function GrownBy(o: Options, s: Pool, e: Event): int
    requires Closed(s)
  {
    match e
    case OpenCalled => if s.isOpen then 0 else GrowStarts(o, s) + GrowDelays(o, s)
    case Cranked(now) =>
      ClosedDrains(s);
      var d := Drain(s, now);
      if o.strategy != Efficient then GrowStarts(o, s) + GrowDelays(o, s)
      else if d.workQueue != [] && d.idle == [] && Existing(d) < o.ceiling then GrowStarts(o, d) + GrowDelays(o, d)
      else 0
    case _ => 0
  }

  function Grown(o: Options, s: Pool, es: seq<Event>): int
    requires Legal(o, s, es)
    decreases |es|
  {
    if es == [] then 0 else GrownBy(o, s, es[0]) + Grown(o, Step(o, s, es[0]), es[1..])
  }

  /** How often a connection was opened or failed to open. */
  function Answered(es: seq<Event>): int {
    if es == [] then 0
    else (if es[0].ConnectionOpened? || es[0].ConnectionFailed? then 1 else 0) + Answered(es[1..])
  }

  lemma StepCreates(o: Options, s: Pool, e: Event)
    requires Closed(s) && Enabled(s, e)
    ensures Step(o, s, e).pendingCreates + Step(o, s, e).delayed
         == s.pendingCreates + s.delayed + GrownBy(o, s, e) - Answered([e])
  {
    hide Closed, Drain, CanDrain, GrowStarts, GrowDelays, Existing;
    hide QueryFreed, HeartbeatDone, HeartbeatError, RecreateDone, OpenOk, Tick, Finish;
    HandlerKeepsHistory(o, s, e);
    if e.Cranked? { DrainKeepsDelayed(s, e.now); }
    if e.Drained? { DrainKeepsDelayed(s, e.now); }
  }

  /** Along every run, creations that are neither under way nor delayed have been answered, once each. */
  lemma {:induction false} CreationsAreAnswered(o: Options, s: Pool, es: seq<Event>)
    requires Legal(o, s, es)
    ensures Run(o, s, es).pendingCreates + Run(o, s, es).delayed
         == s.pendingCreates + s.delayed + Grown(o, s, es) - Answered(es)
    decreases |es|
  {
    hide Closed, Enabled, Step, GrownBy;
    if es != [] {
      StepCreates(o, s, es[0]);
      CreationsAreAnswered(o, Step(o, s, es[0]), es[1..]);
    }
  }
}

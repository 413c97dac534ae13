/**
 * What every run of the pool keeps.
 *
 * `Closed` and `WorkInv` hold along every run.  `DescInv`, which says where descriptions
 * are, holds along runs in which a transaction is finished only after the query that began
 * it was freed; PoolTransactions.dfy shows that this condition is exact.
 */
module PoolInvariants {
  import opened PoolModel
  import opened Wrappers

  // ---------------------------------------------------------------- descriptions: one place each

  predicate Distinct<T(==)>(xs: seq<T>) {
    forall i, j | 0 <= i < j < |xs| :: xs[i] != xs[j]
  }

  /** Every description is in exactly one of idle, parked, out and closing, and once only. */
  predicate PlacesOk(idle: seq<DescId>, parked: seq<DescId>, out: set<DescId>, closing: set<DescId>, all: set<DescId>) {
    && Distinct(idle) && Distinct(parked)
    && (forall d | d in idle :: d in all && d !in parked && d !in out && d !in closing)
    && (forall d | d in parked :: d in all && d !in out && d !in closing)
    && (forall d | d in out :: d in all && d !in closing)
    && (forall d | d in closing :: d in all)
    && (forall d | d in all :: d in idle || d in parked || d in out || d in closing)
  }

  /** A connection is null exactly in a parked description. */
  predicate ConnectedOk(descs: map<DescId, Description>, parked: seq<DescId>) {
    forall d | d in descs :: descs[d].connected <==> d !in parked
  }

  /** Live queries and checked-out descriptions match one to one, and hold the work they should. */
  predicate HoldsOk(out: map<DescId, Phase>, queries: map<QueryId, LiveQuery>, nextQuery: nat,
                    descs: map<DescId, Description>, works: map<WorkId, Work>) {
    && (forall q | q in queries :: q < nextQuery && queries[q].desc in out
                                   && out[queries[q].desc] == Running(queries[q].work, Some(q)))
    && (forall d | d in out && out[d].Running? :: d in descs && out[d].work in works && works[out[d].work].attached)
    && (forall d | d in out && out[d].Running? && out[d].query.Some? ::
          && out[d].query.value in queries
          && queries[out[d].query.value].desc == d && queries[out[d].query.value].work == out[d].work)
    && (forall d | d in out && out[d].Running? && out[d].query.None? ::
          descs[d].work == Some(out[d].work) && works[out[d].work].kind == Transaction)
    && (forall d | d in descs && descs[d].work.Some? ::
          d in out && out[d].Running? && out[d].work == descs[d].work.value)
    && (forall q | q in queries && queries[q].submitted ::
          queries[q].desc in descs && descs[queries[q].desc].work == Some(queries[q].work))
    && (forall d, e | d in out && e in out && d != e && out[d].Running? && out[e].Running? ::
          out[d].work != out[e].work)
  }

  /** A heartbeat has ended in exactly one of checkin and recreate, or is still beating. */
  predicate BeatsOk(heartbeats: map<HeartbeatId, Heartbeat>, next: nat, out: map<DescId, Phase>) {
    && (forall h | h in heartbeats ::
          && h < next
          && heartbeats[h].checkins + heartbeats[h].recreates == (if heartbeats[h].settled then 1 else 0)
          && (!heartbeats[h].settled ==> heartbeats[h].desc in out && out[heartbeats[h].desc] == Beating(h)))
    && (forall d | d in out && out[d].Beating? ::
          && out[d].heartbeat in heartbeats
          && heartbeats[out[d].heartbeat].desc == d && !heartbeats[out[d].heartbeat].settled)
  }

  predicate CountersOk(busy: int, parking: int, pendingCreates: int, delayed: int, out: set<DescId>,
                       closing: set<DescId>) {
    0 <= busy <= |out| && parking == |closing| && pendingCreates >= 0 && delayed >= 0
  }

  predicate IdsOk(descs: map<DescId, Description>, nextDesc: nat) {
    forall d | d in descs :: d < nextDesc
  }

  predicate DescInv(s: Pool) {
    && PlacesOk(s.idle, s.parked, s.out.Keys, s.closing, s.descs.Keys)
    && ConnectedOk(s.descs, s.parked)
    && HoldsOk(s.out, s.queries, s.nextQuery, s.descs, s.works)
    && BeatsOk(s.heartbeats, s.nextHeartbeat, s.out)
    && CountersOk(s.busy, s.parking, s.pendingCreates, s.delayed, s.out.Keys, s.closing)
    && IdsOk(s.descs, s.nextDesc)
  }

  // ---------------------------------------------------------------- work: conserved and in order

  /** Each submitted item is in exactly one of workQueue, pause, dispatched and released. */
  predicate ConservedOk(workQueue: seq<WorkId>, pause: seq<WorkId>, dispatched: seq<WorkId>, released: seq<WorkId>,
                        all: set<WorkId>) {
    multiset(workQueue) + multiset(pause) + multiset(dispatched) + multiset(released) == multiset(all)
  }

  /** Flags of an item agree with where it is: a cancelled item never gets a connection. */
  predicate FlagsOk(works: map<WorkId, Work>, nextWork: nat, pause: seq<WorkId>, dispatched: seq<WorkId>,
                    released: seq<WorkId>, everPaused: set<WorkId>) {
    && (forall w | w in works :: w < nextWork)
    && (forall w | w in works :: works[w].attached <==> w in dispatched)
    && (forall w | w in dispatched :: w in works && !works[w].pendingCancel)
    && (forall w | w in released :: w in works && works[w].pendingCancel)
    && (forall w | w in works && works[w].paused && !works[w].attached :: w in everPaused)
    && (forall w | w in pause :: w in everPaused)
  }

  /** Items that were never paused while waiting leave the queue in the order of submission. */
  predicate OrderOk(workQueue: seq<WorkId>, dispatched: seq<WorkId>, skip: set<WorkId>) {
    && (forall i, j | 0 <= i < j < |workQueue| && workQueue[i] !in skip && workQueue[j] !in skip ::
          workQueue[i] > workQueue[j])
    && (forall i, j | 0 <= i < j < |dispatched| && dispatched[i] !in skip && dispatched[j] !in skip ::
          dispatched[i] < dispatched[j])
    && (forall w, v | w in dispatched && v in workQueue && w !in skip && v !in skip :: w < v)
  }

  predicate WorkInv(s: Pool) {
    && ConservedOk(s.workQueue, s.pause, s.dispatched, s.released, s.works.Keys)
    && FlagsOk(s.works, s.nextWork, s.pause, s.dispatched, s.released, s.everPaused)
    && OrderOk(s.workQueue, s.dispatched, s.everPaused)
  }

  // ---------------------------------------------------------------- moving a description

  lemma PrependDistinct(d: DescId, xs: seq<DescId>)
    requires Distinct(xs) && d !in xs
    ensures Distinct([d] + xs) && forall x :: x in [d] + xs <==> x == d || x in xs
  {
  }

  lemma PlacesToIdle(idle: seq<DescId>, parked: seq<DescId>, out: set<DescId>, closing: set<DescId>, all: set<DescId>,
      d: DescId)
    requires PlacesOk(idle, parked, out, closing, all) && d in out
    ensures PlacesOk([d] + idle, parked, out - {d}, closing, all)
  {
    PrependDistinct(d, idle);
    hide Distinct;
  }

  lemma PlacesNewIdle(idle: seq<DescId>, parked: seq<DescId>, out: set<DescId>, closing: set<DescId>,
      all: set<DescId>, d: DescId)
    requires PlacesOk(idle, parked, out, closing, all) && d !in all
    ensures PlacesOk([d] + idle, parked, out, closing, all + {d})
  {
    PrependDistinct(d, idle);
    hide Distinct;
  }

  lemma PlacesUnpark(idle: seq<DescId>, parked: seq<DescId>, out: set<DescId>, closing: set<DescId>, all: set<DescId>)
    requires PlacesOk(idle, parked, out, closing, all) && parked != []
    ensures PlacesOk([Last(parked)] + idle, parked[..|parked| - 1], out, closing, all)
    ensures forall x :: x in parked <==> x == Last(parked) || x in parked[..|parked| - 1]
    ensures Last(parked) !in idle && Last(parked) !in parked[..|parked| - 1]
  {
    var d := Last(parked);
    var rest := parked[..|parked| - 1];
    assert parked == rest + [d];
    assert forall k | 0 <= k < |rest| :: rest[k] == parked[k];
    assert forall x :: x in parked <==> x == d || x in rest;
    PrependDistinct(d, idle);
    assert Distinct(rest);
    hide Distinct;
  }

  lemma WithoutElements(xs: seq<DescId>, i: nat)
    requires i < |xs| && Distinct(xs)
    ensures Distinct(Without(xs, i))
    ensures forall x :: x in Without(xs, i) <==> x in xs && x != xs[i]
  {
    assert forall x | x in xs && x != xs[i] :: x in xs[..i] || x in xs[i + 1..];
  }

  lemma PlacesFromIdle(idle: seq<DescId>, parked: seq<DescId>, out: set<DescId>, closing: set<DescId>,
      all: set<DescId>, i: nat)
    requires PlacesOk(idle, parked, out, closing, all) && i < |idle|
    ensures PlacesOk(Without(idle, i), parked, out + {idle[i]}, closing, all)
    ensures PlacesOk(Without(idle, i), parked, out, closing + {idle[i]}, all)
    ensures idle[i] !in out && idle[i] !in closing
  {
    WithoutElements(idle, i);
    hide Distinct, Without;
  }

  lemma PlacesParked(idle: seq<DescId>, parked: seq<DescId>, out: set<DescId>, closing: set<DescId>, all: set<DescId>,
      d: DescId)
    requires PlacesOk(idle, parked, out, closing, all) && d in closing
    ensures PlacesOk(idle, [d] + parked, out, closing - {d}, all)
  {
    PrependDistinct(d, parked);
    hide Distinct;
  }

  // ---------------------------------------------------------------- queries and their descriptions

  /** A description leaves `out`, taking its live query, if any, with it. */
  lemma HoldsRelease(out: map<DescId, Phase>, queries: map<QueryId, LiveQuery>, nextQuery: nat,
                     descs: map<DescId, Description>, works: map<WorkId, Work>, d: DescId, desc: Description,
                     gone: set<QueryId>)
    requires HoldsOk(out, queries, nextQuery, descs, works) && desc.work == None
    requires forall q | q in queries :: queries[q].desc == d <==> q in gone
    ensures HoldsOk(out - {d}, queries - gone, nextQuery, descs[d := desc], works)
  {
  }

  /** A description that holds no work is touched or moved. */
  lemma HoldsTouch(out: map<DescId, Phase>, queries: map<QueryId, LiveQuery>, nextQuery: nat,
                   descs: map<DescId, Description>, works: map<WorkId, Work>, d: DescId, desc: Description)
    requires HoldsOk(out, queries, nextQuery, descs, works)
    requires d in descs ==> desc.work == descs[d].work
    requires d !in descs ==> desc.work == None && d !in out
    ensures HoldsOk(out, queries, nextQuery, descs[d := desc], works)
  {
  }

  /** A description that runs nothing gets a phase that is not Running. */
  lemma HoldsOtherPhase(out: map<DescId, Phase>, queries: map<QueryId, LiveQuery>, nextQuery: nat,
                        descs: map<DescId, Description>, works: map<WorkId, Work>, d: DescId, phase: Phase)
    requires HoldsOk(out, queries, nextQuery, descs, works)
    requires (d in out ==> !out[d].Running?) && !phase.Running?
    ensures HoldsOk(out[d := phase], queries, nextQuery, descs, works)
  {
  }

  /** A new query: for a fresh work item, or for a transaction that has none running. */
  lemma HoldsItem(out: map<DescId, Phase>, queries: map<QueryId, LiveQuery>, nextQuery: nat,
                  descs: map<DescId, Description>, works: map<WorkId, Work>, d: DescId, w: WorkId, desc: Description,
                  work: Work)
    requires HoldsOk(out, queries, nextQuery, descs, works)
    requires d in descs && desc.work == descs[d].work && w in works && work.attached
    requires if d in out then out[d] == Running(w, None) else !works[w].attached
    ensures HoldsOk(out[d := Running(w, Some(nextQuery))], queries[nextQuery := LiveQuery(d, w, false, false)],
                    nextQuery + 1, descs[d := desc], works[w := work])
  {
    assert forall q | q in queries :: queries[q].desc != d;
    assert d !in out ==> descs[d].work.None?;
  }

  lemma HoldsSubmitted(out: map<DescId, Phase>, queries: map<QueryId, LiveQuery>, nextQuery: nat,
                       descs: map<DescId, Description>, works: map<WorkId, Work>, q: QueryId)
    requires HoldsOk(out, queries, nextQuery, descs, works) && q in queries && queries[q].desc in descs
    ensures HoldsOk(out, queries[q := queries[q].(submitted := true)], nextQuery,
                    descs[queries[q].desc := descs[queries[q].desc].(work := Some(queries[q].work))], works)
  {
  }

  lemma HoldsErrored(out: map<DescId, Phase>, queries: map<QueryId, LiveQuery>, nextQuery: nat,
                     descs: map<DescId, Description>, works: map<WorkId, Work>, q: QueryId)
    requires HoldsOk(out, queries, nextQuery, descs, works) && q in queries
    ensures HoldsOk(out, queries[q := queries[q].(errored := true)], nextQuery, descs, works)
  {
  }

  /** The begin query of a transaction is freed, and the description stays out. */
  lemma HoldsTransaction(out: map<DescId, Phase>, queries: map<QueryId, LiveQuery>, nextQuery: nat,
                         descs: map<DescId, Description>, works: map<WorkId, Work>, q: QueryId)
    requires HoldsOk(out, queries, nextQuery, descs, works) && q in queries
    requires var d := queries[q].desc;
             d in descs && descs[d].work == Some(queries[q].work) && works[queries[q].work].kind == Transaction
    ensures HoldsOk(out[queries[q].desc := Running(queries[q].work, None)], queries - {q}, nextQuery, descs, works)
  {
  }

  lemma HoldsWorks(out: map<DescId, Phase>, queries: map<QueryId, LiveQuery>, nextQuery: nat,
                   descs: map<DescId, Description>, works: map<WorkId, Work>, works': map<WorkId, Work>)
    requires HoldsOk(out, queries, nextQuery, descs, works)
    requires forall w | w in works ::
               w in works' && works'[w].kind == works[w].kind && works'[w].attached == works[w].attached
    ensures HoldsOk(out, queries, nextQuery, descs, works')
  {
  }

  // ---------------------------------------------------------------- heartbeats

  lemma BeatsOther(heartbeats: map<HeartbeatId, Heartbeat>, next: nat, out: map<DescId, Phase>,
                   out': map<DescId, Phase>)
    requires BeatsOk(heartbeats, next, out)
    requires forall d :: (d in out && out[d].Beating?) <==> (d in out' && out'[d].Beating?)
    requires forall d | d in out && out[d].Beating? :: out'[d] == out[d]
    ensures BeatsOk(heartbeats, next, out')
  {
  }

  lemma BeatsStart(heartbeats: map<HeartbeatId, Heartbeat>, next: nat, out: map<DescId, Phase>, d: DescId)
    requires BeatsOk(heartbeats, next, out) && d !in out
    ensures BeatsOk(heartbeats[next := Heartbeat(d, false, 0, 0)], next + 1, out[d := Beating(next)])
  {
  }

  lemma BeatsSettle(heartbeats: map<HeartbeatId, Heartbeat>, next: nat, out: map<DescId, Phase>, h: HeartbeatId,
      hb: Heartbeat)
    requires BeatsOk(heartbeats, next, out) && h in heartbeats && !heartbeats[h].settled
    requires hb.desc == heartbeats[h].desc && hb.settled && hb.checkins + hb.recreates == 1
    ensures BeatsOk(heartbeats[h := hb], next, out - {hb.desc})
    ensures BeatsOk(heartbeats[h := hb], next, out[hb.desc := Recreating])
  {
  }

  // ---------------------------------------------------------------- the other components

  lemma ConnectedTouch(descs: map<DescId, Description>, parked: seq<DescId>, d: DescId, desc: Description)
    requires ConnectedOk(descs, parked) && (desc.connected <==> d !in parked)
    ensures ConnectedOk(descs[d := desc], parked)
  {
  }

  lemma IdsTouch(descs: map<DescId, Description>, next: nat, d: DescId, desc: Description)
    requires IdsOk(descs, next) && d in descs
    ensures IdsOk(descs[d := desc], next) && descs[d := desc].Keys == descs.Keys
  {
  }

  /** The counters after a checkin of a description that was out. */
  lemma CountersReturn(busy: int, parking: int, pendingCreates: int, delayed: int, out: map<DescId, Phase>,
                       closing: set<DescId>, d: DescId)
    requires CountersOk(busy, parking, pendingCreates, delayed, out.Keys, closing) && d in out
    ensures (out - {d}).Keys == out.Keys - {d}
    ensures CountersOk(if busy > 0 then busy - 1 else busy, parking, pendingCreates, delayed, out.Keys - {d}, closing)
  {
    assert |out.Keys - {d}| == |out.Keys| - 1;
  }

  /** The counters after a checkout. */
  lemma CountersTake(busy: int, parking: int, pendingCreates: int, delayed: int, out: map<DescId, Phase>,
                     closing: set<DescId>, d: DescId, phase: Phase)
    requires CountersOk(busy, parking, pendingCreates, delayed, out.Keys, closing) && d !in out
    ensures out[d := phase].Keys == out.Keys + {d}
    ensures CountersOk(busy + 1, parking, pendingCreates, delayed, out.Keys + {d}, closing)
  {
    assert |out.Keys + {d}| == |out.Keys| + 1;
  }

  lemma SameKeys(out: map<DescId, Phase>, d: DescId, phase: Phase)
    requires d in out
    ensures out[d := phase].Keys == out.Keys
  {
  }

  // Facts about one query or description, drawn from the components.

  lemma OutIsNowhereElse(s: Pool, d: DescId)
    requires PlacesOk(s.idle, s.parked, s.out.Keys, s.closing, s.descs.Keys) && d in s.out
    ensures d in s.descs && d !in s.idle && d !in s.parked && d !in s.closing
  {
  }

  lemma QueryIsOut(s: Pool, q: QueryId)
    requires HoldsOk(s.out, s.queries, s.nextQuery, s.descs, s.works) && q in s.queries
    ensures s.queries[q].desc in s.out && s.out[s.queries[q].desc] == Running(s.queries[q].work, Some(q))
    ensures s.queries[q].work in s.works && s.works[s.queries[q].work].attached
    ensures s.queries[q].desc in s.descs
    ensures s.queries[q].submitted || s.descs[s.queries[q].desc].work.Some? ==>
              s.descs[s.queries[q].desc].work == Some(s.queries[q].work)
    ensures forall p | p in s.queries && s.queries[p].desc == s.queries[q].desc :: p == q
  {
  }

  lemma NotRunningIsFree(s: Pool, d: DescId)
    requires HoldsOk(s.out, s.queries, s.nextQuery, s.descs, s.works)
    requires d in s.out ==> !s.out[d].Running?
    ensures d in s.descs ==> s.descs[d].work == None
    ensures forall q | q in s.queries :: s.queries[q].desc != d
  {
  }

  // ---------------------------------------------------------------- DescInv, step by step

  /** A description that is out is checked in. */
  lemma Returned(s: Pool, s': Pool, d: DescId, desc: Description, gone: set<QueryId>)
    requires DescInv(s) && d in s.out && desc.connected && desc.work == None
    requires forall q | q in s.queries :: s.queries[q].desc == d <==> q in gone
    requires BeatsOk(s'.heartbeats, s.nextHeartbeat, s.out - {d})
    requires s' == s.(idle := [d] + s.idle, busy := if s.busy > 0 then s.busy - 1 else s.busy,
                      descs := s.descs[d := desc], out := s.out - {d}, queries := s.queries - gone,
                      heartbeats := s'.heartbeats)
    ensures DescInv(s')
  {
    hide HoldsOk, BeatsOk, PlacesOk, CountersOk, ConnectedOk, IdsOk;
    OutIsNowhereElse(s, d);
    PlacesToIdle(s.idle, s.parked, s.out.Keys, s.closing, s.descs.Keys, d);
    CountersReturn(s.busy, s.parking, s.pendingCreates, s.delayed, s.out, s.closing, d);
    HoldsRelease(s.out, s.queries, s.nextQuery, s.descs, s.works, d, desc, gone);
    ConnectedTouch(s.descs, s.parked, d, desc);
    IdsTouch(s.descs, s.nextDesc, d, desc);
  }

  lemma FreedKeeps(s: Pool, q: QueryId)
    requires DescInv(s) && q in s.queries && s.queries[q].desc in s.descs
    ensures DescInv(QueryFreed(s, q))
  {
    hide HoldsOk, BeatsOk, PlacesOk, CountersOk, ConnectedOk, IdsOk;
    var live := s.queries[q];
    var d := live.desc;
    QueryIsOut(s, q);
    OutIsNowhereElse(s, d);
    if !live.errored && InTransaction(s, d) {
      HoldsTransaction(s.out, s.queries, s.nextQuery, s.descs, s.works, q);
      BeatsOther(s.heartbeats, s.nextHeartbeat, s.out, s.out[d := Running(live.work, None)]);
      SameKeys(s.out, d, Running(live.work, None));
    } else {
      BeatsOther(s.heartbeats, s.nextHeartbeat, s.out, s.out - {d});
      ConnectedAt(s, d);
      hide DescInv;
      Returned(s, QueryFreed(s, q), d, s.descs[d].(work := None), {q});
    }
  }

  lemma ConnectedAt(s: Pool, d: DescId)
    requires ConnectedOk(s.descs, s.parked) && d in s.descs
    ensures s.descs[d].connected <==> d !in s.parked
  {
  }

  lemma HeartbeatDoneKeeps(s: Pool, h: HeartbeatId, now: int)
    requires DescInv(s) && h in s.heartbeats && s.heartbeats[h].desc in s.descs
    ensures DescInv(HeartbeatDone(s, h, now))
  {
    hide HoldsOk, BeatsOk, PlacesOk, CountersOk, ConnectedOk, IdsOk;
    var hb := s.heartbeats[h];
    if !hb.settled {
      var d := hb.desc;
      BeatIsOut(s, h);
      OutIsNowhereElse(s, d);
      NotRunningIsFree(s, d);
      ConnectedAt(s, d);
      BeatsSettle(s.heartbeats, s.nextHeartbeat, s.out, h, hb.(settled := true, checkins := hb.checkins + 1));
      var s' := HeartbeatDone(s, h, now);
      var desc := s.descs[d].(keepAlive := s.descs[d].keepAlive + 1, lastActive := now);
      assert s'.descs == s.descs[d := desc.(work := None)];
      assert s.queries - {} == s.queries;
      hide DescInv;
      Returned(s, s', d, desc.(work := None), {});
    }
  }

  lemma BeatIsOut(s: Pool, h: HeartbeatId)
    requires BeatsOk(s.heartbeats, s.nextHeartbeat, s.out) && h in s.heartbeats && !s.heartbeats[h].settled
    ensures s.heartbeats[h].desc in s.out && s.out[s.heartbeats[h].desc] == Beating(h)
    ensures s.heartbeats[h].checkins == s.heartbeats[h].recreates == 0
  {
  }

  lemma HeartbeatErrorKeeps(s: Pool, h: HeartbeatId)
    requires DescInv(s) && h in s.heartbeats
    ensures DescInv(HeartbeatError(s, h))
  {
    hide HoldsOk, BeatsOk, PlacesOk, CountersOk, ConnectedOk, IdsOk;
    var hb := s.heartbeats[h];
    if !hb.settled {
      BeatIsOut(s, h);
      SameKeys(s.out, hb.desc, Recreating);
      BeatsSettle(s.heartbeats, s.nextHeartbeat, s.out, h, hb.(settled := true, recreates := hb.recreates + 1));
      HoldsOtherPhase(s.out, s.queries, s.nextQuery, s.descs, s.works, hb.desc, Recreating);
    }
  }

  lemma RecreateDoneKeeps(s: Pool, d: DescId, now: int)
    requires DescInv(s) && d in s.out && s.out[d] == Recreating && d in s.descs
    ensures DescInv(RecreateDone(s, d, now))
  {
    hide HoldsOk, BeatsOk, PlacesOk, CountersOk, ConnectedOk, IdsOk;
    OutIsNowhereElse(s, d);
    NotRunningIsFree(s, d);
    BeatsOther(s.heartbeats, s.nextHeartbeat, s.out, s.out - {d});
    var desc := s.descs[d].(connected := true, lastActive := now);
    var s' := RecreateDone(s, d, now);
    assert s'.descs == s.descs[d := desc.(work := None)];
    assert s.queries - {} == s.queries;
    hide DescInv;
    Returned(s, s', d, desc.(work := None), {});
  }

  /** A new connection goes to a description that was parked or has just been made. */
  lemma Arrived(s: Pool, s': Pool, d: DescId, desc: Description)
    requires DescInv(s) && s.pendingCreates > 0 && desc.connected && desc.work == None
    requires PlacesOk([d] + s.idle, s'.parked, s.out.Keys, s.closing, s.descs[d := desc].Keys)
    requires ConnectedOk(s.descs[d := desc], s'.parked) && IdsOk(s.descs[d := desc], s'.nextDesc)
    requires d !in s.out && (d in s.descs ==> s.descs[d].work == None)
    requires s' == s.(idle := [d] + s.idle, busy := if s.busy > 0 then s.busy - 1 else s.busy,
                      pendingCreates := s.pendingCreates - 1, descs := s.descs[d := desc],
                      parked := s'.parked, nextDesc := s'.nextDesc, raced := s'.raced)
    ensures DescInv(s')
  {
    hide HoldsOk, BeatsOk, PlacesOk, ConnectedOk, IdsOk;
    HoldsTouch(s.out, s.queries, s.nextQuery, s.descs, s.works, d, desc);
  }

  lemma DescriptionForIsNowhere(s: Pool, now: int)
    requires DescInv(s) && s.pendingCreates > 0
    ensures var s1, d := Connected(s, now), DescriptionFor(s);
            && d !in s.idle && d !in s1.parked && d !in s.out && (d in s.descs ==> s.descs[d].work == None)
            && PlacesOk([d] + s.idle, s1.parked, s.out.Keys, s.closing, s1.descs.Keys)
            && ConnectedOk(s1.descs, s1.parked) && IdsOk(s1.descs, s1.nextDesc)
  {
    hide HoldsOk, BeatsOk, PlacesOk, CountersOk, ConnectedOk, IdsOk;
    var renewed := Description(true, None, 0, now);
    var d := DescriptionFor(s);
    if s.parked != [] {
      PlacesUnpark(s.idle, s.parked, s.out.Keys, s.closing, s.descs.Keys);
      ParkedIsFree(s, d);
      ConnectedUnpark(s.descs, s.parked, renewed);
      IdsTouch(s.descs, s.nextDesc, d, renewed);
    } else {
      NewIsNowhere(s);
      PlacesNewIdle(s.idle, s.parked, s.out.Keys, s.closing, s.descs.Keys, d);
      ConnectedTouch(s.descs, s.parked, d, renewed);
      IdsNew(s.descs, s.nextDesc, renewed);
    }
  }

  lemma OpenOkKeeps(s: Pool, now: int)
    requires DescInv(s) && s.pendingCreates > 0
    ensures DescInv(OpenOk(s, now))
  {
    hide DescInv, HoldsOk, BeatsOk, PlacesOk, CountersOk, ConnectedOk, IdsOk;
    var renewed := Description(true, None, 0, now);
    var d := DescriptionFor(s);
    DescriptionForIsNowhere(s, now);
    assert s.descs[d := renewed][d := renewed.(work := None)] == s.descs[d := renewed];
    assert s.out - {d} == s.out;
    Arrived(s, OpenOk(s, now), d, renewed);
  }

  lemma ParkedIsFree(s: Pool, d: DescId)
    requires PlacesOk(s.idle, s.parked, s.out.Keys, s.closing, s.descs.Keys) && d in s.parked
    requires HoldsOk(s.out, s.queries, s.nextQuery, s.descs, s.works)
    ensures d !in s.out && d in s.descs && s.descs[d].work == None
  {
  }

  lemma NewIsNowhere(s: Pool)
    requires PlacesOk(s.idle, s.parked, s.out.Keys, s.closing, s.descs.Keys) && IdsOk(s.descs, s.nextDesc)
    ensures s.nextDesc !in s.descs && s.nextDesc !in s.idle && s.nextDesc !in s.parked && s.nextDesc !in s.out
  {
  }

  lemma ConnectedUnpark(descs: map<DescId, Description>, parked: seq<DescId>, desc: Description)
    requires ConnectedOk(descs, parked) && parked != [] && desc.connected && Last(parked) !in parked[..|parked| - 1]
    requires forall x :: x in parked <==> x == Last(parked) || x in parked[..|parked| - 1]
    ensures ConnectedOk(descs[Last(parked) := desc], parked[..|parked| - 1])
  {
  }

  lemma IdsNew(descs: map<DescId, Description>, next: nat, desc: Description)
    requires IdsOk(descs, next)
    ensures IdsOk(descs[next := desc], next + 1) && descs[next := desc].Keys == descs.Keys + {next}
  {
  }

  lemma ParkKeeps(o: Options, s: Pool)
    requires DescInv(s)
    ensures DescInv(Park(o, s))
  {
    hide HoldsOk, BeatsOk, PlacesOk, ConnectedOk, IdsOk;
    var i := FirstIndex(s.idle, Inactive(o, s.descs));
    if i < |s.idle| {
      PlacesFromIdle(s.idle, s.parked, s.out.Keys, s.closing, s.descs.Keys, i);
      assert |s.closing + {s.idle[i]}| == |s.closing| + 1;
    }
  }

  lemma ParkDoneKeeps(s: Pool, d: DescId)
    requires DescInv(s) && d in s.closing && d in s.descs
    ensures DescInv(ParkDone(s, d))
  {
    hide HoldsOk, BeatsOk, PlacesOk, ConnectedOk, IdsOk;
    var desc := s.descs[d].(connected := false, keepAlive := 0);
    PlacesParked(s.idle, s.parked, s.out.Keys, s.closing, s.descs.Keys, d);
    HoldsTouch(s.out, s.queries, s.nextQuery, s.descs, s.works, d, desc);
    ConnectedPark(s.descs, s.parked, d, desc);
    IdsTouch(s.descs, s.nextDesc, d, desc);
    assert |s.closing - {d}| == |s.closing| - 1;
  }

  lemma ConnectedPark(descs: map<DescId, Description>, parked: seq<DescId>, d: DescId, desc: Description)
    requires ConnectedOk(descs, parked) && !desc.connected
    ensures ConnectedOk(descs[d := desc], [d] + parked)
  {
  }

  lemma TakenPlaces(s: Pool, i: nat, phase: Phase)
    requires PlacesOk(s.idle, s.parked, s.out.Keys, s.closing, s.descs.Keys) && i < |s.idle|
    ensures PlacesOk(Without(s.idle, i), s.parked, s.out[s.idle[i] := phase].Keys, s.closing, s.descs.Keys)
    ensures s.idle[i] !in s.out
  {
    hide PlacesOk, Without;
    PlacesFromIdle(s.idle, s.parked, s.out.Keys, s.closing, s.descs.Keys, i);
    assert s.out[s.idle[i] := phase].Keys == s.out.Keys + {s.idle[i]};
  }

  /** The i-th idle description is checked out. */
  lemma Taken(s: Pool, i: nat, phase: Phase)
    requires PlacesOk(s.idle, s.parked, s.out.Keys, s.closing, s.descs.Keys) && i < |s.idle|
    requires CountersOk(s.busy, s.parking, s.pendingCreates, s.delayed, s.out.Keys, s.closing)
    ensures var out := s.out[s.idle[i] := phase];
            && PlacesOk(Without(s.idle, i), s.parked, out.Keys, s.closing, s.descs.Keys)
            && CountersOk(s.busy + 1, s.parking, s.pendingCreates, s.delayed, out.Keys, s.closing)
  {
    hide PlacesOk, CountersOk, Without;
    TakenPlaces(s, i, phase);
    CountersTake(s.busy, s.parking, s.pendingCreates, s.delayed, s.out, s.closing, s.idle[i], phase);
  }

  lemma IdleIsFree(s: Pool, i: nat)
    requires PlacesOk(s.idle, s.parked, s.out.Keys, s.closing, s.descs.Keys) && i < |s.idle|
    ensures s.idle[i] !in s.out && s.idle[i] in s.descs && s.idle[i] !in s.parked
  {
  }

  lemma BeatKeeps(o: Options, s: Pool, now: int)
    requires DescInv(s)
    ensures DescInv(Beat(o, s, now))
  {
    hide HoldsOk, BeatsOk, PlacesOk, CountersOk, ConnectedOk, IdsOk, Without, Due;
    var i := FirstIndex(s.idle, Due(o, s.descs, now));
    if i < |s.idle| {
      IdleIsFree(s, i);
      HoldsOtherPhase(s.out, s.queries, s.nextQuery, s.descs, s.works, s.idle[i], Beating(s.nextHeartbeat));
      BeatsStart(s.heartbeats, s.nextHeartbeat, s.out, s.idle[i]);
      Taken(s, i, Beating(s.nextHeartbeat));
    }
  }

  lemma SubmittedKeeps(s: Pool, q: QueryId)
    requires DescInv(s) && q in s.queries && s.queries[q].desc in s.descs
    ensures DescInv(QuerySubmitted(s, q))
  {
    hide HoldsOk, BeatsOk, PlacesOk, CountersOk, ConnectedOk, IdsOk;
    var live := s.queries[q];
    var desc := s.descs[live.desc].(work := Some(live.work));
    HoldsSubmitted(s.out, s.queries, s.nextQuery, s.descs, s.works, q);
    ConnectedAt(s, live.desc);
    ConnectedTouch(s.descs, s.parked, live.desc, desc);
    IdsTouch(s.descs, s.nextDesc, live.desc, desc);
  }

  lemma ErroredKeeps(s: Pool, q: QueryId)
    requires DescInv(s) && q in s.queries
    ensures DescInv(QueryErrored(s, q))
  {
    hide HoldsOk, BeatsOk, PlacesOk, CountersOk, ConnectedOk, IdsOk;
    HoldsErrored(s.out, s.queries, s.nextQuery, s.descs, s.works, q);
  }

  /** finishTransaction on a description whose begin query has been freed. */
  lemma FinishKeeps(s: Pool, d: DescId, now: int)
    requires DescInv(s) && d in s.descs
    requires CanFinish(s, d) ==> d in s.out && s.out[d].Running? && s.out[d].query == None
    ensures DescInv(Finish(s, d, now))
  {
    hide HoldsOk, BeatsOk, PlacesOk, CountersOk, ConnectedOk, IdsOk;
    if CanFinish(s, d) {
      var w := s.descs[d].work.value;
      WaitingTransaction(s, d);
      var desc := s.descs[d].(lastActive := now, keepAlive := 0);
      var work := s.works[w].(kind := Committing, attached := true);
      var s' := Finish(s, d, now);
      assert s'.works == s.works[w := work];
      HoldsItem(s.out, s.queries, s.nextQuery, s.descs, s.works, d, w, desc, work);
      BeatsOther(s.heartbeats, s.nextHeartbeat, s.out, s.out[d := Running(w, Some(s.nextQuery))]);
      SameKeys(s.out, d, Running(w, Some(s.nextQuery)));
      ConnectedAt(s, d);
      ConnectedTouch(s.descs, s.parked, d, desc);
      IdsTouch(s.descs, s.nextDesc, d, desc);
    }
  }

  lemma WaitingTransaction(s: Pool, d: DescId)
    requires HoldsOk(s.out, s.queries, s.nextQuery, s.descs, s.works)
    requires d in s.out && s.out[d].Running? && s.out[d].query == None && d in s.descs && s.descs[d].work.Some?
    ensures s.out[d] == Running(s.descs[d].work.value, None)
  {
  }

  /** One turn of the drain loop; the work it takes is not yet running anywhere. */
  lemma DrainStepKeeps(s: Pool, now: int)
    requires DescInv(s) && CanDrain(s) && s.workQueue != [] && s.idle != []
    requires !s.works[Last(s.workQueue)].attached
    ensures DescInv(DrainStep(s, now))
  {
    hide HoldsOk, BeatsOk, PlacesOk, CountersOk, ConnectedOk, IdsOk;
    var w := Last(s.workQueue);
    if !s.works[w].pendingCancel && !s.works[w].paused {
      var i := |s.idle| - 1;
      var d := s.idle[i];
      IdleIsFree(s, i);
      var desc := s.descs[d].(lastActive := now, keepAlive := 0);
      var phase := Running(w, Some(s.nextQuery));
      assert s.out[d := Running(w, None)][d := phase] == s.out[d := phase];
      assert s.idle[..|s.idle| - 1] == Without(s.idle, i);
      HoldsItem(s.out, s.queries, s.nextQuery, s.descs, s.works, d, w, desc, s.works[w].(attached := true));
      BeatsOther(s.heartbeats, s.nextHeartbeat, s.out, s.out[d := phase]);
      ConnectedAt(s, d);
      ConnectedTouch(s.descs, s.parked, d, desc);
      IdsTouch(s.descs, s.nextDesc, d, desc);
      Taken(s, i, phase);
      hide Without;
    }
  }

  lemma GrowKeeps(o: Options, s: Pool)
    requires DescInv(s)
    ensures DescInv(Grow(o, s))
  {
    hide DescInv, GrowStarts, GrowDelays;
    CountersAreNatural(s);
    PendingKeeps(s, s.pendingCreates + GrowStarts(o, s), s.delayed + GrowDelays(o, s));
  }

  lemma PendingKeeps(s: Pool, pendingCreates: int, delayed: int)
    requires DescInv(s) && pendingCreates >= 0 && delayed >= 0
    ensures DescInv(s.(pendingCreates := pendingCreates, delayed := delayed))
  {
    hide HoldsOk, BeatsOk, PlacesOk, ConnectedOk, IdsOk;
  }

  lemma CountersAreNatural(s: Pool)
    requires DescInv(s)
    ensures s.pendingCreates >= 0 && s.delayed >= 0
  {
  }

  // ---------------------------------------------------------------- WorkInv, step by step

  lemma ConservedOnce(s: Pool, w: WorkId)
    requires ConservedOk(s.workQueue, s.pause, s.dispatched, s.released, s.works.Keys)
    ensures multiset(s.workQueue)[w] + multiset(s.pause)[w] + multiset(s.dispatched)[w] + multiset(s.released)[w]
         == (if w in s.works then 1 else 0)
    ensures w in s.workQueue ==> w in s.works && w !in s.dispatched && w !in s.pause && w !in s.released
    ensures w in s.pause ==> w in s.works
  {
    var all := multiset(s.workQueue) + multiset(s.pause) + multiset(s.dispatched) + multiset(s.released);
    assert all[w] == multiset(s.works.Keys)[w];
  }

  lemma SubmitKeepsWork(s: Pool, kind: WorkKind)
    requires WorkInv(s)
    ensures WorkInv(Submit(s, kind))
  {
    var n := s.nextWork;
    var s' := Submit(s, kind);
    assert n !in s.works;
    assert s'.works.Keys == s.works.Keys + {n};
    assert multiset(s.works.Keys + {n}) == multiset(s.works.Keys) + multiset{n};
    forall w | w in s.dispatched || w in s.workQueue ensures w < n {
      ConservedOnce(s, w);
    }
    assert forall i | 1 <= i < |s.workQueue| + 1 :: ([n] + s.workQueue)[i] == s.workQueue[i - 1];
  }

  /** A flag of one item changes, in a way its place allows. */
  lemma FlagKeepsWork(s: Pool, w: WorkId, work: Work, everPaused: set<WorkId>)
    requires WorkInv(s) && w in s.works && work.attached == s.works[w].attached
    requires s.works[w].attached ==> work.pendingCancel == s.works[w].pendingCancel
    requires s.works[w].pendingCancel ==> work.pendingCancel
    requires s.everPaused <= everPaused && (work.paused && !work.attached ==> w in everPaused)
    ensures WorkInv(s.(works := s.works[w := work], everPaused := everPaused))
  {
    assert s.works[w := work].Keys == s.works.Keys;
  }

  lemma LastSplit(xs: seq<WorkId>)
    requires xs != []
    ensures xs == xs[..|xs| - 1] + [Last(xs)]
    ensures multiset(xs) == multiset(xs[..|xs| - 1]) + multiset{Last(xs)}
    ensures forall x | x in xs[..|xs| - 1] :: x in xs
  {
    assert xs == xs[..|xs| - 1] + [Last(xs)];
  }

  lemma OrderDispatch(workQueue: seq<WorkId>, dispatched: seq<WorkId>, skip: set<WorkId>)
    requires OrderOk(workQueue, dispatched, skip) && workQueue != []
    ensures OrderOk(workQueue[..|workQueue| - 1], dispatched, skip)
    ensures OrderOk(workQueue[..|workQueue| - 1], dispatched + [Last(workQueue)], skip)
  {
    LastSplit(workQueue);
  }

  /** The last queued item moves to `released`, to the front of `pause`, or to `dispatched`. */
  lemma MoveKeepsConserved(q: seq<WorkId>, pause: seq<WorkId>, dispatched: seq<WorkId>, released: seq<WorkId>,
      all: set<WorkId>)
    requires ConservedOk(q, pause, dispatched, released, all) && q != []
    ensures ConservedOk(q[..|q| - 1], pause, dispatched, released + [Last(q)], all)
    ensures ConservedOk(q[..|q| - 1], [Last(q)] + pause, dispatched, released, all)
    ensures ConservedOk(q[..|q| - 1], pause, dispatched + [Last(q)], released, all)
  {
    LastSplit(q);
    var w := Last(q);
    assert multiset(released + [w]) == multiset(released) + multiset{w};
    assert multiset([w] + pause) == multiset(pause) + multiset{w};
    assert multiset(dispatched + [w]) == multiset(dispatched) + multiset{w};
  }

  lemma MoveKeepsFlags(works: map<WorkId, Work>, next: nat, pause: seq<WorkId>, dispatched: seq<WorkId>,
                       released: seq<WorkId>, ever: set<WorkId>, w: WorkId)
    requires FlagsOk(works, next, pause, dispatched, released, ever) && w in works && !works[w].attached
    ensures works[w].pendingCancel ==> FlagsOk(works, next, pause, dispatched, released + [w], ever)
    ensures works[w].paused ==> FlagsOk(works, next, [w] + pause, dispatched, released, ever)
    ensures !works[w].pendingCancel ==>
              FlagsOk(works[w := works[w].(attached := true)], next, pause, dispatched + [w], released, ever)
  {
  }

  lemma DrainStepKeepsWork(s: Pool, now: int)
    requires WorkInv(s) && CanDrain(s) && s.workQueue != [] && s.idle != []
    ensures WorkInv(DrainStep(s, now))
    ensures !s.works[Last(s.workQueue)].attached
  {
    var w := Last(s.workQueue);
    LastSplit(s.workQueue);
    ConservedOnce(s, w);
    hide OrderOk, ConservedOk, FlagsOk;
    NotDispatchedIsFree(s, w);
    MoveKeepsConserved(s.workQueue, s.pause, s.dispatched, s.released, s.works.Keys);
    MoveKeepsFlags(s.works, s.nextWork, s.pause, s.dispatched, s.released, s.everPaused, w);
    OrderDispatch(s.workQueue, s.dispatched, s.everPaused);
    assert s.works[w := s.works[w].(attached := true)].Keys == s.works.Keys;
  }

  lemma NotDispatchedIsFree(s: Pool, w: WorkId)
    requires FlagsOk(s.works, s.nextWork, s.pause, s.dispatched, s.released, s.everPaused)
    requires w in s.works && w !in s.dispatched
    ensures !s.works[w].attached
  {
  }

  // promotePause

  lemma {:induction false} SelectSplits(ws: seq<WorkId>, works: map<WorkId, Work>)
    requires forall w | w in ws :: w in works
    ensures multiset(Select(ws, works, false)) + multiset(Select(ws, works, true)) == multiset(ws)
  {
    if ws != [] {
      assert ws == [ws[0]] + ws[1..];
      SelectSplits(ws[1..], works);
    }
  }

  lemma OrderPromote(workQueue: seq<WorkId>, promoted: seq<WorkId>, dispatched: seq<WorkId>, skip: set<WorkId>)
    requires OrderOk(workQueue, dispatched, skip) && forall w | w in promoted :: w in skip
    ensures OrderOk(workQueue + promoted, dispatched, skip)
  {
  }

  lemma PromoteKeepsFlags(works: map<WorkId, Work>, next: nat, pause: seq<WorkId>, kept: seq<WorkId>,
                          dispatched: seq<WorkId>, released: seq<WorkId>, ever: set<WorkId>)
    requires FlagsOk(works, next, pause, dispatched, released, ever) && forall w | w in kept :: w in pause
    ensures FlagsOk(works, next, kept, dispatched, released, ever)
  {
  }

  lemma PausedWasPaused(s: Pool, w: WorkId)
    requires FlagsOk(s.works, s.nextWork, s.pause, s.dispatched, s.released, s.everPaused) && w in s.pause
    ensures w in s.everPaused
  {
  }

  lemma PromoteKeepsWork(s: Pool)
    requires WorkInv(s) && ItemsKnown(s.workQueue, s.pause, s.works.Keys)
    ensures WorkInv(PromotePause(s))
  {
    hide OrderOk, FlagsOk, Select;
    var promoted, kept := Select(s.pause, s.works, false), Select(s.pause, s.works, true);
    SelectSplits(s.pause, s.works);
    SelectIsSubset(s.pause, s.works, false);
    SelectIsSubset(s.pause, s.works, true);
    forall w | w in promoted ensures w in s.everPaused {
      PausedWasPaused(s, w);
    }
    OrderPromote(s.workQueue, promoted, s.dispatched, s.everPaused);
    PromoteKeepsFlags(s.works, s.nextWork, s.pause, kept, s.dispatched, s.released, s.everPaused);
    assert multiset(s.workQueue + promoted) == multiset(s.workQueue) + multiset(promoted);
  }
}

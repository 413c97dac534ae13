/**
 * The connection pool of lib/pool.js as a state machine.
 *
 * JavaScript runs every handler to completion, so each handler is one atomic step on the
 * closure variables of `Pool`.  The functions below say what each one does to them; the
 * class in ConnectionPool.dfy carries out the same steps in place and is proved against these
 * functions, and the lemmas about runs are about them.
 *
 * Descriptions, work items, queries and heartbeats are records reached through maps from
 * their identity.  The last group of fields is bookkeeping the program does not have: it
 * records where a description is while it is in none of the program's arrays, and what has
 * happened to work items so far.
 */
module PoolModel {
  import opened Wrappers
  import opened Arithmetic

  type DescId = nat
  type WorkId = nat
  type QueryId = nat
  type HeartbeatId = nat

  datatype Strategy = Efficient | Gradual | Exponential | Aggressive

  /** PoolOptions, after the clamping its constructor does. */
  datatype Options = Options(
    floor: nat, ceiling: nat, heartbeatSecs: nat, inactivityTimeoutSecs: nat,
    strategy: Strategy, scalingIncrement: nat, scalingFactor: real, scalingDelay: nat)

  predicate ValidOptions(o: Options) {
    && o.ceiling >= 1 && o.floor <= o.ceiling
    && 1 <= o.heartbeatSecs <= o.inactivityTimeoutSecs && o.inactivityTimeoutSecs >= 3
    && o.scalingIncrement >= 1 && 1.1 <= o.scalingFactor <= 2.0
  }

  datatype WorkKind = Statement | Raw | Proc | Transaction | Committing

  /** A PoolWorkItem with the flags of its PoolEventCaster; `attached` once it has a query object. */
  datatype Work = Work(kind: WorkKind, paused: bool, pendingCancel: bool, attached: bool)

  /** A PoolDescription: `connected` when its connection is not null. */
  datatype Description = Description(connected: bool, work: Option<WorkId>, keepAlive: nat, lastActive: int)

  /** The closure variables of one call to runTheQuery, until the query's 'free' event. */
  datatype LiveQuery = LiveQuery(desc: DescId, work: WorkId, submitted: bool, errored: bool)

  /** The closure variables of one heartbeat, kept for ever: its events may come late or twice. */
  datatype Heartbeat = Heartbeat(desc: DescId, settled: bool, checkins: nat, recreates: nat)

  /** Where a checked-out description is. */
  datatype Phase =
    | Running(work: WorkId, query: Option<QueryId>)
    | Beating(heartbeat: HeartbeatId)
    | Recreating

  datatype Pool = Pool(
    idle: seq<DescId>,
    parked: seq<DescId>,
    workQueue: seq<WorkId>,
    pause: seq<WorkId>,
    busy: int,
    parking: int,
    pendingCreates: int,
    isOpen: bool,
    nextDesc: nat,
    nextWork: nat,
    descs: map<DescId, Description>,
    works: map<WorkId, Work>,
    queries: map<QueryId, LiveQuery>,
    nextQuery: nat,
    heartbeats: map<HeartbeatId, Heartbeat>,
    nextHeartbeat: nat,
    delayed: int,             // creations of a grow still waiting for their timer
    // bookkeeping
    out: map<DescId, Phase>,  // checked out or being recreated
    closing: set<DescId>,     // connection being closed before parking
    dispatched: seq<WorkId>,  // work handed to a connection, in that order
    released: seq<WorkId>,    // work dropped because it was cancelled while waiting
    everPaused: set<WorkId>,  // work paused at some time while waiting
    raced: nat)               // opens that completed while the busy counter was positive

  const INITIAL := Pool([], [], [], [], 0, 0, 0, false, 0, 0, map[], map[], map[], 0, map[], 0, 0,
                        map[], {}, [], [], {}, 0)

  // ---------------------------------------------------------------- checkin and checkout

  function Checkin(s: Pool, d: DescId): (r: Pool)
    requires d in s.descs
    ensures r.raced == s.raced && r.works == s.works
    ensures r.delayed == s.delayed && r.pendingCreates == s.pendingCreates
  {
    if d in s.idle || d in s.parked then s
    else s.(idle := [d] + s.idle,
            busy := if s.busy > 0 then s.busy - 1 else s.busy,
            descs := s.descs[d := s.descs[d].(work := None)],
            out := s.out - {d})
  }

  /** checkout pops the last idle description. */
  function Checkout(s: Pool, phase: Phase): Pool
    requires s.idle != []
  {
    s.(idle := s.idle[..|s.idle| - 1], busy := s.busy + 1, out := s.out[Last(s.idle) := phase])
  }

  function Last<T>(xs: seq<T>): T
    requires xs != []
  {
    xs[|xs| - 1]
  }

  /** item and runTheQuery: the description begins a query for the work item. */
  function Item(s: Pool, d: DescId, w: WorkId, now: int): Pool
    requires d in s.descs && w in s.works
  {
    s.(descs := s.descs[d := s.descs[d].(lastActive := now, keepAlive := 0)],
       works := s.works[w := s.works[w].(attached := true)],
       queries := s.queries[s.nextQuery := LiveQuery(d, w, false, false)],
       nextQuery := s.nextQuery + 1,
       out := s.out[d := Running(w, Some(s.nextQuery))])
  }

  // ---------------------------------------------------------------- the work queue

  /** enqueue: new work goes to the front, the far end from which work is taken. */
  function Submit(s: Pool, kind: WorkKind): Pool {
    s.(works := s.works[s.nextWork := Work(kind, false, false, false)],
       workQueue := [s.nextWork] + s.workQueue,
       nextWork := s.nextWork + 1)
  }

  function Select(ws: seq<WorkId>, works: map<WorkId, Work>, paused: bool): seq<WorkId>
    requires forall w | w in ws :: w in works
  {
    if ws == [] then []
    else (if works[ws[0]].paused == paused then [ws[0]] else []) + Select(ws[1..], works, paused)
  }

  predicate ItemsKnown(workQueue: seq<WorkId>, pause: seq<WorkId>, works: set<WorkId>) {
    (forall w | w in workQueue :: w in works) && (forall w | w in pause :: w in works)
  }

  /** promotePause: items no longer paused leave `pause`, in its order, for the end work is taken from. */
  function PromotePause(s: Pool): Pool
    requires ItemsKnown(s.workQueue, s.pause, s.works.Keys)
  {
    s.(workQueue := s.workQueue + Select(s.pause, s.works, false),
       pause := Select(s.pause, s.works, true))
  }

  predicate CanDrain(s: Pool) {
    ItemsKnown(s.workQueue, s.pause, s.works.Keys) && forall d | d in s.idle :: d in s.descs
  }

  /** One turn of the drain loop. */
  function DrainStep(s: Pool, now: int): (r: Pool)
    requires CanDrain(s) && s.workQueue != [] && s.idle != []
    ensures CanDrain(r) && |r.workQueue| < |s.workQueue|
  {
    var w := Last(s.workQueue);
    var s := s.(workQueue := s.workQueue[..|s.workQueue| - 1]);
    if s.works[w].pendingCancel then s.(released := s.released + [w])
    else if s.works[w].paused then s.(pause := [w] + s.pause)
    else
      var d := Last(s.idle);
      Item(Checkout(s, Running(w, None)), d, w, now).(dispatched := s.dispatched + [w])
  }

  function DrainLoop(s: Pool, now: int): Pool
    requires CanDrain(s)
    decreases |s.workQueue|
  {
    if s.workQueue == [] || s.idle == [] then s else DrainLoop(DrainStep(s, now), now)
  }

  lemma PromoteKeepsKnown(s: Pool)
    requires CanDrain(s)
    ensures CanDrain(PromotePause(s))
  {
    SelectIsSubset(s.pause, s.works, false);
    SelectIsSubset(s.pause, s.works, true);
  }

  lemma SelectIsSubset(ws: seq<WorkId>, works: map<WorkId, Work>, paused: bool)
    requires forall w | w in ws :: w in works
    ensures forall w | w in Select(ws, works, paused) :: w in ws && works[w].paused == paused
  {
  }

  function Drain(s: Pool, now: int): Pool
    requires CanDrain(s)
  {
    PromoteKeepsKnown(s);
    DrainLoop(PromotePause(s), now)
  }

  // ---------------------------------------------------------------- growing

  function Existing(s: Pool): int {
    |s.idle| + s.busy + s.pendingCreates + s.parking
  }

  function Ceil(x: real): int { -((-x).Floor) }

  /** Exponential growth: the part of the current size that is added. */
  function Share(size: int, factor: real): int {
    Ceil(size as real * (factor - 1.0))
  }

  /** True when grow returns before creating anything. */
  predicate GrowStops(o: Options, s: Pool) {
    || Existing(s) >= o.ceiling
    || (o.strategy == Efficient && !s.isOpen && Existing(s) >= o.floor && s.workQueue == [])
  }

  function GrowCount(o: Options, s: Pool): int {
    var needed := o.ceiling - Existing(s);
    match o.strategy
    case Efficient =>
      if !s.isOpen then Max(0, Min(o.floor - Existing(s), needed))
      else Max(0, Min(Min(Max(0, |s.workQueue| - |s.idle|), needed), o.scalingIncrement))
    case Gradual => Min(o.scalingIncrement, needed)
    case Exponential =>
      var size := |s.idle| + s.busy;
      if size == 0 then Max(1, Max(if o.floor == 0 then 1 else o.floor, 1))
      else Max(1, Min(Share(size, o.scalingFactor), needed))
    case Aggressive => needed
  }

  /** Creations of one grow that wait for their timer: all but the first, when there is a delay. */
  function GrowDelays(o: Options, s: Pool): nat {
    if GrowStops(o, s) || o.scalingDelay == 0 || o.strategy == Aggressive then 0
    else Max(0, GrowCount(o, s) - 1)
  }

  /** Creations that start at once. */
  function GrowStarts(o: Options, s: Pool): nat {
    if GrowStops(o, s) then 0 else Max(0, GrowCount(o, s)) - GrowDelays(o, s)
  }

  /** The part of grow before its first await. */
  function Grow(o: Options, s: Pool): Pool {
    s.(pendingCreates := s.pendingCreates + GrowStarts(o, s), delayed := s.delayed + GrowDelays(o, s))
  }

  /** open, which does nothing on an open pool, and otherwise grows it. */
  function OpenPool(o: Options, s: Pool): Pool {
    if s.isOpen then s else Grow(o, s)
  }

  /** crank up to its await. */
  function Crank(o: Options, s: Pool, now: int): Pool
    requires CanDrain(s)
  {
    if o.strategy == Efficient then
      var s := Drain(s, now);
      if s.workQueue != [] && s.idle == [] && Existing(s) < o.ceiling then Grow(o, s) else s
    else Grow(o, s)
  }

  /** getDescription: a parked description is reused, else a new one is made. */
  function DescriptionFor(s: Pool): DescId {
    if s.parked != [] then Last(s.parked) else s.nextDesc
  }

  /** The pool once an opened connection has been given to that description. */
  function Connected(s: Pool, now: int): Pool {
    s.(pendingCreates := s.pendingCreates - 1,
       raced := if s.busy > 0 then s.raced + 1 else s.raced,
       descs := s.descs[DescriptionFor(s) := Description(true, None, 0, now)],
       parked := if s.parked != [] then s.parked[..|s.parked| - 1] else s.parked,
       nextDesc := if s.parked != [] then s.nextDesc else s.nextDesc + 1)
  }

  /** A connection opened by grow. */
  function OpenOk(s: Pool, now: int): Pool {
    Checkin(Connected(s, now), DescriptionFor(s))
  }

  // ---------------------------------------------------------------- query and transaction events

  function QuerySubmitted(s: Pool, q: QueryId): Pool
    requires q in s.queries && s.queries[q].desc in s.descs
  {
    var live := s.queries[q];
    s.(queries := s.queries[q := live.(submitted := true)],
       descs := s.descs[live.desc := s.descs[live.desc].(work := Some(live.work))])
  }

  function QueryErrored(s: Pool, q: QueryId): Pool
    requires q in s.queries
  {
    s.(queries := s.queries[q := s.queries[q].(errored := true)])
  }

  /** The test of the 'free' handler that keeps a description out of the pool. */
  predicate InTransaction(s: Pool, d: DescId)
    requires d in s.descs
  {
    match s.descs[d].work
    case None => false
    case Some(w) => w in s.works && s.works[w].kind == Transaction
  }

  function QueryFreed(s: Pool, q: QueryId): Pool
    requires q in s.queries && s.queries[q].desc in s.descs
  {
    var live := s.queries[q];
    var d := live.desc;
    var s := s.(queries := s.queries - {q});
    if !live.errored && InTransaction(s, d) then
      if d in s.out && s.out[d].Running? && s.out[d].query == Some(q)
      then s.(out := s.out[d := Running(s.out[d].work, None)]) else s
    else Checkin(s, d)
  }

  /** finishTransaction throws unless the description's work is a transaction, finished or not. */
  predicate CanFinish(s: Pool, d: DescId) {
    && d in s.descs && s.descs[d].work.Some? && s.descs[d].work.value in s.works
    && (var kind := s.works[s.descs[d].work.value].kind; kind == Transaction || kind == Committing)
  }

  function Finish(s: Pool, d: DescId, now: int): Pool {
    if !CanFinish(s, d) then s
    else
      var w := s.descs[d].work.value;
      Item(s.(works := s.works[w := s.works[w].(kind := Committing)]), d, w, now)
  }

  // ---------------------------------------------------------------- the heartbeat timer

  /** Array.prototype.findIndex, with the length of the array for "none". */
  function FirstIndex(xs: seq<DescId>, p: DescId -> bool): (i: nat)
    ensures i <= |xs|
    ensures i < |xs| ==> p(xs[i])
    ensures forall k | 0 <= k < i :: !p(xs[k])
  {
    if xs == [] || p(xs[0]) then 0 else 1 + FirstIndex(xs[1..], p)
  }

  function Without(xs: seq<DescId>, i: nat): seq<DescId>
    requires i < |xs|
  {
    xs[..i] + xs[i + 1..]
  }

  function Inactive(o: Options, descs: map<DescId, Description>): DescId -> bool {
    d => d in descs && descs[d].keepAlive * o.heartbeatSecs >= o.inactivityTimeoutSecs
  }

  function Due(o: Options, descs: map<DescId, Description>, now: int): DescId -> bool {
    d => d in descs && now - descs[d].lastActive >= o.heartbeatSecs * 1000
  }

  function Park(o: Options, s: Pool): Pool {
    var i := FirstIndex(s.idle, Inactive(o, s.descs));
    if i == |s.idle| || Max(0, |s.idle| - o.floor) == 0 then s
    else s.(parking := s.parking + 1, closing := s.closing + {s.idle[i]}, idle := Without(s.idle, i))
  }

  function ParkDone(s: Pool, d: DescId): Pool
    requires d in s.descs
  {
    s.(parking := s.parking - 1,
       closing := s.closing - {d},
       descs := s.descs[d := s.descs[d].(connected := false, keepAlive := 0)],
       parked := [d] + s.parked)
  }

  function Beat(o: Options, s: Pool, now: int): Pool {
    var i := FirstIndex(s.idle, Due(o, s.descs, now));
    if i == |s.idle| then s
    else
      s.(idle := Without(s.idle, i),
         busy := s.busy + 1,
         out := s.out[s.idle[i] := Beating(s.nextHeartbeat)],
         heartbeats := s.heartbeats[s.nextHeartbeat := Heartbeat(s.idle[i], false, 0, 0)],
         nextHeartbeat := s.nextHeartbeat + 1)
  }

  /** The timer callback: park, then heartbeat. */
  function Tick(o: Options, s: Pool, now: int): Pool {
    Beat(o, Park(o, s), now)
  }

  function HeartbeatDone(s: Pool, h: HeartbeatId, now: int): Pool
    requires h in s.heartbeats && s.heartbeats[h].desc in s.descs
  {
    var hb := s.heartbeats[h];
    if hb.settled then s
    else
      var desc := s.descs[hb.desc];
      Checkin(s.(heartbeats := s.heartbeats[h := hb.(settled := true, checkins := hb.checkins + 1)],
                 descs := s.descs[hb.desc := desc.(keepAlive := desc.keepAlive + 1, lastActive := now)]),
              hb.desc)
  }

  function HeartbeatError(s: Pool, h: HeartbeatId): Pool
    requires h in s.heartbeats
  {
    var hb := s.heartbeats[h];
    if hb.settled then s
    else s.(heartbeats := s.heartbeats[h := hb.(settled := true, recreates := hb.recreates + 1)],
            out := s.out[hb.desc := Recreating])
  }

  function RecreateDone(s: Pool, d: DescId, now: int): Pool
    requires d in s.descs
  {
    Checkin(s.(descs := s.descs[d := s.descs[d].(connected := true, lastActive := now)]), d)
  }

  // ---------------------------------------------------------------- events and runs

  datatype Event =
    | Submitted(kind: WorkKind)              // query, queryRaw, callproc, beginTransaction
    | ItemPaused(work: WorkId)
    | ItemResumed(work: WorkId)
    | ItemCancelled(work: WorkId)
    | Cranked(now: int)
    | Drained(now: int)                      // the continuation of a crank after its grow
    | OpenCalled                             // open, up to the await of its grow
    | PoolOpened                             // the continuation of open after its grow
    | DelayPassed                            // a delayed creation starts
    | ConnectionOpened(now: int)
    | ConnectionFailed
    | SubmittedEvent(query: QueryId)
    | ErrorEvent(query: QueryId)
    | FreeEvent(query: QueryId)
    | Finished(desc: DescId, now: int)       // commitTransaction or rollbackTransaction
    | Ticked(now: int)
    | HeartbeatDoneEvent(heartbeat: HeartbeatId, now: int)
    | HeartbeatErrorEvent(heartbeat: HeartbeatId)
    | ParkClosed(desc: DescId)
    | Recreated(desc: DescId, now: int)

  predicate DescsKnown(
    idle: seq<DescId>, parked: seq<DescId>, closing: set<DescId>, out: set<DescId>, descs: set<DescId>)
  {
    && (forall d | d in idle :: d in descs)
    && (forall d | d in parked :: d in descs)
    && closing <= descs && out <= descs
  }

  predicate QueriesKnown(queries: map<QueryId, LiveQuery>, descs: set<DescId>, works: set<WorkId>) {
    forall q | q in queries :: queries[q].desc in descs && queries[q].work in works
  }

  predicate BeatsKnown(heartbeats: map<HeartbeatId, Heartbeat>, descs: set<DescId>) {
    forall h | h in heartbeats :: heartbeats[h].desc in descs
  }

  /** Every record the arrays and closures mention exists. */
  predicate Closed(s: Pool) {
    && ItemsKnown(s.workQueue, s.pause, s.works.Keys)
    && DescsKnown(s.idle, s.parked, s.closing, s.out.Keys, s.descs.Keys)
    && QueriesKnown(s.queries, s.descs.Keys, s.works.Keys)
    && BeatsKnown(s.heartbeats, s.descs.Keys)
  }

  /** What the world around the pool may do next.  A query frees once, submitted or not. */
  predicate Enabled(s: Pool, e: Event) {
    match e
    case Submitted(kind) => kind != Committing
    case ItemPaused(w) => w in s.works
    case ItemResumed(w) => w in s.works
    case ItemCancelled(w) => w in s.works
    case DelayPassed => s.delayed > 0
    case ConnectionOpened(_) => s.pendingCreates > 0
    case ConnectionFailed => s.pendingCreates > 0
    case SubmittedEvent(q) => q in s.queries
    case ErrorEvent(q) => q in s.queries
    case FreeEvent(q) => q in s.queries
    case Finished(d, _) => d in s.descs
    case HeartbeatDoneEvent(h, _) => h in s.heartbeats
    case HeartbeatErrorEvent(h) => h in s.heartbeats
    case ParkClosed(d) => d in s.closing
    case Recreated(d, _) => d in s.out && s.out[d] == Recreating
    case _ => true
  }

  function Step(o: Options, s: Pool, e: Event): Pool
    requires Closed(s) && Enabled(s, e)
  {
    match e
    case Submitted(kind) => Submit(s, kind)
    case ItemPaused(w) =>
      s.(works := s.works[w := s.works[w].(paused := true)],
         everPaused := if s.works[w].attached then s.everPaused else s.everPaused + {w})
    case ItemResumed(w) => s.(works := s.works[w := s.works[w].(paused := false)])
    case ItemCancelled(w) =>
      if s.works[w].attached then s else s.(works := s.works[w := s.works[w].(pendingCancel := true)])
    case Cranked(now) => Crank(o, s, now)
    case Drained(now) => Drain(s, now)
    case OpenCalled => OpenPool(o, s)
    case PoolOpened => s.(isOpen := true)
    case DelayPassed => s.(delayed := s.delayed - 1, pendingCreates := s.pendingCreates + 1)
    case ConnectionOpened(now) => OpenOk(s, now)
    case ConnectionFailed => s.(pendingCreates := s.pendingCreates - 1)
    case SubmittedEvent(q) => QuerySubmitted(s, q)
    case ErrorEvent(q) => QueryErrored(s, q)
    case FreeEvent(q) => QueryFreed(s, q)
    case Finished(d, now) => Finish(s, d, now)
    case Ticked(now) => Tick(o, s, now)
    case HeartbeatDoneEvent(h, now) => HeartbeatDone(s, h, now)
    case HeartbeatErrorEvent(h) => HeartbeatError(s, h)
    case ParkClosed(d) => ParkDone(s, d)
    case Recreated(d, now) => RecreateDone(s, d, now)
  }
}

/**
 * What the heartbeat timer does to idle connections, and what brings one back.
 */
module PoolTimer {
  import opened PoolModel
  import opened PoolInvariants
  import opened PoolRuns
  import opened PoolTheorems
  import opened Wrappers
  import opened Arithmetic

  // ---------------------------------------------------------------- one tick

  /** The connection in that place has been unused for the inactivity timeout, by the heartbeats it has answered. */
  predicate Unused(o: Options, s: Pool, i: nat) {
    i < |s.idle| && s.idle[i] in s.descs && s.descs[s.idle[i]].keepAlive * o.heartbeatSecs >= o.inactivityTimeoutSecs
  }

  /** The connection in that place has been silent for the heartbeat interval. */
  predicate Silent(o: Options, s: Pool, now: int, i: nat) {
    i < |s.idle| && s.idle[i] in s.descs && now - s.descs[s.idle[i]].lastActive >= o.heartbeatSecs * 1000
  }

  /** The first unused connection is closed exactly when there is one and more than `floor` are idle. */
  lemma ParksExactlyWhen(o: Options, s: Pool)
    ensures (exists i :: Unused(o, s, i)) && |s.idle| > o.floor
       <==> Park(o, s) != s
    ensures Park(o, s) != s ==>
              exists i: nat | Unused(o, s, i) && forall k: nat | k < i :: !Unused(o, s, k) ::
                Park(o, s) == s.(idle := s.idle[..i] + s.idle[i + 1..], closing := s.closing + {s.idle[i]},
                                 parking := s.parking + 1)
  {
    var i := FirstIndex(s.idle, Inactive(o, s.descs));
    assert forall k | 0 <= k < i :: !Inactive(o, s.descs)(s.idle[k]) && !Unused(o, s, k);
    if i < |s.idle| { assert Unused(o, s, i); }
  }

  /** The first silent connection is taken out for a heartbeat exactly when there is one. */
  lemma BeatsExactlyWhen(o: Options, s: Pool, now: int)
    ensures (exists i :: Silent(o, s, now, i)) <==> Beat(o, s, now) != s
    ensures Beat(o, s, now) != s ==>
              exists i: nat | Silent(o, s, now, i) && forall k: nat | k < i :: !Silent(o, s, now, k) ::
                (var t := Beat(o, s, now);
                 && t.idle == s.idle[..i] + s.idle[i + 1..] && t.busy == s.busy + 1
                 && s.idle[i] in t.out && t.out[s.idle[i]] == Beating(s.nextHeartbeat)
                 && t.heartbeats == s.heartbeats[s.nextHeartbeat := Heartbeat(s.idle[i], false, 0, 0)])
  {
    var i := FirstIndex(s.idle, Due(o, s.descs, now));
    assert forall k | 0 <= k < i :: !Due(o, s.descs, now)(s.idle[k]) && !Silent(o, s, now, k);
    if i < |s.idle| { assert Silent(o, s, now, i); }
  }

  // ---------------------------------------------------------------- what brings a connection back

  /**
   * The first outcome of a heartbeat decides: done brings the connection back with one more
   * heartbeat to its name, an error keeps it out until it has been recreated; later ones do nothing.
   */
  lemma HeartbeatDecides(s: Pool, h: HeartbeatId, now: int)
    requires DescInv(s) && h in s.heartbeats && s.heartbeats[h].desc in s.descs
    ensures (var d, done, failed := s.heartbeats[h].desc, HeartbeatDone(s, h, now), HeartbeatError(s, h);
             if s.heartbeats[h].settled
             then done == s && failed == s
             else && done.idle == [d] + s.idle && d !in done.out
                  && done.descs[d] == Description(s.descs[d].connected, None, s.descs[d].keepAlive + 1, now)
                  && failed.idle == s.idle && d in failed.out && failed.out[d] == Recreating
                  && failed.heartbeats[h].settled && done.heartbeats[h].settled)
  {
    hide HoldsOk, ConnectedOk, CountersOk, IdsOk;
    if !s.heartbeats[h].settled { BeatIsOut(s, h); }
  }

  /** A recreated connection comes back as just used. */
  lemma RecreatedComesBack(s: Pool, d: DescId, now: int)
    requires DescInv(s) && d in s.out && s.out[d] == Recreating
    ensures d in s.descs
    ensures (var t := RecreateDone(s, d, now);
             && t.idle == [d] + s.idle && d !in t.out
             && t.descs[d] == Description(true, None, s.descs[d].keepAlive, now))
  {
    hide HoldsOk, BeatsOk, ConnectedOk, CountersOk, IdsOk;
  }

  /** A closed connection leaves its description parked, in front, without a connection. */
  lemma ClosedIsParked(s: Pool, d: DescId)
    requires DescInv(s) && d in s.closing
    ensures d in s.descs
    ensures (var t := ParkDone(s, d);
             && t.parked == [d] + s.parked && t.closing == s.closing - {d} && t.parking == s.parking - 1
             && t.descs[d] == Description(false, s.descs[d].work, 0, s.descs[d].lastActive))
  {
    hide HoldsOk, BeatsOk, ConnectedOk, IdsOk;
  }

  /** A connection that opens goes to the description parked longest, or to a new one where none is, as just used. */
  lemma ParkedIsReused(s: Pool, now: int)
    requires DescInv(s)
    ensures (var t, d := OpenOk(s, now), if s.parked == [] then s.nextDesc else s.parked[|s.parked| - 1];
             && t.idle == [d] + s.idle && d in t.descs && t.descs[d] == Description(true, None, 0, now)
             && t.parked == (if s.parked == [] then [] else s.parked[..|s.parked| - 1])
             && t.descs.Keys == s.descs.Keys + (if s.parked == [] then {s.nextDesc} else {}))
  {
    hide HoldsOk, BeatsOk, ConnectedOk, CountersOk;
    if s.parked != [] { assert s.parked[|s.parked| - 1] in s.parked; }
  }

  /** Work resets what the heartbeats have counted. */
  lemma WorkIsUse(s: Pool, now: int)
    requires CanDrain(s) && s.workQueue != [] && s.idle != []
    requires !s.works[Last(s.workQueue)].pendingCancel && !s.works[Last(s.workQueue)].paused
    ensures Last(s.idle) in s.descs
    ensures (var d := Last(s.idle); DrainStep(s, now).descs[d] == s.descs[d].(keepAlive := 0, lastActive := now))
  {
    assert Last(s.idle) in s.idle;
  }

  // ---------------------------------------------------------------- an unused connection is parked

  /** One idle connection and nothing else to do. */
  predicate Resting(s: Pool, d: DescId, keepAlive: nat, lastActive: int) {
    && s.idle == [d] && d in s.descs && s.descs[d].keepAlive == keepAlive && s.descs[d].lastActive == lastActive
    && s.workQueue == [] && s.pause == [] && d !in s.parked
  }

  /** Below the timeout a tick and the heartbeat's answer leave the connection idle, with one heartbeat more. */
  lemma RoundKeepsResting(o: Options, s: Pool, d: DescId, keepAlive: nat, was: int, now: int) returns (t: Pool, u: Pool)
    requires Inv(s) && Resting(s, d, keepAlive, was) && now - was >= o.heartbeatSecs * 1000
    requires keepAlive * o.heartbeatSecs < o.inactivityTimeoutSecs
    ensures Follows(o, s, Ticked(now), t) && Follows(o, t, HeartbeatDoneEvent(s.nextHeartbeat, now), u)
    ensures Inv(u) && Resting(u, d, keepAlive + 1, now)
  {
    hide Inv, Step, Resting, Orderly, Closed;
    InvIsClosed(s);
    TickStep(o, s, d, keepAlive, was, now);
    StepKeepsInv(o, s, Ticked(now));
    t := Step(o, s, Ticked(now));
    InvIsClosed(t);
    AnswerStep(o, s, t, d, keepAlive, was, now);
    StepKeepsInv(o, t, HeartbeatDoneEvent(s.nextHeartbeat, now));
    u := Step(o, t, HeartbeatDoneEvent(s.nextHeartbeat, now));
  }

  predicate Follows(o: Options, s: Pool, e: Event, t: Pool) {
    Closed(s) && Enabled(s, e) && Orderly(s, e) && Step(o, s, e) == t
  }

  lemma OneMore(o: Options, s: Pool, e: Event, t: Pool, es: seq<Event>)
    requires Follows(o, s, e, t) && Legal(o, t, es) && OrderlyRun(o, t, es)
    ensures Legal(o, s, [e] + es) && OrderlyRun(o, s, [e] + es) && Run(o, s, [e] + es) == Run(o, t, es)
  {
    hide Closed, Enabled, Step, Orderly;
    assert ([e] + es)[1..] == es;
  }

  predicate ByTimer(es: seq<Event>) {
    forall e | e in es :: e.Ticked? || e.HeartbeatDoneEvent?
  }

  /** The only connection of a pool without a floor, left alone and answering every heartbeat, is closed in the end. */
  lemma {:induction false} UnusedIsParked(o: Options, s: Pool, d: DescId, keepAlive: nat, was: int)
    returns (es: seq<Event>)
    requires ValidOptions(o) && o.floor == 0 && Inv(s) && Resting(s, d, keepAlive, was)
    ensures ByTimer(es) && Legal(o, s, es) && OrderlyRun(o, s, es)
    ensures d in Run(o, s, es).closing && Run(o, s, es).idle == []
    decreases Max(0, o.inactivityTimeoutSecs - keepAlive)
  {
    hide Inv, Resting, Step, Closed, Enabled, Orderly, Tick;
    if keepAlive * o.heartbeatSecs >= o.inactivityTimeoutSecs {
      InvIsClosed(s);
      RestingIsParked(o, s, d, keepAlive, was, was);
      es := [Ticked(was)] + [];
      TickFollows(o, s, was);
      OneMore(o, s, Ticked(was), Tick(o, s, was), []);
    } else {
      var now := was + o.heartbeatSecs * 1000;
      var t, u := RoundKeepsResting(o, s, d, keepAlive, was, now);
      NotYet(o, keepAlive);
      var rest := UnusedIsParked(o, u, d, keepAlive + 1, now);
      var answer := HeartbeatDoneEvent(s.nextHeartbeat, now);
      OneMore(o, t, answer, u, rest);
      OneMore(o, s, Ticked(now), t, [answer] + rest);
      es := [Ticked(now)] + ([answer] + rest);
    }
  }

  lemma NotYet(o: Options, keepAlive: nat)
    requires ValidOptions(o) && keepAlive * o.heartbeatSecs < o.inactivityTimeoutSecs
    ensures keepAlive < o.inactivityTimeoutSecs
  {
    assert keepAlive * o.heartbeatSecs == keepAlive + keepAlive * (o.heartbeatSecs - 1);
  }

  lemma TickFollows(o: Options, s: Pool, now: int)
    requires Closed(s)
    ensures Follows(o, s, Ticked(now), Tick(o, s, now))
  {
    hide Closed, Tick;
  }

  lemma InvIsClosed(s: Pool)
    requires Inv(s)
    ensures Closed(s)
  {
    hide DescInv;
    BaseHolds(s);
  }

  /** The state once the timer has taken the connection out for a heartbeat. */
  function Beaten(s: Pool, d: DescId): Pool {
    s.(idle := [], busy := s.busy + 1, out := s.out[d := Beating(s.nextHeartbeat)],
       heartbeats := s.heartbeats[s.nextHeartbeat := Heartbeat(d, false, 0, 0)], nextHeartbeat := s.nextHeartbeat + 1)
  }

  lemma TickStep(o: Options, s: Pool, d: DescId, keepAlive: nat, was: int, now: int)
    requires Closed(s) && Resting(s, d, keepAlive, was) && now - was >= o.heartbeatSecs * 1000
    requires keepAlive * o.heartbeatSecs < o.inactivityTimeoutSecs
    ensures Enabled(s, Ticked(now)) && Orderly(s, Ticked(now)) && Step(o, s, Ticked(now)) == Beaten(s, d)
  {
    hide Closed, Park, Beat, Beaten;
    StaysOpen(o, s, d, keepAlive, was);
    IsBeaten(o, s, d, keepAlive, was, now);
  }

  lemma StaysOpen(o: Options, s: Pool, d: DescId, keepAlive: nat, was: int)
    requires Resting(s, d, keepAlive, was) && keepAlive * o.heartbeatSecs < o.inactivityTimeoutSecs
    ensures Park(o, s) == s
  {
    assert !Inactive(o, s.descs)(s.idle[0]);
    assert FirstIndex(s.idle, Inactive(o, s.descs)) == 1;
  }

  lemma IsBeaten(o: Options, s: Pool, d: DescId, keepAlive: nat, was: int, now: int)
    requires Resting(s, d, keepAlive, was) && now - was >= o.heartbeatSecs * 1000
    ensures Beat(o, s, now) == Beaten(s, d)
  {
    assert Due(o, s.descs, now)(s.idle[0]);
    assert FirstIndex(s.idle, Due(o, s.descs, now)) == 0;
    assert Without(s.idle, 0) == [];
  }

  lemma AnswerStep(o: Options, s: Pool, t: Pool, d: DescId, keepAlive: nat, was: int, now: int)
    requires Closed(t) && Resting(s, d, keepAlive, was) && t == Beaten(s, d)
    ensures (var e := HeartbeatDoneEvent(s.nextHeartbeat, now);
             Enabled(t, e) && Orderly(t, e) && Resting(Step(o, t, e), d, keepAlive + 1, now))
  {
    hide Closed;
    assert [d] + [] == [d];
  }

  /** Once the timeout is reached the next tick closes it, unless `floor` keeps it. */
  lemma RestingIsParked(o: Options, s: Pool, d: DescId, keepAlive: nat, was: int, now: int)
    requires Resting(s, d, keepAlive, was) && keepAlive * o.heartbeatSecs >= o.inactivityTimeoutSecs && o.floor == 0
    ensures d in Tick(o, s, now).closing && Tick(o, s, now).idle == []
  {
    assert Inactive(o, s.descs)(s.idle[0]);
    assert FirstIndex(s.idle, Inactive(o, s.descs)) == 0;
    assert Without(s.idle, 0) == [];
  }
}

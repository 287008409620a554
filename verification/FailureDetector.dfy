/** The sweep as a failure detector: it never takes a live owner for dead, it
    takes a dead one for dead in bounded time, and a stall changes neither. */
module FailureDetector {
  import opened ByteStrings
  import opened SortedSets
  import opened AckIds
  import opened Store
  import opened Runs
  import opened Effects

  // ---- who is in a sweep's two lists ----

  lemma ExpiredOnly(o: Owners, now: int, m: Owner)
    requires m in Expired(o, now)
    ensures m in o.heartbeats && o.heartbeats[m] <= now
  {
    UpToMembers(o.heartbeats, now);
  }

  lemma LiveOnly(o: Owners, now: int, m: Owner)
    requires m in Live(o, now)
    ensures m in o.heartbeats && now <= o.heartbeats[m]
  {
    FromMembers(o.heartbeats, now);
  }

  /** With at most 100 expired owners a sweep takes all of them. */
  lemma ExpiredAll(o: Owners, now: int, m: Owner)
    requires m in o.heartbeats && o.heartbeats[m] <= now && |UpTo(o.heartbeats, now)| <= MAX_EXPIRED
    ensures m in Expired(o, now)
  {
    UpToMembers(o.heartbeats, now);
    assert Take(UpTo(o.heartbeats, now), MAX_EXPIRED) == UpTo(o.heartbeats, now);
  }

  lemma LiveAll(o: Owners, now: int, m: Owner)
    requires m in o.heartbeats && now <= o.heartbeats[m] && |From(o.heartbeats, now)| <= MAX_LIVE
    ensures m in Live(o, now)
  {
    FromMembers(o.heartbeats, now);
    assert Take(From(o.heartbeats, now), MAX_LIVE) == From(o.heartbeats, now);
  }

  // ---- safety: a live owner is never taken for dead ----

  /** What holds of an owner that swept at t: its heartbeat lasts to t + 5 s at
      least, and it was marked unsubscribed no earlier than t. */
  predicate Fresh(o: Owners, a: Owner, t: int) {
    && 0 <= t
    && (a in o.heartbeats ==> t + MIN_HEARTBEAT <= o.heartbeats[a])
    && (a in o.presence ==> a in o.heartbeats && (o.presence[a] == 0 || (0 < o.presence[a] && t <= o.presence[a])))
  }

  /** An owner's own calls carry the heartbeat timeout SetHeartbeatTimeout allows. */
  predicate Steady(c: Call, a: Owner) {
    && (c.SweepBy? && c.me == a ==> MIN_HEARTBEAT <= c.heartbeat)
    && (c.PopBy? && c.pop.owner == a ==> MIN_HEARTBEAT <= c.pop.heartbeat)
  }

  /** A sweep finds the owner's last sweep, at t, less than 2.5 s back: back from
      now, or after a stall, back from when the clock last moved. */
  predicate OnTime(o: Owners, now: int, t: int) {
    (if Stalled(o, now) then o.clock.value else now) < t + PRESENCE_GRACE
  }

  /** The owner's last sweep, with the time of a stall not counted. */
  function Since(o: Owners, me: Owner, now: int, a: Owner, t: int): int {
    if me == a then now
    else if Stalled(o, now) && t + (now - o.clock.value) < now then t + (now - o.clock.value)
    else if Stalled(o, now) then now
    else t
  }

  function LastSweepBy(o: Owners, e: Event, a: Owner, t: int): int {
    if e.call.SweepBy? then Since(o, e.call.me, e.now, a, t) else t
  }

  /** From its sweep at t on, no sweep of another process comes 2.5 s or more
      after the owner's own last one, stalls not counted. */
  predicate Punctual(envid: Bytes -> Bytes, s: Store, es: seq<Event>, a: Owner, t: int)
    decreases |es|
  {
    es == [] || (t <= es[0].now && Steady(es[0].call, a)
                 && (es[0].call.SweepBy? && es[0].call.me != a ==> OnTime(s.owners, es[0].now, t))
                 && Punctual(envid, Apply(envid, s, es[0]), es[1..], a, LastSweepBy(s.owners, es[0], a, t)))
  }

  lemma PreparedFresh(o: Owners, me: Owner, heartbeat: int, now: int, a: Owner, t: int)
    requires Fresh(o, a, t) && t <= now && (me == a ==> MIN_HEARTBEAT <= heartbeat)
    ensures Fresh(Prepared(o, me, heartbeat, now), a, Since(o, me, now, a, t))
    ensures var p := Prepared(o, me, heartbeat, now).presence; me == a && a in p ==> p[a] == 0
  {}

  /** A sweep by anyone, within 2.5 s of the owner's own last one, spares it. */
  lemma FreshIsSpared(o: Owners, me: Owner, heartbeat: int, subs: set<Owner>, now: int, a: Owner, t: int)
    requires Fresh(o, a, t) && t <= now && (me == a ==> MIN_HEARTBEAT <= heartbeat) && (me != a ==> OnTime(o, now, t))
    ensures a !in SweptAway(o, me, heartbeat, subs, now)
  {
    var p := Prepared(o, me, heartbeat, now);
    PreparedFresh(o, me, heartbeat, now, a, t);
    if a in Expired(p, now) {
      ExpiredOnly(p, now, a);
    }
  }

  lemma SweptFresh(o: Owners, me: Owner, heartbeat: int, subs: set<Owner>, now: int, a: Owner, t: int)
    requires Fresh(o, a, t) && t <= now && (me == a ==> MIN_HEARTBEAT <= heartbeat) && (me != a ==> OnTime(o, now, t))
    ensures Fresh(SweptOwners(o, me, heartbeat, subs, now), a, Since(o, me, now, a, t))
  {
    var p := Prepared(o, me, heartbeat, now);
    PreparedFresh(o, me, heartbeat, now, a, t);
    FreshIsSpared(o, me, heartbeat, subs, now, a, t);
    if a in Live(p, now) {
      LiveOnly(p, now, a);
    }
  }

  /** No sweep of the run takes a for dead. */
  predicate Spared(envid: Bytes -> Bytes, s: Store, es: seq<Event>, a: Owner)
    decreases |es|
  {
    es == [] || (a !in DeadIn(s, es[0]) && Spared(envid, Apply(envid, s, es[0]), es[1..], a))
  }

  lemma FreshStep(envid: Bytes -> Bytes, s: Store, e: Event, a: Owner, t: int)
    requires Fresh(s.owners, a, t) && t <= e.now && Steady(e.call, a) && Proper(s, e)
    requires e.call.SweepBy? && e.call.me != a ==> OnTime(s.owners, e.now, t)
    ensures a !in DeadIn(s, e)
    ensures Fresh(Apply(envid, s, e).owners, a, LastSweepBy(s.owners, e, a, t))
  {
    OwnersOf(envid, s, e);
    match e.call
    case SweepBy(me, heartbeat) =>
      FreshIsSpared(s.owners, me, heartbeat, e.subs, e.now, a, t);
      SweptFresh(s.owners, me, heartbeat, e.subs, e.now, a, t);
    case _ =>
  }

  lemma {:induction false} FreshRun(envid: Bytes -> Bytes, s: Store, es: seq<Event>, a: Owner, t: int)
    requires Fresh(s.owners, a, t) && Punctual(envid, s, es, a, t) && ProperRun(envid, s, es)
    ensures Spared(envid, s, es, a)
    decreases |es|
  {
    if es != [] {
      FreshStep(envid, s, es[0], a, t);
      FreshRun(envid, Apply(envid, s, es[0]), es[1..], a, LastSweepBy(s.owners, es[0], a, t));
    }
  }

  /** The call is not one of a's: it neither pops, sweeps nor closes. */
  predicate NotBy(c: Call, a: Owner) {
    && (c.PopBy? ==> c.pop.owner != a)
    && (c.SweepBy? ==> c.me != a)
    && (c.CloseBy? ==> c.me != a)
  }

  predicate Unknown(o: Owners, a: Owner) {
    a !in o.heartbeats && a !in o.presence
  }

  lemma SweptUnknown(o: Owners, me: Owner, heartbeat: int, subs: set<Owner>, now: int, a: Owner)
    requires Unknown(o, a) && me != a
    ensures Unknown(SweptOwners(o, me, heartbeat, subs, now), a)
  {
    var p := Prepared(o, me, heartbeat, now);
    assert Unknown(p, a);
    if a in Live(p, now) {
      LiveOnly(p, now, a);
    }
  }

  lemma UnknownStep(envid: Bytes -> Bytes, s: Store, e: Event, a: Owner)
    requires Unknown(s.owners, a) && NotBy(e.call, a) && Proper(s, e)
    ensures Unknown(Apply(envid, s, e).owners, a)
  {
    OwnersOf(envid, s, e);
    match e.call
    case SweepBy(me, heartbeat) => SweptUnknown(s.owners, me, heartbeat, e.subs, e.now, a);
    case _ =>
  }

  lemma {:induction false} UnknownRun(envid: Bytes -> Bytes, s: Store, es: seq<Event>, a: Owner)
    requires Unknown(s.owners, a) && ProperRun(envid, s, es) && forall i :: 0 <= i < |es| ==> NotBy(es[i].call, a)
    ensures Unknown(Run(envid, s, es).owners, a)
    decreases |es|
  {
    if es != [] {
      UnknownStep(envid, s, es[0], a);
      UnknownRun(envid, Apply(envid, s, es[0]), es[1..], a);
    }
  }

  /** In every run, an owner that from its first sweep on sweeps at gaps below
      2.5 s, stalls not counted, with a timeout of 5 s or more is never taken for
      dead: whatever the others do and whatever its subscription does. */
  lemma LiveOwnerNeverReaped(envid: Bytes -> Bytes, ranked: bool, before: seq<Event>, es: seq<Event>, a: Owner, t: int)
    requires ProperRun(envid, Empty(ranked), before) && forall i :: 0 <= i < |before| ==> NotBy(before[i].call, a)
    requires var s := Run(envid, Empty(ranked), before);
      ProperRun(envid, s, es) && 0 <= t && Punctual(envid, s, es, a, t)
    ensures Spared(envid, Run(envid, Empty(ranked), before), es, a)
  {
    UnknownRun(envid, Empty(ranked), before, a);
    FreshRun(envid, Run(envid, Empty(ranked), before), es, a, t);
  }
}

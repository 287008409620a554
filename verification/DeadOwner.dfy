/** How soon the sweeps of others take a stopped owner for dead. */
module DeadOwner {
  import opened ByteStrings
  import opened SortedSets
  import opened AckIds
  import opened Store
  import opened Runs
  import opened Effects
  import opened FailureDetector
  import opened Orphans

  /** The sweeps of the run, by whoever, come at gaps of at most gap: from the
      one at last on, and up to the time the run is looked at. */
  predicate Paced(es: seq<Event>, last: int, gap: int, until: int)
    decreases |es|
  {
    if es == [] then last <= until <= last + gap
    else last <= es[0].now <= last + gap && Paced(es[1..], if es[0].call.SweepBy? then es[0].now else last, gap, until)
  }

  /** The sweep finds few enough owners to look at all of them. */
  predicate Roomy(o: Owners, e: Event) {
    e.call.SweepBy? ==>
      var p := Prepared(o, e.call.me, e.call.heartbeat, e.now);
      |UpTo(p.heartbeats, e.now)| <= MAX_EXPIRED && |From(p.heartbeats, e.now)| <= MAX_LIVE
  }

  predicate RoomyRun(envid: Bytes -> Bytes, s: Store, es: seq<Event>)
    decreases |es|
  {
    es == [] || (Roomy(s.owners, es[0]) && RoomyRun(envid, Apply(envid, s, es[0]), es[1..]))
  }

  /** The owner makes no call any more. */
  predicate Silent(es: seq<Event>, a: Owner) {
    forall i :: 0 <= i < |es| ==> NotBy(es[i].call, a)
  }

  /** No stall: the clock moved within half a second before the last sweep. */
  predicate ClockKept(o: Owners, last: int) {
    o.clock.Some? && o.clock.value <= last < o.clock.value + CLOCK_STEP
  }

  lemma ClockStep(o: Owners, me: Owner, heartbeat: int, subs: set<Owner>, now: int, last: int, gap: int)
    requires ClockKept(o, last) && last <= now <= last + gap && gap + CLOCK_STEP <= SWEEP_GAP
    ensures !Stalled(o, now) && ClockKept(SweptOwners(o, me, heartbeat, subs, now), now)
  {}

  // ---- by its heartbeat ----

  /** The owner is gone, or its heartbeat still stands at h and no sweep passed it. */
  predicate Ticking(o: Owners, a: Owner, h: int, last: int) {
    a in o.heartbeats ==> o.heartbeats[a] == h && last < h
  }

  lemma TickingSweep(o: Owners, e: Event, a: Owner, h: int, last: int, gap: int)
    requires e.call.SweepBy? && e.call.me != a && Roomy(o, e)
    requires ClockKept(o, last) && last <= e.now <= last + gap && gap + CLOCK_STEP <= SWEEP_GAP
    requires Ticking(o, a, h, last)
    ensures Ticking(SweptOwners(o, e.call.me, e.call.heartbeat, e.subs, e.now), a, h, e.now)
  {
    var p := Prepared(o, e.call.me, e.call.heartbeat, e.now);
    ClockStep(o, e.call.me, e.call.heartbeat, e.subs, e.now, last, gap);
    if a in p.heartbeats && h <= e.now {
      ExpiredAll(p, e.now, a);
    }
  }

  lemma TickingStep(envid: Bytes -> Bytes, s: Store, e: Event, a: Owner, h: int, last: int, gap: int)
    requires Proper(s, e) && NotBy(e.call, a) && Roomy(s.owners, e)
    requires ClockKept(s.owners, last) && last <= e.now <= last + gap && gap + CLOCK_STEP <= SWEEP_GAP
    requires Ticking(s.owners, a, h, last)
    ensures var t := Apply(envid, s, e).owners; var last' := if e.call.SweepBy? then e.now else last;
      Ticking(t, a, h, last') && ClockKept(t, last')
  {
    OwnersOf(envid, s, e);
    match e.call
    case SweepBy(me, heartbeat) =>
      TickingSweep(s.owners, e, a, h, last, gap);
      ClockStep(s.owners, me, heartbeat, e.subs, e.now, last, gap);
    case _ =>
  }

  /** A silent owner with heartbeat score h is dropped by h plus one sweep gap. */
  lemma {:induction false} ExpiryBound(envid: Bytes -> Bytes, s: Store, es: seq<Event>, a: Owner, h: int, last: int,
      gap: int, until: int)
    requires ProperRun(envid, s, es) && Silent(es, a) && RoomyRun(envid, s, es) && Paced(es, last, gap, until)
    requires gap + CLOCK_STEP <= SWEEP_GAP && ClockKept(s.owners, last) && Ticking(s.owners, a, h, last)
    ensures h + gap <= until ==> a !in Run(envid, s, es).owners.heartbeats
    decreases |es|
  {
    if es != [] {
      TickingStep(envid, s, es[0], a, h, last, gap);
      ExpiryBound(envid, Apply(envid, s, es[0]), es[1..], a, h, if es[0].call.SweepBy? then es[0].now else last, gap,
        until);
    }
  }

  // ---- by its subscription ----

  /** The owner is gone, or the clock has not moved since it stopped at u, or it
      was marked soon after u and its grace was not over when the clock moved. */
  predicate Fading(o: Owners, a: Owner, u: int, gap: int) {
    a in o.heartbeats ==>
      && a in o.presence && o.clock.Some?
      && (o.clock.value <= u
          || (0 != o.presence[a] && o.presence[a] <= u + gap + CLOCK_STEP
              && o.clock.value - o.presence[a] < PRESENCE_GRACE))
  }

  lemma FadingSweep(o: Owners, e: Event, a: Owner, u: int, last: int, gap: int)
    requires e.call.SweepBy? && e.call.me != a && a !in e.subs && Roomy(o, e)
    requires ClockKept(o, last) && last <= e.now <= last + gap && gap + CLOCK_STEP <= SWEEP_GAP
    requires Fading(o, a, u, gap) && u <= e.now && 0 < e.now
    requires a in o.presence ==> o.presence[a] <= o.clock.value
    ensures Fading(SweptOwners(o, e.call.me, e.call.heartbeat, e.subs, e.now), a, u, gap)
  {
    var (me, heartbeat, now) := (e.call.me, e.call.heartbeat, e.now);
    var p := Prepared(o, me, heartbeat, now);
    ClockStep(o, me, heartbeat, e.subs, now, last, gap);
    if a in p.heartbeats {
      if p.heartbeats[a] <= now {
        ExpiredAll(p, now, a);
      } else {
        LiveAll(p, now, a);
      }
    }
  }

  lemma FadingStep(envid: Bytes -> Bytes, s: Store, e: Event, a: Owner, u: int, last: int, gap: int)
    requires Proper(s, e) && NotBy(e.call, a) && a !in e.subs && Roomy(s.owners, e)
    requires ClockKept(s.owners, last) && last <= e.now <= last + gap && gap + CLOCK_STEP <= SWEEP_GAP
    requires Fading(s.owners, a, u, gap) && u <= e.now && 0 < e.now
    requires MarksKept(s.owners, e.now)
    ensures var t := Apply(envid, s, e).owners; var last' := if e.call.SweepBy? then e.now else last;
      Fading(t, a, u, gap) && ClockKept(t, last')
  {
    OwnersOf(envid, s, e);
    match e.call
    case SweepBy(me, heartbeat) =>
      FadingSweep(s.owners, e, a, u, last, gap);
      ClockStep(s.owners, me, heartbeat, e.subs, e.now, last, gap);
    case _ =>
  }

  /** An owner seen subscribed, silent and unsubscribed from u on, is dropped
      before u + 2.5 s + 2 (gap + 0.5 s). */
  lemma {:induction false} PresenceBound(envid: Bytes -> Bytes, s: Store, es: seq<Event>, a: Owner, u: int, t: int,
      last: int, gap: int, until: int)
    requires ProperRun(envid, s, es) && Silent(es, a) && RoomyRun(envid, s, es) && Paced(es, last, gap, until)
    requires forall i :: 0 <= i < |es| ==> a !in es[i].subs
    requires gap + CLOCK_STEP <= SWEEP_GAP && ClockKept(s.owners, last) && Fading(s.owners, a, u, gap)
    requires Timely(t, es) && u <= t && 0 < t && MarksKept(s.owners, t)
    ensures u + PRESENCE_GRACE + 2 * (gap + CLOCK_STEP) <= until ==> a !in Run(envid, s, es).owners.heartbeats
    decreases |es|
  {
    if es != [] {
      FadingStep(envid, s, es[0], a, u, last, gap);
      MarksKeptStep(envid, s, es[0], t);
      PresenceBound(envid, Apply(envid, s, es[0]), es[1..], a, u, es[0].now,
                    if es[0].call.SweepBy? then es[0].now else last, gap, until);
    }
  }

  // ---- with more than 100 expired owners ----

  /** The owners whose heartbeats run out before a's: those reaped before it. */
  function InFront(o: Owners, a: Owner): set<Owner> {
    if a in o.heartbeats then Ahead(o.heartbeats, a) else {}
  }

  function Sweeps(es: seq<Event>): nat {
    if es == [] then 0 else (if es[0].call.SweepBy? then 1 else 0) + Sweeps(es[1..])
  }

  /** Every sweep of the run comes after h and finds no stall. */
  predicate LateSweeps(envid: Bytes -> Bytes, s: Store, es: seq<Event>, h: int)
    decreases |es|
  {
    es == [] || (h <= es[0].now
                 && (es[0].call.SweepBy? ==> s.owners.clock.Some? && !Stalled(s.owners, es[0].now))
                 && LateSweeps(envid, Apply(envid, s, es[0]), es[1..], h))
  }

  /** An expired owner's place among all owners: as many are in front of it. */
  lemma PlaceOf(z: Zset, now: int, a: Owner) returns (k: nat)
    requires a in z && z[a] <= now
    ensures k < |UpTo(z, now)| && UpTo(z, now) <= Order(z)
    ensures Order(z)[k] == a && Ahead(z, a) == Members(Order(z)[..k]) && |Ahead(z, a)| == k
  {
    OrderIsOrder(z);
    UpToIsPrefix(z, now);
    UpToMembers(z, now);
    assert a in UpTo(z, now);
    k :| 0 <= k < |UpTo(z, now)| && UpTo(z, now)[k] == a;
    AheadOfPlace(z, Order(z), k);
  }

  /** A sweep that expires up to n owners takes a when fewer than n are in front
      of it, and n of those in front of it otherwise. */
  lemma ExpiredAreFirst(z: Zset, now: int, a: Owner, n: nat)
    requires a in z && z[a] <= now
    ensures |Ahead(z, a)| < n ==> a in Take(UpTo(z, now), n)
    ensures |Ahead(z, a)| >= n ==>
              Members(Take(UpTo(z, now), n)) <= Ahead(z, a) && |Members(Take(UpTo(z, now), n))| == n
  {
    var k := PlaceOf(z, now, a);
    var first := Take(UpTo(z, now), n);
    if k < n {
      assert first[k] == a;
    } else {
      FirstDistinct(z, n);
      assert first == Order(z)[..n];
      assert forall i :: 0 <= i < n ==> first[i] == Order(z)[..k][i];
    }
  }

  lemma FirstDistinct(z: Zset, n: nat)
    requires n <= |Order(z)|
    ensures |Members(Order(z)[..n])| == n
  {
    OrderIsOrder(z);
    OrderDistinct(z, Order(z));
    DistinctCount(Order(z)[..n]);
  }

  /** Raising or dropping others' heartbeats brings nobody in front of a. */
  lemma AheadShrinks(z: Zset, z': Zset, a: Owner)
    requires a in z && a in z' && z[a] == z'[a]
    requires forall m :: m in z' && (m !in z || z'[m] != z[m]) ==> z'[a] < z'[m]
    ensures Ahead(z', a) <= Ahead(z, a)
  {}

  lemma RankSweep(o: Owners, me: Owner, heartbeat: int, subs: set<Owner>, now: int, a: Owner)
    requires me != a && o.clock.Some? && !Stalled(o, now)
    requires a in o.heartbeats && o.heartbeats[a] <= now
    ensures var o' := SweptOwners(o, me, heartbeat, subs, now);
      if |InFront(o, a)| < MAX_EXPIRED then a !in o'.heartbeats
      else |InFront(o', a)| <= |InFront(o, a)| - MAX_EXPIRED
    ensures var o' := SweptOwners(o, me, heartbeat, subs, now);
      a in o'.heartbeats ==> o'.heartbeats[a] == o.heartbeats[a]
  {
    var p := Prepared(o, me, heartbeat, now);
    var o' := SweptOwners(o, me, heartbeat, subs, now);
    AheadShrinks(o.heartbeats, p.heartbeats, a);
    SubsetSize(InFront(p, a), InFront(o, a));
    ExpiredAreFirst(p.heartbeats, now, a, MAX_EXPIRED);
    if a in o'.heartbeats {
      var gone := Expired(p, now);
      assert gone <= InFront(p, a) && |gone| == MAX_EXPIRED;
      AheadShrinks(p.heartbeats, o'.heartbeats, a);
      assert InFront(o', a) <= InFront(p, a) - gone;
      SubsetSize(InFront(o', a), InFront(p, a) - gone);
    }
  }

  /** A call after h brings nobody in front of an owner whose heartbeat ran out at h. */
  lemma RankStep(envid: Bytes -> Bytes, s: Store, e: Event, a: Owner, h: int)
    requires Proper(s, e) && NotBy(e.call, a) && h <= e.now
    requires e.call.SweepBy? ==> s.owners.clock.Some? && !Stalled(s.owners, e.now)
    requires a in s.owners.heartbeats && s.owners.heartbeats[a] == h
    ensures var t := Apply(envid, s, e).owners;
      a in t.heartbeats ==>
        && t.heartbeats[a] == h
        && |InFront(t, a)| <= |InFront(s.owners, a)| - (if e.call.SweepBy? then MAX_EXPIRED else 0)
  {
    OwnersOf(envid, s, e);
    var t := OwnersStep(s, e);
    match e.call
    case SweepBy(me, heartbeat) => RankSweep(s.owners, me, heartbeat, e.subs, e.now, a);
    case _ =>
      AheadShrinks(s.owners.heartbeats, t.heartbeats, a);
      SubsetSize(InFront(t, a), InFront(s.owners, a));
  }

  lemma {:induction false} RankBound(envid: Bytes -> Bytes, s: Store, es: seq<Event>, a: Owner, h: int)
    requires ProperRun(envid, s, es) && Silent(es, a) && LateSweeps(envid, s, es, h)
    requires a in s.owners.heartbeats ==> s.owners.heartbeats[a] == h
    ensures a in Run(envid, s, es).owners.heartbeats ==>
              a in s.owners.heartbeats && MAX_EXPIRED * Sweeps(es) <= |InFront(s.owners, a)|
    decreases |es|
  {
    if es != [] {
      if a in s.owners.heartbeats {
        RankStep(envid, s, es[0], a, h);
        RankBound(envid, Apply(envid, s, es[0]), es[1..], a, h);
      } else {
        UnseenRun(envid, s, es, a);
      }
    }
  }

  lemma UnseenSweep(o: Owners, me: Owner, heartbeat: int, subs: set<Owner>, now: int, a: Owner)
    requires me != a && a !in o.heartbeats
    ensures a !in SweptOwners(o, me, heartbeat, subs, now).heartbeats
  {}

  lemma UnseenStep(envid: Bytes -> Bytes, s: Store, e: Event, a: Owner)
    requires Proper(s, e) && NotBy(e.call, a) && a !in s.owners.heartbeats
    ensures a !in Apply(envid, s, e).owners.heartbeats
  {
    OwnersOf(envid, s, e);
    match e.call
    case SweepBy(me, heartbeat) => UnseenSweep(s.owners, me, heartbeat, e.subs, e.now, a);
    case _ =>
  }

  /** A silent owner without a heartbeat gets none. */
  lemma {:induction false} UnseenRun(envid: Bytes -> Bytes, s: Store, es: seq<Event>, a: Owner)
    requires ProperRun(envid, s, es) && Silent(es, a) && a !in s.owners.heartbeats
    ensures a !in Run(envid, s, es).owners.heartbeats
    decreases |es|
  {
    if es != [] {
      UnseenStep(envid, s, es[0], a);
      UnseenRun(envid, Apply(envid, s, es[0]), es[1..], a);
    }
  }

  /** With k owners in front of it, k/100 + 1 sweeps after its heartbeat ran out
      drop a silent owner. */
  lemma SweepsNeeded(envid: Bytes -> Bytes, s: Store, es: seq<Event>, a: Owner, h: int)
    requires ProperRun(envid, s, es) && Silent(es, a) && LateSweeps(envid, s, es, h)
    requires a in s.owners.heartbeats && s.owners.heartbeats[a] == h
    requires Sweeps(es) >= |InFront(s.owners, a)| / MAX_EXPIRED + 1
    ensures a !in Run(envid, s, es).owners.heartbeats
  {
    RankBound(envid, s, es, a, h);
  }

  // ---- the dropped owner's items ----

  /** Once its owner is dropped, an item is no longer pending: all of a dead
      owner's items are back by its heartbeat score plus one sweep gap, and, if
      it was seen subscribed, before u + 2.5 s + 2 (gap + 0.5 s). */
  lemma DeadOwnersItemsReturn(envid: Bytes -> Bytes, ranked: bool, before: seq<Event>, es: seq<Event>, a: Owner,
                              u: int, h: int, last: int, gap: int, until: int)
    requires Timely(0, before + es) && ProperRun(envid, Empty(ranked), before + es)
    requires forall i :: 0 <= i < |before| ==> BeatsFor(before[i].call, a)
    requires var s := Run(envid, Empty(ranked), before);
      && Silent(es, a) && RoomyRun(envid, s, es) && Paced(es, last, gap, until)
      && gap + CLOCK_STEP <= SWEEP_GAP && ClockKept(s.owners, last)
      && (a in s.owners.heartbeats ==> s.owners.heartbeats[a] == h && last < h)
      && Timely(u, es) && 0 < u && (before != [] ==> before[|before| - 1].now <= u)
    requires h + gap <= until
             || (u + PRESENCE_GRACE + 2 * (gap + CLOCK_STEP) <= until
                 && (forall i :: 0 <= i < |es| ==> a !in es[i].subs)
                 && var s := Run(envid, Empty(ranked), before); a in s.owners.heartbeats ==> a in s.owners.presence)
    ensures forall id :: id in Run(envid, Empty(ranked), before + es).work.pending.nacked ==> OwnerOf(id) != a
  {
    var s := Run(envid, Empty(ranked), before);
    RunConcat(envid, Empty(ranked), before, es);
    TimelyPrefix(0, before, es);
    MarksKeptRun(envid, Empty(ranked), before, 0);
    if h + gap <= until {
      ExpiryBound(envid, s, es, a, h, last, gap, until);
    } else {
      PresenceBound(envid, s, es, a, u, u, last, gap, until);
    }
    WatchedForRun(envid, Empty(ranked), before, a);
    forall i | 0 <= i < |es| ensures BeatsFor(es[i].call, a) {
      assert NotBy(es[i].call, a);
    }
    WatchedForRun(envid, s, es, a);
  }
}

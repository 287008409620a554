/** No pending item is without an owner the sweeps watch, and no mark is without
    a heartbeat. */
module Orphans {
  import opened ByteStrings
  import opened SortedSets
  import opened AckIds
  import opened Store
  import opened Runs
  import opened Effects
  import opened PendingKeys
  import opened FailureDetector

  /** Marks are of owners with a heartbeat, and none is later than the clock,
      which is no later than t. */
  predicate MarksKept(o: Owners, t: int) {
    && o.presence.Keys <= o.heartbeats.Keys
    && (o.clock.Some? ==> o.clock.value <= t)
    && (forall m :: m in o.presence ==> o.clock.Some? && 0 <= o.presence[m] <= o.clock.value)
  }

  /** Every pending item's owner has a heartbeat. */
  predicate Watched(s: Store) {
    forall id :: id in s.work.pending.nacked ==> OwnerOf(id) in s.owners.heartbeats
  }

  lemma PreparedMarksKept(o: Owners, me: Owner, heartbeat: int, now: int, t: int)
    requires MarksKept(o, t) && t <= now && 0 <= now
    ensures MarksKept(Prepared(o, me, heartbeat, now), now)
    ensures Ticks(o, now) ==> Prepared(o, me, heartbeat, now).clock == Some(now)
  {}

  lemma MarkedKept(p: Owners, dead: set<Owner>, subs: set<Owner>, now: int)
    requires MarksKept(p, now) && p.clock == Some(now) && 0 <= now
    ensures MarksKept(p.(heartbeats := p.heartbeats - dead,
                         presence := Marked(p.presence, Live(p, now), subs, now) - dead), now)
  {
    forall m | m in Marked(p.presence, Live(p, now), subs, now) ensures m in p.heartbeats {
      if m in Live(p, now) {
        LiveOnly(p, now, m);
      }
    }
  }

  lemma SweptMarksKept(o: Owners, me: Owner, heartbeat: int, subs: set<Owner>, now: int, t: int)
    requires MarksKept(o, t) && t <= now && 0 <= now
    ensures MarksKept(SweptOwners(o, me, heartbeat, subs, now), now)
  {
    PreparedMarksKept(o, me, heartbeat, now, t);
    if Ticks(o, now) {
      MarkedKept(Prepared(o, me, heartbeat, now), SweptAway(o, me, heartbeat, subs, now), subs, now);
    }
  }

  lemma MarksKeptStep(envid: Bytes -> Bytes, s: Store, e: Event, t: int)
    requires MarksKept(s.owners, t) && t <= e.now && 0 <= e.now && Proper(s, e)
    ensures MarksKept(Apply(envid, s, e).owners, e.now)
  {
    OwnersOf(envid, s, e);
    match e.call
    case SweepBy(me, heartbeat) => SweptMarksKept(s.owners, me, heartbeat, e.subs, e.now, t);
    case _ =>
  }

  /** The call carries a positive heartbeat timeout, if it carries one. */
  predicate Beating(c: Call) {
    && (c.SweepBy? ==> c.heartbeat > 0)
    && (c.PopBy? ==> c.pop.heartbeat > 0)
  }

  /** What a call does to the pending IDs: a pop adds its own, all else only removes. */
  lemma NackedStep(envid: Bytes -> Bytes, s: Store, e: Event)
    requires Proper(s, e)
    ensures var n := Apply(envid, s, e).work.pending.nacked;
      n.Keys <= s.work.pending.nacked.Keys + (if e.call.PopBy? then Members(HandedOut(s, e.call.pop)) else {})
  {
    WorkOf(envid, s, e);
    match e.call
    case PopBy(_, p) =>
      var ids := HandedOut(s, p);
      PutKeys(s.work.pending.nacked, ids, FrontItems(s.work.queue, |ids|));
    case RequeueExpired(_, _) => MoveAllNacked(envid, s.work, RequeuedIds(s, e));
    case CloseBy(_) => MoveAllNacked(envid, s.work, RequeuedIds(s, e));
    case SweepBy(_, _) => SweptNacked(envid, s.work, DeadIn(s, e), e.now);
    case _ =>
  }

  /** A sweep takes the overdue items and the dead owners', and no others. */
  lemma SweptNacked(envid: Bytes -> Bytes, w: Work, dead: set<Owner>, now: int)
    ensures var (n, n') := (w.pending.nacked, SweptWork(envid, w, dead, now).pending.nacked);
      && n'.Keys <= n.Keys
      && (forall id :: id in n' ==> n'[id] == n[id])
      && (forall id :: id in n ==>
            (id !in n' <==> OwnerOf(id) in dead || (id in w.pending.timeouts && w.pending.timeouts[id] <= now)))
  {
    var due := UpTo(w.pending.timeouts, now);
    UpToMembers(w.pending.timeouts, now);
    MoveAllNacked(envid, w, due);
    var w' := MoveAll(envid, w, due);
    SortedStringsMembers(OwnedIds(w'.pending.nacked, dead));
    MoveAllNacked(envid, w', SortedStrings(OwnedIds(w'.pending.nacked, dead)));
  }

  /** A release takes the owner's items, and no others. */
  lemma ReleasedNacked(envid: Bytes -> Bytes, w: Work, owner: Owner)
    requires IsOwner(owner)
    ensures var (n, n') := (w.pending.nacked,
      MoveAll(envid, w, SortedStrings(IdsWithPrefix(w.pending.nacked, owner))).pending.nacked);
      && n'.Keys <= n.Keys
      && (forall id :: id in n' ==> n'[id] == n[id])
      && (forall id :: id in n ==> (id !in n' <==> OwnerOf(id) == owner))
  {
    var ids := IdsWithPrefix(w.pending.nacked, owner);
    SortedStringsMembers(ids);
    MoveAllNacked(envid, w, SortedStrings(ids));
    forall id | id in w.pending.nacked ensures id in ids <==> OwnerOf(id) == owner {
      SegmentIsPrefix(id, owner);
    }
  }

  /** Every item pending for the owner is backed by its heartbeat. */
  predicate WatchedFor(s: Store, a: Owner) {
    (exists id :: id in s.work.pending.nacked && OwnerOf(id) == a) ==> a in s.owners.heartbeats
  }

  /** The owner's own calls carry a positive heartbeat timeout. */
  predicate BeatsFor(c: Call, a: Owner) {
    && (c.SweepBy? && c.me == a ==> c.heartbeat > 0)
    && (c.PopBy? && c.pop.owner == a ==> c.pop.heartbeat > 0)
  }

  /** The owner's pending items come from its own pops. */
  lemma StillHeld(envid: Bytes -> Bytes, s: Store, e: Event, id: Id)
    requires Proper(s, e) && id in Apply(envid, s, e).work.pending.nacked
    ensures id in s.work.pending.nacked
            || (e.call.PopBy? && OwnerOf(id) == e.call.pop.owner && HandedOut(s, e.call.pop) != [])
    ensures e.call.SweepBy? ==> OwnerOf(id) !in DeadIn(s, e)
    ensures e.call.CloseBy? ==> OwnerOf(id) != e.call.me
  {
    NackedStep(envid, s, e);
    WorkOf(envid, s, e);
    match e.call
    case PopBy(_, p) =>
      AckIdsOfCall(p.owner, p.reservation, p.want);
      assert forall i :: 0 <= i < |HandedOut(s, p)| ==> HandedOut(s, p)[i] == IdsOf(p)[i];
    case SweepBy(_, _) => SweptNacked(envid, s.work, DeadIn(s, e), e.now);
    case CloseBy(me) => ReleasedNacked(envid, s.work, me);
    case _ =>
  }

  /** No call drops the heartbeat of an owner but a sweep that takes it for dead,
      its Close, or its own sweep with the heartbeat turned off. */
  lemma HeartbeatStays(envid: Bytes -> Bytes, s: Store, e: Event, a: Owner)
    requires Proper(s, e) && a in s.owners.heartbeats && a !in DeadIn(s, e)
    requires !(e.call.CloseBy? && e.call.me == a) && BeatsFor(e.call, a)
    ensures a in Apply(envid, s, e).owners.heartbeats
  {
    OwnersOf(envid, s, e);
  }

  lemma HeartbeatComes(envid: Bytes -> Bytes, s: Store, e: Event, a: Owner)
    requires Proper(s, e) && BeatsFor(e.call, a)
    requires e.call.PopBy? && e.call.pop.owner == a && HandedOut(s, e.call.pop) != []
    ensures a in Apply(envid, s, e).owners.heartbeats
  {
    OwnersOf(envid, s, e);
  }

  lemma WatchedForStep(envid: Bytes -> Bytes, s: Store, e: Event, a: Owner)
    requires WatchedFor(s, a) && Proper(s, e) && BeatsFor(e.call, a)
    ensures WatchedFor(Apply(envid, s, e), a)
  {
    if id :| id in Apply(envid, s, e).work.pending.nacked && OwnerOf(id) == a {
      StillHeld(envid, s, e, id);
      if id in s.work.pending.nacked {
        HeartbeatStays(envid, s, e, a);
      } else {
        HeartbeatComes(envid, s, e, a);
      }
    }
  }

  lemma {:induction false} WatchedForRun(envid: Bytes -> Bytes, s: Store, es: seq<Event>, a: Owner)
    requires WatchedFor(s, a) && ProperRun(envid, s, es) && forall i :: 0 <= i < |es| ==> BeatsFor(es[i].call, a)
    ensures WatchedFor(Run(envid, s, es), a)
    decreases |es|
  {
    if es != [] {
      WatchedForStep(envid, s, es[0], a);
      WatchedForRun(envid, Apply(envid, s, es[0]), es[1..], a);
    }
  }

  lemma {:induction false} MarksKeptRun(envid: Bytes -> Bytes, s: Store, es: seq<Event>, t: int)
    requires MarksKept(s.owners, t) && 0 <= t && Timely(t, es) && ProperRun(envid, s, es)
    ensures MarksKept(Run(envid, s, es).owners, if es == [] then t else es[|es| - 1].now)
    decreases |es|
  {
    if es != [] {
      MarksKeptStep(envid, s, es[0], t);
      MarksKeptRun(envid, Apply(envid, s, es[0]), es[1..], es[0].now);
    }
  }

  /** The same of all owners, when every call beats. */
  lemma {:induction false} AllWatched(envid: Bytes -> Bytes, s: Store, es: seq<Event>)
    requires Watched(s) && ProperRun(envid, s, es) && forall i :: 0 <= i < |es| ==> Beating(es[i].call)
    ensures Watched(Run(envid, s, es))
  {
    var t := Run(envid, s, es);
    forall id | id in t.work.pending.nacked ensures OwnerOf(id) in t.owners.heartbeats {
      WatchedForRun(envid, s, es, OwnerOf(id));
    }
  }

  /** While every pop and sweep uses a positive heartbeat timeout, no reachable
      state has a pending item without its owner's heartbeat, a mark without a
      heartbeat or later than the clock, or a stray start time, deadline or score. */
  lemma NoOrphans(envid: Bytes -> Bytes, ranked: bool, es: seq<Event>)
    requires Timely(0, es) && ProperRun(envid, Empty(ranked), es) && forall i :: 0 <= i < |es| ==> Beating(es[i].call)
    ensures var t := Run(envid, Empty(ranked), es);
      && (forall id :: id in t.work.pending.nacked ==> OwnerOf(id) in t.owners.heartbeats)
      && t.owners.presence.Keys <= t.owners.heartbeats.Keys
      && (forall m :: m in t.owners.presence ==> t.owners.clock.Some? && t.owners.presence[m] <= t.owners.clock.value)
      && t.work.pending.started.Keys == t.work.pending.nacked.Keys
      && t.work.pending.timeouts.Keys <= t.work.pending.nacked.Keys
      && t.work.pending.prio.Keys <= t.work.pending.nacked.Keys
  {
    AllWatched(envid, Empty(ranked), es);
    MarksKeptRun(envid, Empty(ranked), es, 0);
    EmptyIsSound(ranked);
    SoundRun(envid, Empty(ranked), es);
  }
}

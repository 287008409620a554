/** A stall of Redis, or of every process, makes no owner look dead: a sweep
    after one judges by how things stood when the clock last moved, and the
    stall's length is irrelevant. */
module StallGuard {
  import opened SortedSets
  import opened AckIds
  import opened Store
  import opened FailureDetector

  /** Marks are 0 or a time. */
  predicate MarksAreTimes(o: Owners) {
    forall m :: m in o.presence ==> 0 <= o.presence[m]
  }

  /** After a stall, expiry reaps only owners whose heartbeat had run out when
      the clock last moved, and presence only those whose mark was 2.5 s old then. */
  lemma StallJudgesByTheClock(o: Owners, me: Owner, heartbeat: int, subs: set<Owner>, now: int, m: Owner)
    requires Stalled(o, now) && MarksAreTimes(o)
    requires m in SweptAway(o, me, heartbeat, subs, now)
    ensures m != me && m in o.heartbeats
    ensures o.heartbeats[m] <= o.clock.value
            || (m in o.presence && m !in subs && o.presence[m] > 0 && o.clock.value - o.presence[m] >= PRESENCE_GRACE)
  {
    var p := Prepared(o, me, heartbeat, now);
    if m in Expired(p, now) {
      ExpiredOnly(p, now, m);
    } else {
      LiveOnly(p, now, m);
    }
  }

  predicate OffsetBy(z: Zset, z': Zset, d: int) {
    z.Keys == z'.Keys && forall m :: m in z ==> z'[m] == z[m] + d
  }

  lemma OffsetUpTo(z: Zset, z': Zset, d: int, hi: int)
    requires OffsetBy(z, z', d)
    ensures UpTo(z, hi) == UpTo(z', hi + d)
  {
    SameOrder(map m | m in z && z[m] <= hi :: z[m], map m | m in z' && z'[m] <= hi + d :: z'[m]);
  }

  lemma OffsetFrom(z: Zset, z': Zset, d: int, lo: int)
    requires OffsetBy(z, z', d)
    ensures From(z, lo) == From(z', lo + d)
  {
    SameOrder(map m | m in z && lo <= z[m] :: z[m], map m | m in z' && lo + d <= z'[m] :: z'[m]);
  }

  lemma PreparedAfterStall(o: Owners, me: Owner, heartbeat: int, now: int, now': int)
    requires Stalled(o, now) && Stalled(o, now') && MarksAreTimes(o)
    ensures var (p, p') := (Prepared(o, me, heartbeat, now), Prepared(o, me, heartbeat, now'));
      && OffsetBy(p.heartbeats, p'.heartbeats, now' - now)
      && p.presence.Keys == p'.presence.Keys
      && forall m :: m in p.presence ==>
           if p.presence[m] == 0 then p'.presence[m] == 0
           else 0 != p'.presence[m] == p.presence[m] + (now' - now)
  {}

  /** Whatever the length of the stall, the same owners are taken for dead. */
  lemma StallLengthIsIrrelevant(o: Owners, me: Owner, heartbeat: int, subs: set<Owner>, now: int, now': int)
    requires Stalled(o, now) && Stalled(o, now') && MarksAreTimes(o)
    ensures SweptAway(o, me, heartbeat, subs, now) == SweptAway(o, me, heartbeat, subs, now')
  {
    var (p, p') := (Prepared(o, me, heartbeat, now), Prepared(o, me, heartbeat, now'));
    PreparedAfterStall(o, me, heartbeat, now, now');
    SameDead(p, p', subs, now, now');
  }

  lemma SameDead(p: Owners, p': Owners, subs: set<Owner>, now: int, now': int)
    requires OffsetBy(p.heartbeats, p'.heartbeats, now' - now) && p.presence.Keys == p'.presence.Keys
    requires forall m :: m in p.presence ==>
      if p.presence[m] == 0 then p'.presence[m] == 0
      else 0 != p'.presence[m] == p.presence[m] + (now' - now)
    ensures Dead(p, true, subs, now) == Dead(p', true, subs, now')
  {
    OffsetUpTo(p.heartbeats, p'.heartbeats, now' - now, now);
    OffsetFrom(p.heartbeats, p'.heartbeats, now' - now, now);
    assert Live(p, now) == Live(p', now');
    forall m ensures m in Gone(p, subs, now) <==> m in Gone(p', subs, now') {}
  }
}

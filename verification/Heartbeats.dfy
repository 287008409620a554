/** What a sweep does to every owner, in the numbers themselves: where a heartbeat's
    score comes from, who is taken for dead, and when a stopped owner is. */
module Heartbeats {
  import opened ByteStrings
  import opened SortedSets
  import opened AckIds
  import opened Store
  import opened Runs
  import opened Effects
  import opened Orphans
  import opened DeadOwner

  // ---- what a sweep finds, and whom it takes for dead ----

  /** How long nobody swept, when that is more than the normal 2 s. */
  function StallAt(o: Owners, now: int): int {
    if o.clock.Some? && now - o.clock.value > 2_000_000 then now - o.clock.value else 0
  }

  /** An owner's heartbeat once the sweeper has renewed its own: by its timeout from
      now, or gone with no timeout; a stall moves the others on. */
  function ScoreFound(o: Owners, me: Owner, heartbeat: int, now: int, a: Owner): Option<int> {
    if a !in o.heartbeats || (me == a && heartbeat <= 0) then None
    else if me == a then Some(now + heartbeat)
    else Some(o.heartbeats[a] + StallAt(o, now))
  }

  /** Its mark: the sweeper's own is cleared, and a stall moves those above 0 on. */
  function MarkFound(o: Owners, me: Owner, heartbeat: int, now: int, a: Owner): Option<int> {
    if a !in o.presence || (me == a && a in o.heartbeats && heartbeat <= 0) then None
    else if me == a && a in o.heartbeats then Some(0)
    else if o.presence[a] > 0 then Some(o.presence[a] + StallAt(o, now))
    else Some(o.presence[a])
  }

  /** The owners whose heartbeats run out before a's. */
  function FrontFound(o: Owners, me: Owner, heartbeat: int, now: int, a: Owner): set<Owner>
    requires ScoreFound(o, me, heartbeat, now, a).Some?
  {
    var h := ScoreFound(o, me, heartbeat, now, a).value;
    set m | m in o.heartbeats && ScoreFound(o, me, heartbeat, now, m).Some?
            && (ScoreFound(o, me, heartbeat, now, m).value < h
                || (ScoreFound(o, me, heartbeat, now, m).value == h && Lex(m, a)))
  }

  function LiveInFront(o: Owners, me: Owner, heartbeat: int, now: int, a: Owner): set<Owner>
    requires ScoreFound(o, me, heartbeat, now, a).Some?
  {
    set m | m in FrontFound(o, me, heartbeat, now, a) && now <= ScoreFound(o, me, heartbeat, now, m).value
  }

  /** The sweep moves the clock: half a second has passed, or it ran back. */
  predicate MovesClock(o: Owners, now: int) {
    o.clock.None? || now - o.clock.value >= 500_000 || now < o.clock.value
  }

  /** Its heartbeat ran out, and it is among the first 100 to. */
  predicate RanOut(o: Owners, me: Owner, heartbeat: int, now: int, a: Owner) {
    var h := ScoreFound(o, me, heartbeat, now, a);
    h.Some? && h.value <= now && |FrontFound(o, me, heartbeat, now, a)| < 100
  }

  /** Its subscribers are counted: the first 1000 live owners' are, when the clock moves. */
  predicate IsCounted(o: Owners, me: Owner, heartbeat: int, now: int, a: Owner) {
    var h := ScoreFound(o, me, heartbeat, now, a);
    MovesClock(o, now) && h.Some? && now <= h.value && |LiveInFront(o, me, heartbeat, now, a)| < 1000
  }

  /** It was seen subscribed once, and for 2.5 s has not been. */
  predicate WentAway(o: Owners, me: Owner, heartbeat: int, subs: set<Owner>, now: int, a: Owner) {
    var m := MarkFound(o, me, heartbeat, now, a);
    IsCounted(o, me, heartbeat, now, a) && a !in subs && m.Some? && m.value != 0 && now - m.value >= 2_500_000
  }

  lemma PreparedIsFound(o: Owners, me: Owner, heartbeat: int, now: int, a: Owner)
    ensures var (p, h, m) := (Prepared(o, me, heartbeat, now), ScoreFound(o, me, heartbeat, now, a),
                              MarkFound(o, me, heartbeat, now, a));
      && (a in p.heartbeats <==> h.Some?) && (h.Some? ==> p.heartbeats[a] == h.value)
      && (a in p.presence <==> m.Some?) && (m.Some? ==> p.presence[a] == m.value)
      && (a in p.heartbeats ==> a in o.heartbeats)
      && (Ticks(o, now) <==> MovesClock(o, now))
      && p.clock == if MovesClock(o, now) then Some(now) else o.clock
  {}

  lemma FrontIsFound(o: Owners, me: Owner, heartbeat: int, now: int, a: Owner)
    requires ScoreFound(o, me, heartbeat, now, a).Some?
    ensures var z := Prepared(o, me, heartbeat, now).heartbeats;
      && a in z && (forall m :: m in FrontFound(o, me, heartbeat, now, a) <==> m in z && Before(z, m, a))
  {
    var z := Prepared(o, me, heartbeat, now).heartbeats;
    PreparedIsFound(o, me, heartbeat, now, a);
    forall m ensures m in FrontFound(o, me, heartbeat, now, a) <==> m in z && Before(z, m, a) {
      PreparedIsFound(o, me, heartbeat, now, m);
    }
  }

  lemma FrontIsAhead(o: Owners, me: Owner, heartbeat: int, now: int, a: Owner, low: Zset)
    requires var z := Prepared(o, me, heartbeat, now).heartbeats; low == map m | m in z && z[m] <= now :: z[m]
    requires ScoreFound(o, me, heartbeat, now, a).Some? && a in low
    ensures Ahead(low, a) == FrontFound(o, me, heartbeat, now, a)
  {
    FrontIsFound(o, me, heartbeat, now, a);
    assert forall m :: m in Ahead(low, a) <==> m in FrontFound(o, me, heartbeat, now, a);
  }

  lemma RanOutIsExpired(o: Owners, me: Owner, heartbeat: int, now: int, a: Owner)
    ensures a in Expired(Prepared(o, me, heartbeat, now), now) <==> RanOut(o, me, heartbeat, now, a)
  {
    var z := Prepared(o, me, heartbeat, now).heartbeats;
    var low := map m | m in z && z[m] <= now :: z[m];
    PreparedIsFound(o, me, heartbeat, now, a);
    if a in low {
      AmongFirst(low, a, 100);
      FrontIsAhead(o, me, heartbeat, now, a, low);
    } else {
      OrderIsOrder(low);
    }
  }

  lemma CountedIsLive(o: Owners, me: Owner, heartbeat: int, now: int, a: Owner)
    ensures MovesClock(o, now) && a in Live(Prepared(o, me, heartbeat, now), now)
            <==> IsCounted(o, me, heartbeat, now, a)
  {
    var z := Prepared(o, me, heartbeat, now).heartbeats;
    var high := map m | m in z && now <= z[m] :: z[m];
    PreparedIsFound(o, me, heartbeat, now, a);
    if a in high {
      AmongFirst(high, a, 1000);
      LiveFrontIsFound(o, me, heartbeat, now, a, high);
    } else {
      OrderIsOrder(high);
    }
  }

  lemma LiveFrontIsFound(o: Owners, me: Owner, heartbeat: int, now: int, a: Owner, high: Zset)
    requires var z := Prepared(o, me, heartbeat, now).heartbeats; high == map m | m in z && now <= z[m] :: z[m]
    requires ScoreFound(o, me, heartbeat, now, a).Some? && a in high
    ensures Ahead(high, a) == LiveInFront(o, me, heartbeat, now, a)
  {
    FrontIsFound(o, me, heartbeat, now, a);
    forall m ensures m in Ahead(high, a) <==> m in LiveInFront(o, me, heartbeat, now, a) {
      PreparedIsFound(o, me, heartbeat, now, m);
    }
  }

  /** A sweep takes an owner for dead exactly when there was a clock before it and
      the owner's heartbeat ran out or it went away. */
  lemma ReapedExactly(o: Owners, me: Owner, heartbeat: int, subs: set<Owner>, now: int, a: Owner)
    ensures a in SweptAway(o, me, heartbeat, subs, now)
            <==> o.clock.Some?
                 && (RanOut(o, me, heartbeat, now, a) || WentAway(o, me, heartbeat, subs, now, a))
  {
    RanOutIsExpired(o, me, heartbeat, now, a);
    CountedIsLive(o, me, heartbeat, now, a);
    PreparedIsFound(o, me, heartbeat, now, a);
  }

  /** The mark a sweep leaves of an owner it does not take for dead. */
  function MarkLeft(o: Owners, me: Owner, heartbeat: int, subs: set<Owner>, now: int, a: Owner): Option<int> {
    var m := MarkFound(o, me, heartbeat, now, a);
    if o.clock.None? || !IsCounted(o, me, heartbeat, now, a) then m
    else if a in subs then Some(0)
    else if m == Some(0) then Some(now)
    else m
  }

  /** What a sweep leaves: the scores and marks of those it does not take for dead,
      and the clock at now unless it moved less than half a second ago. */
  lemma SweepLeaves(o: Owners, me: Owner, heartbeat: int, subs: set<Owner>, now: int, a: Owner)
    ensures var o' := SweptOwners(o, me, heartbeat, subs, now);
      var (h, m) := (ScoreFound(o, me, heartbeat, now, a), MarkLeft(o, me, heartbeat, subs, now, a));
      var dies := a in SweptAway(o, me, heartbeat, subs, now);
      && (a in o'.heartbeats <==> h.Some? && !dies) && (a in o'.heartbeats ==> o'.heartbeats[a] == h.value)
      && (a in o'.presence <==> m.Some? && !dies) && (a in o'.presence ==> o'.presence[a] == m.value)
      && o'.clock == if MovesClock(o, now) then Some(now) else o.clock
  {
    PreparedIsFound(o, me, heartbeat, now, a);
    CountedIsLive(o, me, heartbeat, now, a);
  }

  /** A sweep says its owner's heartbeat had lapsed exactly when it was missing, or
      ran out before now with a stall not counted. */
  lemma LapsedExactly(o: Owners, me: Owner, now: int)
    ensures Lapsed(o, me, now) <==> me !in o.heartbeats || o.heartbeats[me] + StallAt(o, now) < now
  {}

  // ---- every call ----

  /** The owner's heartbeat after a call that does not take it for dead. */
  function ScoreAfter(s: Store, e: Event, a: Owner): Option<int> {
    var h := if a in s.owners.heartbeats then Some(s.owners.heartbeats[a]) else None;
    match e.call
    case PopBy(_, p) =>
      if p.owner == a && 0 < p.heartbeat && HandedOut(s, p) != [] then Some(e.now + p.heartbeat) else h
    case SweepBy(me, heartbeat) => ScoreFound(s.owners, me, heartbeat, e.now, a)
    case CloseBy(me) => if me == a then None else h
    case _ => h
  }

  /** Only a pop that hands out items adds a heartbeat; only sweeps and pops change
      one; only Close, a sweep without a timeout and being taken for dead drop it. */
  lemma ScoreStep(envid: Bytes -> Bytes, s: Store, e: Event, a: Owner)
    requires Proper(s, e)
    ensures var (z, h) := (Apply(envid, s, e).owners.heartbeats, ScoreAfter(s, e, a));
      (a in z <==> h.Some? && a !in DeadIn(s, e)) && (a in z ==> z[a] == h.value)
  {
    OwnersOf(envid, s, e);
    match e.call
    case SweepBy(me, heartbeat) => SweepLeaves(s.owners, me, heartbeat, e.subs, e.now, a);
    case _ =>
  }

  /** The owner's own call that beats: its sweep while it has a heartbeat, or a pop
      that hands it items. */
  predicate Beats(s: Store, e: Event, a: Owner, heartbeat: int) {
    0 < heartbeat &&
    match e.call
    case SweepBy(me, hb) => me == a && hb == heartbeat && a in s.owners.heartbeats
    case PopBy(_, p) => p.owner == a && p.heartbeat == heartbeat && HandedOut(s, p) != []
    case _ => false
  }

  lemma BeatSets(envid: Bytes -> Bytes, s: Store, e: Event, a: Owner, heartbeat: int)
    requires Proper(s, e) && Beats(s, e, a, heartbeat)
    ensures var z := Apply(envid, s, e).owners.heartbeats; a in z && z[a] == e.now + heartbeat
  {
    ScoreStep(envid, s, e, a);
    if e.call.SweepBy? {
      ReapedExactly(s.owners, a, heartbeat, e.subs, e.now, a);
    }
  }

  /** All the stalls that the sweeps of the run found. */
  function StallsOver(envid: Bytes -> Bytes, s: Store, es: seq<Event>): int
    decreases |es|
  {
    if es == [] then 0
    else
      (if es[0].call.SweepBy? then StallAt(s.owners, es[0].now) else 0)
      + StallsOver(envid, Apply(envid, s, es[0]), es[1..])
  }

  lemma {:induction false} SilentScore(envid: Bytes -> Bytes, s: Store, es: seq<Event>, a: Owner)
    requires ProperRun(envid, s, es) && Silent(es, a)
    ensures var z := Run(envid, s, es).owners.heartbeats;
      a in z ==> a in s.owners.heartbeats && z[a] == s.owners.heartbeats[a] + StallsOver(envid, s, es)
    decreases |es|
  {
    if es != [] {
      ScoreStep(envid, s, es[0], a);
      SilentScore(envid, Apply(envid, s, es[0]), es[1..], a);
    }
  }

  /** After an owner's last beat, as long as it has a heartbeat, that runs out its
      timeout after the beat, stalls not counted. */
  lemma ScoreIsLastBeat(envid: Bytes -> Bytes, s: Store, e: Event, es: seq<Event>, a: Owner, heartbeat: int)
    requires Proper(s, e) && Beats(s, e, a, heartbeat)
    requires ProperRun(envid, Apply(envid, s, e), es) && Silent(es, a)
    ensures var (u, z) := (Apply(envid, s, e), Run(envid, Apply(envid, s, e), es).owners.heartbeats);
      a in z ==> z[a] == e.now + heartbeat + StallsOver(envid, u, es)
  {
    BeatSets(envid, s, e, a, heartbeat);
    SilentScore(envid, Apply(envid, s, e), es, a);
  }

  // ---- when a stopped owner is taken for dead ----

  /** The k-th call is the run's last sweep. */
  predicate LastSweep(es: seq<Event>, k: int) {
    0 <= k < |es| && es[k].call.SweepBy? && forall j :: k < j < |es| ==> !es[j].call.SweepBy?
  }

  lemma ClockStays(envid: Bytes -> Bytes, s: Store, e: Event)
    requires Proper(s, e)
    ensures var c := Apply(envid, s, e).owners.clock;
      if e.call.SweepBy? then c.Some? && c.value <= e.now < c.value + 500_000 else c == s.owners.clock
  {
    OwnersOf(envid, s, e);
    match e.call
    case SweepBy(me, heartbeat) => SweepLeaves(s.owners, me, heartbeat, e.subs, e.now, me);
    case _ =>
  }

  lemma {:induction false} ClockUnswept(envid: Bytes -> Bytes, s: Store, es: seq<Event>)
    requires ProperRun(envid, s, es) && forall j :: 0 <= j < |es| ==> !es[j].call.SweepBy?
    ensures Run(envid, s, es).owners.clock == s.owners.clock
    decreases |es|
  {
    if es != [] {
      ClockStays(envid, s, es[0]);
      ClockUnswept(envid, Apply(envid, s, es[0]), es[1..]);
    }
  }

  /** The clock was moved within half a second before the last sweep. */
  lemma {:induction false} ClockOfRun(envid: Bytes -> Bytes, s: Store, es: seq<Event>, k: int)
    requires ProperRun(envid, s, es) && LastSweep(es, k)
    ensures ClockKept(Run(envid, s, es).owners, es[k].now)
    decreases |es|
  {
    if k == 0 {
      ClockStays(envid, s, es[0]);
      ClockUnswept(envid, Apply(envid, s, es[0]), es[1..]);
    } else {
      ClockOfRun(envid, Apply(envid, s, es[0]), es[1..], k - 1);
    }
  }

  lemma {:induction false} TimelyOrder(t: int, es: seq<Event>, i: int, j: int)
    requires Timely(t, es) && 0 <= i <= j < |es|
    ensures t <= es[i].now <= es[j].now
    decreases |es|
  {
    if i > 0 {
      TimelyOrder(es[0].now, es[1..], i - 1, j - 1);
    } else if j > 0 {
      TimelyOrder(es[0].now, es[1..], 0, j - 1);
    }
  }

  /** In every run: an owner whose last call beats, at u with timeout hb, has no
      heartbeat and nothing pending by u + hb + gap, when the others' sweeps come
      at gaps of at most gap and find few enough owners to look at all of them. */
  lemma DeadByLastBeat(envid: Bytes -> Bytes, ranked: bool, before: seq<Event>, es: seq<Event>, a: Owner,
                       heartbeat: int, k: int, gap: int, until: int)
    requires ProperRun(envid, Empty(ranked), before + es) && Timely(0, before) && before != []
    requires Beats(Run(envid, Empty(ranked), before[..|before| - 1]), before[|before| - 1], a, heartbeat)
    requires LastSweep(before, k) && forall i :: 0 <= i < |before| ==> BeatsFor(before[i].call, a)
    requires Silent(es, a) && RoomyRun(envid, Run(envid, Empty(ranked), before), es)
    requires Paced(es, before[k].now, gap, until) && gap + 500_000 <= 2_000_000
    requires before[|before| - 1].now + heartbeat + gap <= until
    ensures var t := Run(envid, Empty(ranked), before + es);
      && a !in t.owners.heartbeats
      && forall id :: id in t.work.pending.nacked ==> OwnerOf(id) != a
  {
    var (s0, s, n) := (Empty(ranked), Run(envid, Empty(ranked), before), |before| - 1);
    RunConcat(envid, s0, before, es);
    LastBeat(envid, s0, before, a, heartbeat);
    ClockOfRun(envid, s0, before, k);
    TimelyOrder(0, before, k, n);
    ExpiryBound(envid, s, es, a, before[n].now + heartbeat, before[k].now, gap, until);
    WatchedForRun(envid, s0, before, a);
    WatchedForRun(envid, s, es, a);
  }

  lemma LastBeat(envid: Bytes -> Bytes, s: Store, es: seq<Event>, a: Owner, heartbeat: int)
    requires ProperRun(envid, s, es) && es != []
    requires Beats(Run(envid, s, es[..|es| - 1]), es[|es| - 1], a, heartbeat)
    ensures var z := Run(envid, s, es).owners.heartbeats; a in z && z[a] == es[|es| - 1].now + heartbeat
  {
    var n := |es| - 1;
    assert es == es[..n] + [es[n]];
    RunConcat(envid, s, es[..n], [es[n]]);
    RunSnoc(envid, s, es);
    BeatSets(envid, Run(envid, s, es[..n]), es[n], a, heartbeat);
  }
}

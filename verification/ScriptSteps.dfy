/** The single steps of the scripts' loops, on values: what class Redis needs to
    know of each. */
module ScriptSteps {
  import opened ByteStrings
  import opened SortedSets
  import opened AckIds
  import opened WaitingQueue
  import opened S = Store

  lemma NoMembers(q: seq<Bytes>)
    ensures Members(q) == {} <==> q == []
  {
    assert q != [] ==> q[0] in Members(q);
  }

  lemma TailMembers(picks: seq<Owner>, i: nat)
    requires i < |picks| && forall i, j :: 0 <= i < j < |picks| ==> picks[i] != picks[j]
    ensures picks[i..] == [picks[i]] + picks[i + 1..]
    ensures picks[i] in Members(picks[i..]) && Members(picks[i..]) - {picks[i]} == Members(picks[i + 1..])
  {}

  lemma RaisedOneMore(timeouts: Zset, ids: seq<Id>, k: nat, dl: int)
    requires k < |ids|
    ensures Raised(Raised(timeouts, ids[..k], dl), [ids[k]], dl) == Raised(timeouts, ids[..k + 1], dl)
  {
    assert ids[..k + 1][..k] == ids[..k];
    var last: seq<Id> := [ids[k]];
    assert last[..0] == [];
  }

  lemma PoppedFirst(members: Zset, want: nat)
    ensures var (popped, n) := (Take(Order(members), want), Min(want, |members|));
      && |Order(members)| == |members| && popped == Order(members)[..n]
      && (forall j :: 0 <= j < n ==> popped[j] in members)
      && Rest(Ranked(members), n) == Ranked(members - Members(popped))
  {
    OrderIsOrder(members);
    assert forall j :: 0 <= j < |members| ==> Order(members)[j] in members;
  }

  lemma FrontAt(members: Zset, n: nat, j: nat)
    requires j < n <= |members|
    ensures |Order(members)| == |members| && Order(members)[j] in members
    ensures FrontItems(Ranked(members), n)[j] == ItemOf(Order(members)[j])
    ensures FrontScores(Ranked(members), n)[j] == members[Order(members)[j]]
  {
    OrderIsOrder(members);
    assert Order(members)[j] in members;
  }

  lemma UnstampedFront(members: Zset, n: nat, items: seq<Item>, scores: seq<int>)
    requires n == |items| == |scores| <= |members| == |Order(members)|
    requires forall j :: 0 <= j < n ==> Order(members)[j] in members
    requires forall j :: 0 <= j < n ==> items[j] == ItemOf(Order(members)[j]) && scores[j] == members[Order(members)[j]]
    ensures items == FrontItems(Ranked(members), n) && scores == FrontScores(Ranked(members), n)
  {
    forall j | 0 <= j < n
      ensures items[j] == FrontItems(Ranked(members), n)[j] && scores[j] == FrontScores(Ranked(members), n)[j]
    {
      FrontAt(members, n, j);
    }
  }

  lemma FrontOfListed(waiting: seq<Bytes>, want: nat)
    ensures var (q, n) := (Listed(waiting), Min(want, |waiting|));
      Take(waiting, want) == FrontItems(q, n) && Rest(q, n) == Listed(waiting[n..])
  {}

  /** A wake that has reached some, with rest still to be drawn, on its way to
      the outcome all. */
  ghost predicate WakeSoFar(all: Woken, reached: set<Owner>, rest: seq<Owner>, subs: set<Owner>, count: int) {
    var w := Wake(rest, subs, count - |reached|);
    reached !! Members(rest) && all == Woken(w.left, reached + w.reached)
  }

  lemma WakeDraws(all: Woken, reached: set<Owner>, id: Owner, rest: seq<Owner>, subs: set<Owner>, count: int)
    requires WakeSoFar(all, reached, [id] + rest, subs, count) && |reached| < count
    requires Members([id] + rest) - {id} == Members(rest) && id in Members([id] + rest)
    ensures id !in reached
    ensures WakeSoFar(all, if id in subs then reached + {id} else reached, rest, subs, count)
  {
    assert ([id] + rest)[1..] == rest;
    var w := Wake(rest, subs, if id in subs then count - |reached| - 1 else count - |reached|);
    assert id in subs ==> |reached + {id}| == |reached| + 1;
    assert id in subs ==> reached + (w.reached + {id}) == reached + {id} + w.reached;
  }

  lemma WakeStops(all: Woken, reached: set<Owner>, rest: seq<Owner>, subs: set<Owner>, count: int)
    requires WakeSoFar(all, reached, rest, subs, count) && (|reached| >= count || Members(rest) == {})
    ensures all == Woken(Members(rest), reached)
  {
    NoMembers(rest);
    assert reached + {} == reached;
  }

  lemma WithoutOne(nacked: map<Id, Item>, id: Id)
    ensures |nacked - {id}| == if id in nacked then |nacked| - 1 else |nacked|
  {
    assert (nacked - {id}).Keys == nacked.Keys - {id};
  }

  /** Those of the live owners that are gone. */
  function GoneAmong(marks: Zset, live: set<Owner>, subs: set<Owner>, now: int): set<Owner> {
    set m | m in live && m !in subs && m in marks && marks[m] != 0 && now - marks[m] >= PRESENCE_GRACE
  }

  lemma GoneIs(o: Owners, subs: set<Owner>, now: int)
    ensures Gone(o, subs, now) == GoneAmong(o.presence, Live(o, now), subs, now)
  {}

  lemma MarkedNone(marks: Zset, subs: set<Owner>, now: int)
    ensures Marked(marks, {}, subs, now) == marks
  {}

  lemma MarkedOneMore(marks: Zset, live: set<Owner>, m: Owner, subs: set<Owner>, now: int)
    requires m !in live
    ensures var z := Marked(marks, live, subs, now);
      && (m in z <==> m in marks) && (m in z ==> z[m] == marks[m])
      && Marked(marks, live + {m}, subs, now)
         == (if m in subs then z[m := 0] else if m in z && z[m] == 0 then z[m := now] else z)
    ensures GoneAmong(marks, live + {m}, subs, now)
            == GoneAmong(marks, live, subs, now) + GoneAmong(marks, {m}, subs, now)
  {}

  lemma TakenDistinct(z: Zset, lo: int, n: nat)
    ensures forall i, j :: 0 <= i < j < |Take(From(z, lo), n)| ==> Take(From(z, lo), n)[i] != Take(From(z, lo), n)[j]
  {
    var high := map m | m in z && lo <= z[m] :: z[m];
    OrderIsOrder(high);
    OrderDistinct(high, Order(high));
  }

  function OwnersWithout(o: Owners, dead: set<Owner>): Owners {
    o.(heartbeats := o.heartbeats - dead, presence := o.presence - dead)
  }

  lemma NoneDead(nacked: map<Id, Item>, o: Owners)
    ensures SortedStrings(OwnedIds(nacked, {})) == []
    ensures OwnersWithout(o, {}) == o
  {
    SortedStringsMembers(OwnedIds(nacked, {}));
    assert OwnedIds(nacked, {}) == {};
  }

  /** The owner keys after a tick's count of subscribers. */
  function CountedOwners(o: Owners, ticked: bool, subs: set<Owner>, now: int): Owners {
    if ticked then o.(presence := Marked(o.presence, Live(o, now), subs, now)) else o
  }

  /** What the reaping part of a sweep does. */
  function Reaped(envid: Bytes -> Bytes, s: S.Store, ticked: bool, subs: set<Owner>, now: int): S.Store {
    var dead := Dead(s.owners, ticked, subs, now);
    s.(work := MoveAll(envid, s.work, SortedStrings(OwnedIds(s.work.pending.nacked, dead))),
       owners := OwnersWithout(CountedOwners(s.owners, ticked, subs, now), dead))
  }

  /** A sweep prepares the owners, moves what is past its deadline, and reaps
      if there was a clock. */
  lemma SweepInParts(envid: Bytes -> Bytes, s: S.Store, me: Owner, heartbeat: int, subs: set<Owner>, now: int)
    ensures var s' := s.(owners := Prepared(s.owners, me, heartbeat, now),
                         work := MoveAll(envid, s.work, UpTo(s.work.pending.timeouts, now)));
      Sweep(envid, s, me, heartbeat, subs, now)
      == if s.owners.clock.None? then s' else Reaped(envid, s', Ticks(s.owners, now), subs, now)
  {
    var w := MoveAll(envid, s.work, UpTo(s.work.pending.timeouts, now));
    NoneDead(w.pending.nacked, Prepared(s.owners, me, heartbeat, now));
  }

  lemma AppendMember(o: seq<Bytes>, m: Bytes)
    ensures Members(o + [m]) == Members(o) + {m}
  {}
}

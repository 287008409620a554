/** dequeueBatch as one caller of a queue object sees it: the reservation it
    pops under, the script it picks, and how it sizes the next call. */
module Batches {
  import opened ByteStrings
  import opened SortedSets
  import opened AckIds
  import opened WaitingQueue
  import opened S = Store
  import opened Runs
  import opened Effects
  import opened PendingKeys
  import opened Agreement
  import opened Resend
  import opened RedisServer
  import opened Reservations

  /** retryPop, ackSeq, popLen and popRun. */
  datatype Client = Client(retry: Option<Reservation>, ackSeq: nat, popLen: nat, popRun: nat)

  /** The ack ID prefix, and the timeouts and consumer ID as a call reads them. */
  datatype Settings = Settings(owner: Owner, visibility: int, heartbeat: int, consumer: Bytes)

  /** What becomes of a call: its reply comes, it never ran, or it ran and its
      reply was lost. */
  datatype Fate = Answered | NotRun | ReplyLost

  datatype Batch = Batch(items: seq<Item>, ids: seq<Id>, remaining: nat) | NoReply

  function Limit(slots: nat): nat {
    Min(slots, MAX_POP)
  }

  function Size(c: Client, limit: nat): nat {
    Min(limit, if c.popLen < 1 then 1 else c.popLen)
  }

  /** With no other caller, a kept reservation that does not fit is put back. */
  function ReservedFor(c: Client, limit: nat, want: nat): (Client, Reservation) {
    if c.retry.Some? && c.retry.value.want <= limit then (c.(retry := None), c.retry.value)
    else (c.(ackSeq := c.ackSeq + 1), Reservation(c.ackSeq + 1, want))
  }

  function PopUnderReservation(g: Settings, r: Reservation, slots: nat): Pop {
    Pop(g.owner, r.start, r.want, g.visibility, g.heartbeat, g.consumer, slots)
  }

  function ScriptFor(want: nat): PopScript {
    if want == 1 then LeanScript else BatchScript
  }

  function Ran(s: S.Store, p: Pop, now: int): (S.Store, Reply) {
    if p.want == 1 then LeanPop(s, p, now) else S.BatchPop(s, p, now)
  }

  function KeptFor(c: Client, r: Reservation): Client {
    if c.retry.None? then c.(retry := Some(r)) else c
  }

  /** The next call's size, from what this one left. */
  function Learned(c: Client, got: nat, remaining: nat): Client {
    if remaining > 0 then c.(popRun := c.popRun + got, popLen := remaining)
    else c.(popRun := 0, popLen := if c.popRun + got > 0 then c.popRun + got else c.popLen)
  }

  function Dequeue(c: Client, s: S.Store, g: Settings, slots: nat, fate: Fate, now: int): (Client, S.Store, Batch) {
    if slots == 0 then (c, s, Batch([], [], 0))
    else
      var (c', r) := ReservedFor(c, Limit(slots), Size(c, Limit(slots)));
      if fate.NotRun? then (KeptFor(c', r), s, NoReply)
      else
        var (t, reply) := Ran(s, PopUnderReservation(g, r, slots), now);
        var (c'', b) := Told(c', r, g, fate, reply);
        (c'', t, b)
  }

  /** What a call makes of the reply of a script that ran. */
  function Told(c: Client, r: Reservation, g: Settings, fate: Fate, reply: Reply): (Client, Batch) {
    if !fate.Answered? then (KeptFor(c, r), NoReply)
    else if reply.refused then (c, Batch([], [], 0))
    else (Learned(c, |reply.items|, reply.len),
          Batch(reply.items, AckIdsOf(g.owner, r.start, |reply.items|), reply.len))
  }

  datatype Single = Single(item: Item, id: Id) | Nothing | Errored

  /** dequeueOne: a reservation of one, or a kept one of that size. */
  function DequeueSingle(c: Client, s: S.Store, g: Settings, fate: Fate, now: int): (Client, S.Store, Single) {
    var (c', r) := ReservedFor(c, 1, 1);
    if fate.NotRun? then (KeptFor(c', r), s, Errored)
    else
      var (t, reply) := S.SinglePop(s, PopUnderReservation(g, r, 1), now);
      if fate.ReplyLost? then (KeptFor(c', r), t, Errored)
      else (c', t, if reply.Got? then Single(reply.item, AckId(g.owner, r.start, 1)) else Nothing)
  }

  class QueueObject {
    const ackPrefix: Owner
    var retryPop: Option<Reservation>
    var ackSeq: nat
    var popLen: nat
    var popRun: nat

    constructor (ackPrefix: Owner)
      ensures View() == Client(None, 0, MAX_POP, 0) && this.ackPrefix == ackPrefix
    {
      this.ackPrefix := ackPrefix;
      retryPop, ackSeq, popLen, popRun := None, 0, MAX_POP, 0;
    }

    ghost function View(): Client
      reads this
    {
      Client(retryPop, ackSeq, popLen, popRun)
    }

    /** reserve, by the one caller there is. */
    method Reserve(limit: nat, want: nat) returns (r: Reservation)
      modifies `retryPop, `ackSeq
      ensures (View(), r) == ReservedFor(old(View()), limit, want)
    {
      var kept := retryPop;
      retryPop := None;
      if kept.Some? && kept.value.want > limit {
        retryPop := kept;
        kept := None;
      }
      if kept.Some? {
        r := kept.value;
      } else {
        ackSeq := ackSeq + 1;
        r := Reservation(ackSeq, want);
      }
    }

    /** The pop script of a reservation's size. */
    method RunScript(redis: Redis, p: Pop, now: int) returns (reply: Reply)
      modifies redis
      ensures (redis.View(), reply) == Ran(old(redis.View()), p, now)
    {
      if p.want == 1 {
        reply := redis.LeanPop(p, now);
      } else {
        reply := redis.BatchPop(p, now);
      }
    }

    method Learn(got: nat, remaining: nat)
      modifies `popLen, `popRun
      ensures View() == Learned(old(View()), got, remaining)
    {
      if remaining > 0 {
        popRun := popRun + got;
        popLen := remaining;
      } else {
        var run := popRun + got;
        popRun := 0;
        if run > 0 {
          popLen := run;
        }
      }
    }

    /** dequeueOne. */
    method DequeueOne(redis: Redis, visibility: int, heartbeat: int, consumer: Bytes, fate: Fate,
        now: int) returns (d: Single)
      modifies this, redis
      ensures (View(), redis.View(), d)
        == DequeueSingle(old(View()), old(redis.View()),
                         Settings(ackPrefix, visibility, heartbeat, consumer), fate, now)
    {
      var r := Reserve(1, 1);
      var p := Pop(ackPrefix, r.start, r.want, visibility, heartbeat, consumer, 1);
      var reply := NoItem;
      if !fate.NotRun? {
        reply := redis.SinglePop(p, now);
      }
      if !fate.Answered? {
        if retryPop.None? {
          retryPop := Some(r);
        }
        return Errored;
      }
      d := if reply.Got? then Single(reply.item, AckId(ackPrefix, r.start, 1)) else Nothing;
    }

    /** dequeueBatch. */
    method DequeueBatch(redis: Redis, visibility: int, heartbeat: int, consumer: Bytes, slots: nat,
                        fate: Fate, now: int) returns (b: Batch)
      modifies this, redis
      ensures (View(), redis.View(), b)
        == Dequeue(old(View()), old(redis.View()),
                   Settings(ackPrefix, visibility, heartbeat, consumer), slots, fate, now)
    {
      var limit := if slots < MAX_POP then slots else MAX_POP;
      if limit == 0 {
        return Batch([], [], 0);
      }
      var size := if popLen < 1 then 1 else popLen;
      var r := Reserve(limit, if limit < size then limit else size);
      var p := Pop(ackPrefix, r.start, r.want, visibility, heartbeat, consumer, slots);
      var reply := Reply(0, [], false);
      if !fate.NotRun? {
        reply := RunScript(redis, p, now);
      }
      if !fate.Answered? {
        if retryPop.None? {
          retryPop := Some(r);
        }
        return NoReply;
      }
      if reply.refused {
        return Batch([], [], 0);
      }
      Learn(|reply.items|, reply.len);
      b := Batch(reply.items, AckIdsOf(ackPrefix, r.start, |reply.items|), reply.len);
    }
  }

  lemma RanIsPop(s: S.Store, p: Pop, now: int)
    ensures var (t, reply) := Ran(s, p, now);
      && t == PopStore(s, ScriptFor(p.want), p, now) && reply.items == ItemsTo(s, ScriptFor(p.want), p, now)
      && (reply.refused ==> reply.items == [])
  {}

  // ---- draining a queue ----

  /** No ID under a reservation the object has yet to number is pending. */
  ghost predicate Unissued(s: S.Store, owner: Owner, last: nat) {
    IssuedTo(s.work.pending.nacked, owner, last)
  }

  ghost predicate IssuedTo(nacked: map<Id, Item>, owner: Owner, last: nat) {
    forall r: nat, i: nat :: last < r < UINT64_LIMIT && i <= MAX_POP ==> AckId(owner, r, i) !in nacked
  }

  /** A queue object with no failed call behind it, on a queue that is not paused. */
  ghost predicate Ready(c: Client, s: S.Store, g: Settings) {
    IsOwner(g.owner) && c.retry.None? && s.paused.None? && Unissued(s, g.owner, c.ackSeq)
  }

  /** What a call takes: as many as it is sized for, or as many as there are. */
  function Takes(c: Client, s: S.Store, slots: nat): nat {
    Min(Size(c, Limit(slots)), Len(s.work.queue))
  }

  function FreshPop(c: Client, g: Settings, slots: nat): Pop {
    PopUnderReservation(g, Reservation(c.ackSeq + 1, Size(c, Limit(slots))), slots)
  }

  /** A call of a ready object pops under fresh IDs, */
  lemma PopsFresh(c: Client, s: S.Store, g: Settings, slots: nat, now: int)
    requires Ready(c, s, g) && 0 < slots && c.ackSeq + 1 < UINT64_LIMIT
    ensures var p := FreshPop(c, g, slots);
      && ProperPop(ScriptFor(p.want), p) && !Resent(s, p) && HandedOut(s, p) == IdsOf(p)[..Takes(c, s, slots)]
      && Ran(s, p, now).0 == PopStore(s, ScriptFor(p.want), p, now)
      && Ran(s, p, now) == (Joined(TakeOut(s, HandedOut(s, p), p, now), |HandedOut(s, p)|, p),
                            Reply(Len(Rest(s.work.queue, Takes(c, s, slots))),
                              FrontItems(s.work.queue, Takes(c, s, slots)), false))
  {
    var p := FreshPop(c, g, slots);
    if p.want == 1 {
      LeanIsBatchOfOne(s, p, now);
    }
  }

  lemma StillUnissued(s: S.Store, p: Pop, n: nat, now: int)
    requires IsOwner(p.owner) && 0 < p.reservation < UINT64_LIMIT && Unissued(s, p.owner, p.reservation - 1)
    requires n <= Len(s.work.queue) && n <= p.want <= MAX_POP
    ensures Unissued(TakeOut(s, IdsOf(p)[..n], p, now), p.owner, p.reservation)
  {
    var ids := IdsOf(p)[..n];
    PutKeys(s.work.pending.nacked, ids, FrontItems(s.work.queue, |ids|));
    LaterUnissued(s.work.pending.nacked, p.owner, p.reservation, p.want, n,
                  TakeOut(s, ids, p, now).work.pending.nacked);
  }

  lemma LaterUnissued(nacked: map<Id, Item>, owner: Owner, last: nat, want: nat, n: nat, nacked': map<Id, Item>)
    requires IsOwner(owner) && 0 < last < UINT64_LIMIT && IssuedTo(nacked, owner, last - 1) && n <= want <= MAX_POP
    requires nacked'.Keys == nacked.Keys + Members(AckIdsOf(owner, last, want)[..n])
    ensures IssuedTo(nacked', owner, last)
  {
    forall r: nat, i: nat | last < r < UINT64_LIMIT && i <= MAX_POP ensures AckId(owner, r, i) !in nacked' {
      LaterNotAmong(owner, last, want, r, i);
    }
  }

  lemma LaterNotAmong(owner: Owner, last: nat, want: nat, r: nat, i: nat)
    requires IsOwner(owner) && last < r < UINT64_LIMIT && want <= MAX_POP && i <= MAX_POP
    ensures AckId(owner, r, i) !in AckIdsOf(owner, last, want)
  {
    forall j | 0 <= j < want ensures AckIdsOf(owner, last, want)[j] != AckId(owner, r, i) {
      AckIdInjective(owner, last, j + 1, owner, r, i);
    }
  }

  /** takes the first items, and is ready again. */
  lemma OneCall(c: Client, s: S.Store, g: Settings, slots: nat, now: int)
    requires Ready(c, s, g) && 0 < slots && c.ackSeq + 1 < UINT64_LIMIT
    ensures var (n, left) := (Takes(c, s, slots), Len(s.work.queue) - Takes(c, s, slots));
      var (c', t, b) := Dequeue(c, s, g, slots, Answered, now);
      && b == Batch(FrontItems(s.work.queue, n), AckIdsOf(g.owner, c.ackSeq + 1, n), left)
      && t.work.queue == Rest(s.work.queue, n) && Len(t.work.queue) == left
      && c' == Learned(c.(ackSeq := c.ackSeq + 1), n, left)
      && Ready(c', t, g)
  {
    PopsFresh(c, s, g, slots, now);
    StillUnissued(s, FreshPop(c, g, slots), Takes(c, s, slots), now);
    RestLen(s.work.queue, Takes(c, s, slots));
  }

  /** A caller that calls again while items remain: one call per time given. */
  datatype Drained = Drained(client: Client, store: S.Store, items: seq<Item>, calls: nat, empty: bool)

  function More(items: seq<Item>, d: Drained): Drained {
    d.(items := items + d.items, calls := d.calls + 1)
  }

  function Drain(c: Client, s: S.Store, g: Settings, slots: nat, times: seq<int>): Drained
    decreases |times|
  {
    if times == [] then Drained(c, s, [], 0, false)
    else
      var (c', t, b) := Dequeue(c, s, g, slots, Answered, times[0]);
      if b.NoReply? || b.remaining == 0 then Drained(c', t, if b.Batch? then b.items else [], 1, true)
      else
        More(b.items, Drain(c', t, g, slots, times[1..]))
  }

  /** How many calls of k it takes to get a items. */
  function Rounds(a: nat, k: nat): nat
    requires 0 < k
  {
    if a == 0 then 0 else 1 + Rounds(a - Min(k, a), k)
  }

  lemma DivSmall(a: nat, k: nat)
    requires a < k
    ensures a / k == 0
  {}

  lemma Distributes(k: int, a: int, b: int)
    ensures k * (a - b) == k * a - k * b
  {}

  lemma MulGrows(k: int, d: int)
    requires 0 < k
    ensures (1 <= d ==> k <= k * d) && (d <= -1 ==> k * d <= -k)
  {}

  lemma DivUnique(a: nat, k: nat, q: nat, r: nat)
    requires r < k && a == k * q + r
    ensures a / k == q
  {
    assert a == k * (a / k) + a % k;
    Distributes(k, a / k, q);
    MulGrows(k, a / k - q);
  }

  lemma DivPlusOne(a: nat, k: nat)
    requires 0 < k
    ensures (a + k) / k == a / k + 1
  {
    Distributes(k, a / k + 1, a / k);
    DivUnique(a + k, k, a / k + 1, a % k);
  }

  /** a / k, rounded up. */
  function Ceil(a: nat, k: nat): nat
    requires 0 < k
  {
    (a + (k - 1)) / k
  }

  lemma {:induction false} RoundsIsCeil(a: nat, k: nat)
    requires 0 < k
    ensures Rounds(a, k) == Ceil(a, k)
  {
    if a == 0 {
      DivSmall(k - 1, k);
    } else if a <= k {
      DivSmall(a - 1, k);
      DivPlusOne(a - 1, k);
    } else {
      RoundsIsCeil(a - k, k);
      DivPlusOne(a - 1, k);
    }
  }

  lemma {:induction false} RoundsGrow(a: nat, b: nat, k: nat)
    requires 0 < k && a <= b
    ensures Rounds(a, k) <= Rounds(b, k)
  {
    if a > 0 {
      RoundsGrow(a - Min(k, a), b - Min(k, b), k);
    }
  }

  lemma FewerRounds(a: nat, b: nat, k: nat)
    requires 0 < k && a <= b
    ensures Rounds(a, k) <= Ceil(b, k)
  {
    RoundsGrow(a, b, k);
    RoundsIsCeil(b, k);
  }

  lemma FrontTwice(w: Waiting, n: nat, m: nat)
    requires n + m <= Len(w) && m <= Len(Rest(w, n))
    ensures FrontItems(w, n) + FrontItems(Rest(w, n), m) == FrontItems(w, n + m)
  {
    RestEntries(w, n);
  }

  /** The first call of a drain, and the drain that follows. */
  lemma FirstCall(c: Client, s: S.Store, g: Settings, slots: nat, times: seq<int>) returns (c': Client, t: S.Store)
    requires Ready(c, s, g) && 0 < slots && c.ackSeq + |times| < UINT64_LIMIT && times != []
    ensures var (n, l) := (Takes(c, s, slots), Len(s.work.queue));
      && c' == Learned(c.(ackSeq := c.ackSeq + 1), n, l - n) && Ready(c', t, g)
      && t.work.queue == Rest(s.work.queue, n) && Len(t.work.queue) == l - n
      && Drain(c, s, g, slots, times)
         == if l == n then Drained(c', t, FrontItems(s.work.queue, n), 1, true)
            else More(FrontItems(s.work.queue, n), Drain(c', t, g, slots, times[1..]))
  {
    OneCall(c, s, g, slots, times[0]);
    var r := Dequeue(c, s, g, slots, Answered, times[0]);
    c', t := r.0, r.1;
  }

  /** All that waited came out in queue order, and the next call expects as many
      as were taken since the queue was last seen empty. */
  predicate DrainedAll(d: Drained, c: Client, w: Waiting) {
    d.empty && d.items == FrontItems(w, Len(w)) && Len(d.store.work.queue) == 0
    && d.client.popLen == c.popRun + Len(w) && d.client.popRun == 0
  }

  /** A call that takes n of more than n, and a drain of the rest. */
  lemma MoreDrained(d: Drained, c: Client, c': Client, w: Waiting, n: nat)
    requires n < Len(w) && Len(Rest(w, n)) == Len(w) - n
    requires c' == Learned(c.(ackSeq := c.ackSeq + 1), n, Len(w) - n) && DrainedAll(d, c', Rest(w, n))
    ensures DrainedAll(More(FrontItems(w, n), d), c, w)
  {
    var m := Len(Rest(w, n));
    assert FrontItems(w, n) + FrontItems(Rest(w, n), m) == FrontItems(w, Len(w)) by { FrontTwice(w, n, m); }
  }

  /** Once a call knows how many items remain, each next one takes all it has
      room for. */
  lemma {:induction false} DrainRest(c: Client, s: S.Store, g: Settings, slots: nat, times: seq<int>)
    requires Ready(c, s, g) && 0 < slots && 0 < Len(s.work.queue) == c.popLen
    requires c.ackSeq + |times| < UINT64_LIMIT && Rounds(Len(s.work.queue), Limit(slots)) <= |times|
    ensures DrainedAll(Drain(c, s, g, slots, times), c, s.work.queue)
    ensures Drain(c, s, g, slots, times).calls == Rounds(Len(s.work.queue), Limit(slots))
    decreases |times|
  {
    var (l, n) := (Len(s.work.queue), Takes(c, s, slots));
    var c', t := FirstCall(c, s, g, slots, times);
    if n < l {
      DrainRest(c', t, g, slots, times[1..]);
      MoreDrained(Drain(c', t, g, slots, times[1..]), c, c', s.work.queue, n);
    }
  }

  lemma DrainRounds(c: Client, s: S.Store, g: Settings, slots: nat, times: seq<int>, most: nat)
    requires Ready(c, s, g) && 0 < slots && 0 < Len(s.work.queue)
    requires c.ackSeq + |times| < UINT64_LIMIT && 1 + most <= |times|
    requires Rounds(Len(Rest(s.work.queue, Takes(c, s, slots))), Limit(slots)) <= most
    ensures DrainedAll(Drain(c, s, g, slots, times), c, s.work.queue)
    ensures 1 <= Drain(c, s, g, slots, times).calls <= 1 + most
  {
    var n := Takes(c, s, slots);
    var c', t := FirstCall(c, s, g, slots, times);
    if n < Len(s.work.queue) {
      DrainRest(c', t, g, slots, times[1..]);
      MoreDrained(Drain(c', t, g, slots, times[1..]), c, c', s.work.queue, n);
    }
  }

  /** With no failures and no other calls, calling while items remain hands out
      all L of them in queue order in at most 1 + ceil((L - 1) / k) calls,
      k = min(slots, 1000). */
  lemma DrainBound(c: Client, s: S.Store, g: Settings, slots: nat, times: seq<int>)
    requires Ready(c, s, g) && 0 < slots && 0 < Len(s.work.queue) && c.ackSeq + |times| < UINT64_LIMIT
    requires 1 + Ceil(Len(s.work.queue) - 1, Limit(slots)) <= |times|
    ensures DrainedAll(Drain(c, s, g, slots, times), c, s.work.queue)
    ensures 1 <= Drain(c, s, g, slots, times).calls <= 1 + Ceil(Len(s.work.queue) - 1, Limit(slots))
  {
    RestLen(s.work.queue, Takes(c, s, slots));
    FewerRounds(Len(Rest(s.work.queue, Takes(c, s, slots))), Len(s.work.queue) - 1, Limit(slots));
    DrainRounds(c, s, g, slots, times, Ceil(Len(s.work.queue) - 1, Limit(slots)));
  }

  /** A burst no longer than the last one, with room for it, takes one call; a
      queue found empty leaves the size as it was. */
  lemma BurstInOneCall(c: Client, s: S.Store, g: Settings, slots: nat, now: int)
    requires Ready(c, s, g) && 0 < slots && c.ackSeq + 1 < UINT64_LIMIT
    requires Len(s.work.queue) <= Min(Limit(slots), c.popLen)
    ensures var (c', t, b) := Dequeue(c, s, g, slots, Answered, now); var l := Len(s.work.queue);
      && b.Batch? && b.items == FrontItems(s.work.queue, l) && b.remaining == 0
      && c'.popLen == if c.popRun + l > 0 then c.popRun + l else c.popLen
  {
    OneCall(c, s, g, slots, now);
  }

  /** The object once a new reservation of that size is kept. */
  function Keeping(c: Client, slots: nat): Client {
    c.(ackSeq := c.ackSeq + 1, retry := Some(Reservation(c.ackSeq + 1, Size(c, Limit(slots)))))
  }

  lemma LostCall(c: Client, s: S.Store, g: Settings, slots: nat, now: int)
    requires Ready(c, s, g) && 0 < slots && c.ackSeq + 1 < UINT64_LIMIT
    ensures var p := FreshPop(c, g, slots);
      Dequeue(c, s, g, slots, ReplyLost, now)
      == (Keeping(c, slots), PopStore(s, ScriptFor(p.want), p, now), NoReply)
  {
    var r := Reservation(c.ackSeq + 1, Size(c, Limit(slots)));
    assert ReservedFor(c, Limit(slots), r.want) == (c.(ackSeq := c.ackSeq + 1), r);
    assert FreshPop(c, g, slots) == PopUnderReservation(g, r, slots) && r.want == FreshPop(c, g, slots).want;
    RanIsPop(s, FreshPop(c, g, slots), now);
  }

  /** The call returns the items under the IDs of the kept reservation, which it
      uses up, and takes no others. */
  ghost predicate GetsBack(c: Client, u: S.Store, g: Settings, slots: nat, now: int, items: seq<Item>)
    requires c.retry.Some?
  {
    var (c', v, b) := Dequeue(c, u, g, slots, Answered, now);
    && b.Batch? && c'.retry.None? && b.items == items && b.ids == AckIdsOf(g.owner, c.retry.value.start, |items|)
    && v.work.queue == u.work.queue && v.work.pending.nacked == u.work.pending.nacked
  }

  /** A kept reservation that fits is the next call's. */
  lemma NextCall(c: Client, u: S.Store, g: Settings, slots: nat, now: int, items: seq<Item>)
    requires c.retry.Some? && c.retry.value.want <= Limit(slots) && 0 < slots && items != []
    requires var (v, reply) := Ran(u, PopUnderReservation(g, c.retry.value, slots), now);
      && reply.items == items && !reply.refused
      && v.work.queue == u.work.queue && v.work.pending.nacked == u.work.pending.nacked
    ensures GetsBack(c, u, g, slots, now, items)
  {
    assert ReservedFor(c, Limit(slots), Size(c, Limit(slots))) == (c.(retry := None), c.retry.value);
    var (v, reply) := Ran(u, PopUnderReservation(g, c.retry.value, slots), now);
    var (c', b) := Told(c.(retry := None), c.retry.value, g, Answered, reply);
    assert Dequeue(c, u, g, slots, Answered, now) == (c', v, b);
  }

  /** A call whose pop ran but whose reply was lost: at any later time, whatever
      the other processes did in between, the next call with room for it gets
      exactly its items, under the same IDs, and takes no others. */
  lemma LostReplyComesBack(envid: Bytes -> Bytes, c: Client, s: S.Store, g: Settings, slots: nat, now: int,
                           es: seq<Event>, g': Settings, slots': nat, now': int)
    requires Ready(c, s, g) && 0 < slots && c.ackSeq + 1 < UINT64_LIMIT && Sound(s.work) && 0 < Len(s.work.queue)
    requires g'.owner == g.owner && Size(c, Limit(slots)) <= Limit(slots')
    requires var p := FreshPop(c, g, slots); var t := Dequeue(c, s, g, slots, ReplyLost, now).1;
      ProperRun(envid, t, es) && Reserved(es, p) && StayPending(envid, t, es, IdsOf(p)[..Takes(c, s, slots)])
    ensures 0 < Takes(c, s, slots)
    ensures var (c1, t, lost) := Dequeue(c, s, g, slots, ReplyLost, now);
      && lost.NoReply? && c1 == Keeping(c, slots)
      && GetsBack(c1, Run(envid, t, es), g', slots', now', FrontItems(s.work.queue, Takes(c, s, slots)))
  {
    var p := FreshPop(c, g, slots);
    LostCall(c, s, g, slots, now);
    LostThenNext(envid, c, s, g, slots, now, PopStore(s, ScriptFor(p.want), p, now), es, g', slots', now');
  }

  lemma LostThenNext(envid: Bytes -> Bytes, c: Client, s: S.Store, g: Settings, slots: nat, now: int,
                     t: S.Store, es: seq<Event>, g': Settings, slots': nat, now': int)
    requires Ready(c, s, g) && 0 < slots && c.ackSeq + 1 < UINT64_LIMIT && Sound(s.work) && 0 < Len(s.work.queue)
    requires g'.owner == g.owner && Size(c, Limit(slots)) <= Limit(slots')
    requires var p := FreshPop(c, g, slots);
      && t == PopStore(s, ScriptFor(p.want), p, now)
      && ProperRun(envid, t, es) && Reserved(es, p) && StayPending(envid, t, es, IdsOf(p)[..Takes(c, s, slots)])
    ensures 0 < Takes(c, s, slots)
    ensures GetsBack(Keeping(c, slots), Run(envid, t, es), g', slots', now',
                     FrontItems(s.work.queue, Takes(c, s, slots)))
  {
    var c1 := Keeping(c, slots);
    LostItems(envid, c, s, g, slots, now, es, PopUnderReservation(g', c1.retry.value, slots'), now');
    NextCall(c1, Run(envid, t, es), g', slots', now', FrontItems(s.work.queue, Takes(c, s, slots)));
  }

  lemma LostItems(envid: Bytes -> Bytes, c: Client, s: S.Store, g: Settings, slots: nat, now: int,
                  es: seq<Event>, q: Pop, now': int)
    requires Ready(c, s, g) && 0 < slots && c.ackSeq + 1 < UINT64_LIMIT && Sound(s.work) && 0 < Len(s.work.queue)
    requires var p := FreshPop(c, g, slots); var t := PopStore(s, ScriptFor(p.want), p, now);
      && ProperRun(envid, t, es) && Reserved(es, p) && StayPending(envid, t, es, IdsOf(p)[..Takes(c, s, slots)])
      && SameCall(p, q)
    ensures var p := FreshPop(c, g, slots); var n := Takes(c, s, slots);
      var u := Run(envid, PopStore(s, ScriptFor(p.want), p, now), es);
      var (v, reply) := Ran(u, q, now');
      && 0 < n && reply.items == FrontItems(s.work.queue, n) && !reply.refused
      && v.work.queue == u.work.queue && v.work.pending.nacked == u.work.pending.nacked
  {
    var p := FreshPop(c, g, slots);
    PopsFresh(c, s, g, slots, now);
    RanIsPop(s, p, now);
    ResendSafe(envid, s, ScriptFor(p.want), p, now, es, ScriptFor(q.want), q, now');
    RanIsPop(Run(envid, PopStore(s, ScriptFor(p.want), p, now), es), q, now');
  }

  /** In particular when it is the very next call on the queue. */
  lemma LostReplyAtOnce(c: Client, s: S.Store, g: Settings, slots: nat, now: int, slots': nat, now': int)
    requires Ready(c, s, g) && 0 < slots <= slots' && c.ackSeq + 1 < UINT64_LIMIT && Sound(s.work)
      && 0 < Len(s.work.queue)
    ensures var n := Takes(c, s, slots);
      var (c1, t, _) := Dequeue(c, s, g, slots, ReplyLost, now);
      && c1 == Keeping(c, slots) && GetsBack(c1, t, g, slots', now', FrontItems(s.work.queue, n))
  {
    var p := FreshPop(c, g, slots);
    PopsFresh(c, s, g, slots, now);
    PopEffect(s, ScriptFor(p.want), p, now);
    var t := PopStore(s, ScriptFor(p.want), p, now);
    FirstPending(s, p, now);
    assert Dequeue(c, s, g, slots, ReplyLost, now).1 == t by {
      LostCall(c, s, g, slots, now);
    }
    LostReplyComesBack(x => x, c, s, g, slots, now, [], g, slots', now');
  }

  lemma FirstPending(s: S.Store, p: Pop, now: int)
    requires !Resent(s, p) && IsOwner(p.owner) && p.reservation < UINT64_LIMIT && p.want <= MAX_POP
    ensures Members(HandedOut(s, p)) <= WorkAfterPop(s, p, now).pending.nacked.Keys
  {
    FreshHeld(s, p, now);
    assert forall i :: 0 <= i < |HandedOut(s, p)| ==> HandedOut(s, p)[i] == IdsOf(p)[i];
  }

  function SingleFor(c: Client, g: Settings): Pop {
    PopUnderReservation(g, Reservation(c.ackSeq + 1, 1), 1)
  }

  lemma LostSingleCall(c: Client, s: S.Store, g: Settings, now: int)
    requires c.retry.None?
    ensures DequeueSingle(c, s, g, ReplyLost, now)
            == (KeptFor(c.(ackSeq := c.ackSeq + 1), Reservation(c.ackSeq + 1, 1)),
                PopStore(s, SingleScript, SingleFor(c, g), now), Errored)
  {}

  ghost predicate GetsOneBack(c: Client, u: S.Store, g: Settings, now: int, item: Item)
    requires c.retry.Some?
  {
    var (c', v, d) := DequeueSingle(c, u, g, Answered, now);
    && d == Single(item, AckId(g.owner, c.retry.value.start, 1)) && c'.retry.None?
    && v.work.queue == u.work.queue && v.work.pending.nacked == u.work.pending.nacked
  }

  lemma NextSingle(c: Client, u: S.Store, g: Settings, now: int, item: Item)
    requires c.retry.Some? && c.retry.value.want == 1
    requires var q := PopUnderReservation(g, c.retry.value, 1); var v := PopStore(u, SingleScript, q, now);
      && ItemsTo(u, SingleScript, q, now) == [item]
      && v.work.queue == u.work.queue && v.work.pending.nacked == u.work.pending.nacked
    ensures GetsOneBack(c, u, g, now, item)
  {}

  /** The same of single pops: after a lost reply, whatever the other processes did
      in between, the next single call gets its item under its ID, and takes no
      other. */
  lemma LostSingleComesBack(envid: Bytes -> Bytes, c: Client, s: S.Store, g: Settings, now: int,
                            es: seq<Event>, g': Settings, now': int)
    requires Ready(c, s, g) && c.ackSeq + 1 < UINT64_LIMIT && Sound(s.work) && 0 < Len(s.work.queue)
    requires g'.owner == g.owner
    requires var t := DequeueSingle(c, s, g, ReplyLost, now).1;
      ProperRun(envid, t, es) && Reserved(es, SingleFor(c, g)) && StayPending(envid, t, es, [FirstId(SingleFor(c, g))])
    ensures 0 < |Entries(s.work.queue)|
    ensures var (c1, t, lost) := DequeueSingle(c, s, g, ReplyLost, now);
      var u := Run(envid, t, es);
      && lost.Errored? && c1.retry == Some(Reservation(c.ackSeq + 1, 1))
      && GetsOneBack(c1, u, g', now', Entries(s.work.queue)[0].item)
  {
    LenIsEntries(s.work.queue);
    LostSingleCall(c, s, g, now);
    var c1 := KeptFor(c.(ackSeq := c.ackSeq + 1), Reservation(c.ackSeq + 1, 1));
    var t := PopStore(s, SingleScript, SingleFor(c, g), now);
    LostThenSingle(envid, c, s, g, now, c1, t, es, g', now');
  }

  lemma LostThenSingle(envid: Bytes -> Bytes, c: Client, s: S.Store, g: Settings, now: int,
                       c1: Client, t: S.Store, es: seq<Event>, g': Settings, now': int)
    requires Ready(c, s, g) && c.ackSeq + 1 < UINT64_LIMIT && Sound(s.work) && 0 < Len(s.work.queue)
    requires g'.owner == g.owner && c1.retry == Some(Reservation(c.ackSeq + 1, 1))
    requires t == PopStore(s, SingleScript, SingleFor(c, g), now)
    requires ProperRun(envid, t, es) && Reserved(es, SingleFor(c, g))
      && StayPending(envid, t, es, [FirstId(SingleFor(c, g))])
    ensures |Entries(s.work.queue)| == Len(s.work.queue)
    ensures GetsOneBack(c1, Run(envid, t, es), g', now', Entries(s.work.queue)[0].item)
  {
    FreshSingle(c, s, g, now);
    ResendSafe(envid, s, SingleScript, SingleFor(c, g), now, es,
               SingleScript, PopUnderReservation(g', c1.retry.value, 1), now');
    NextSingle(c1, Run(envid, t, es), g', now', Entries(s.work.queue)[0].item);
  }

  lemma FreshSingle(c: Client, s: S.Store, g: Settings, now: int)
    requires Ready(c, s, g) && c.ackSeq + 1 < UINT64_LIMIT && 0 < Len(s.work.queue)
    ensures var p := SingleFor(c, g);
      && ProperPop(SingleScript, p) && !Resent(s, p) && HandedOut(s, p) == [FirstId(p)]
      && |Entries(s.work.queue)| == Len(s.work.queue)
      && ItemsTo(s, SingleScript, p, now) == [Entries(s.work.queue)[0].item]
  {
    var p := SingleFor(c, g);
    LenIsEntries(s.work.queue);
    assert IdsOf(p) == [FirstId(p)];
    ItemsToCaller(s, SingleScript, p, now);
    assert IdsOf(p)[..1] == IdsOf(p);
  }

  // ---- IDs and pop order ----

  /** One call of the object: against what store, with what settings, and its fate. */
  datatype Attempt = Attempt(single: bool, slots: nat, store: S.Store, settings: Settings, fate: Fate, now: int)

  function ReservationOf(c: Client, a: Attempt): Reservation {
    if a.single then ReservedFor(c, 1, 1).1 else ReservedFor(c, Limit(a.slots), Size(c, Limit(a.slots))).1
  }

  function ClientAfter(c: Client, a: Attempt): Client {
    if a.single then DequeueSingle(c, a.store, a.settings, a.fate, a.now).0
    else Dequeue(c, a.store, a.settings, a.slots, a.fate, a.now).0
  }

  function ClientAfterAll(c: Client, calls: seq<Attempt>): Client {
    if calls == [] then c else ClientAfter(ClientAfterAll(c, calls[..|calls| - 1]), calls[|calls| - 1])
  }

  predicate HasRoom(a: Attempt) {
    a.single || 0 < a.slots
  }

  /** A kept reservation was numbered before, for 1 to 1000 items. */
  predicate Numbered(c: Client) {
    c.retry.Some? ==> 1 <= c.retry.value.start <= c.ackSeq && 1 <= c.retry.value.want <= MAX_POP
  }

  lemma ReservesNumbered(c: Client, a: Attempt)
    requires Numbered(c)
    ensures Numbered(ClientAfter(c, a)) && c.ackSeq <= ClientAfter(c, a).ackSeq
    ensures HasRoom(a) ==>
      && 1 <= ReservationOf(c, a).start <= ClientAfter(c, a).ackSeq && 1 <= ReservationOf(c, a).want <= MAX_POP
    ensures ClientAfter(c, a).retry in {None, c.retry, Some(ReservationOf(c, a))}
  {
    var (limit, want) := if a.single then (1, 1) else (Limit(a.slots), Size(c, Limit(a.slots)));
    var (c', r) := ReservedFor(c, limit, want);
    if a.single || 0 < a.slots {
      assert r == ReservationOf(c, a);
      ClientKeeps(c, a);
    }
  }

  /** A call changes the object's reservation and number as ReservedFor does, and
      puts the reservation back at most. */
  lemma ClientKeeps(c: Client, a: Attempt)
    requires HasRoom(a)
    ensures var (limit, want) := if a.single then (1, 1) else (Limit(a.slots), Size(c, Limit(a.slots)));
      var (c', r) := ReservedFor(c, limit, want); var d := ClientAfter(c, a);
      && d.ackSeq == c'.ackSeq && d.retry in {c'.retry, KeptFor(c', r).retry}
  {}

  /** Every queue object's kept reservation is numbered. */
  lemma {:induction false} AlwaysNumbered(c: Client, calls: seq<Attempt>)
    requires Numbered(c)
    ensures Numbered(ClientAfterAll(c, calls)) && c.ackSeq <= ClientAfterAll(c, calls).ackSeq
  {
    if calls != [] {
      AlwaysNumbered(c, calls[..|calls| - 1]);
      ReservesNumbered(ClientAfterAll(c, calls[..|calls| - 1]), calls[|calls| - 1]);
    }
  }

  predicate KeptBefore(c: Client, r: Reservation) {
    c.retry.Some? && c.retry.value.start == r.start
  }

  /** After a call under r, what is kept is from before that call or no older
      than r. */
  predicate KeepsSince(c: Client, r: Reservation, d: Client) {
    r.start <= d.ackSeq && (d.retry.Some? ==> d.retry == c.retry || r.start <= d.retry.value.start)
  }

  lemma FirstKeeps(c: Client, first: Attempt)
    requires Numbered(c) && HasRoom(first)
    ensures KeepsSince(c, ReservationOf(c, first), ClientAfter(c, first))
  {
    ReservesNumbered(c, first);
  }

  lemma {:induction false} LaterKeeps(c: Client, first: Attempt, between: seq<Attempt>)
    requires Numbered(c) && HasRoom(first)
    ensures var d := ClientAfterAll(ClientAfter(c, first), between);
      Numbered(d) && KeepsSince(c, ReservationOf(c, first), d)
  {
    ReservesNumbered(c, first);
    if between == [] {
      FirstKeeps(c, first);
    } else {
      var (h, last) := (between[..|between| - 1], between[|between| - 1]);
      LaterKeeps(c, first, h);
      StillKeeps(c, ReservationOf(c, first), ClientAfterAll(ClientAfter(c, first), h), last);
    }
  }

  lemma StillKeeps(c: Client, r: Reservation, d: Client, a: Attempt)
    requires Numbered(d) && KeepsSince(c, r, d)
    ensures Numbered(ClientAfter(d, a)) && KeepsSince(c, r, ClientAfter(d, a))
  {
    ReservesNumbered(d, a);
  }

  /** Of two pops of one object under different reservations, whatever calls came
      between them, the earlier one's IDs sort first exactly when the later one's
      reservation was not kept from before the earlier pop. */
  lemma PopsInOrder(c: Client, first: Attempt, between: seq<Attempt>, second: Attempt, owner: Owner, i: nat, j: nat)
    requires Numbered(c) && HasRoom(first) && HasRoom(second)
    requires var d := ClientAfterAll(ClientAfter(c, first), between);
      var (r, r') := (ReservationOf(c, first), ReservationOf(d, second));
      && r.start != r'.start && d.ackSeq + 1 < UINT64_LIMIT && 1 <= i <= r.want && 1 <= j <= r'.want
    ensures var (r, r') := (ReservationOf(c, first),
      ReservationOf(ClientAfterAll(ClientAfter(c, first), between), second));
      Lex(AckId(owner, r.start, i), AckId(owner, r'.start, j)) <==> !KeptBefore(c, r')
  {
    var d := ClientAfterAll(ClientAfter(c, first), between);
    var (r, r') := (ReservationOf(c, first), ReservationOf(d, second));
    ReservesNumbered(c, first);
    LaterKeeps(c, first, between);
    ReservesNumbered(d, second);
    AckIdOrder(owner, r.start, i, r'.start, j);
  }

  /** The smallest case out of order: a call for two that never ran keeps its
      reservation, a call with one slot pops the first item under a later number,
      and the next call for two pops the others under the kept, earlier one. */
  lemma KeptPopsLater(s: S.Store, g: Settings, a: Item, b: Item, c: Item, now: int)
    requires IsOwner(g.owner) && s.paused.None?
    requires s.work.queue == Listed([a, b, c]) && s.work.pending.nacked == map[]
    ensures var o := Client(None, 0, MAX_POP, 0);
      var (o1, s1, b1) := Dequeue(o, s, g, 2, NotRun, now);
      var (o2, s2, b2) := Dequeue(o1, s1, g, 1, Answered, now);
      var (o3, s3, b3) := Dequeue(o2, s2, g, 2, Answered, now);
      && b1.NoReply?
      && b2 == Batch([a], [AckId(g.owner, 2, 1)], 2)
      && b3 == Batch([b, c], [AckId(g.owner, 1, 1), AckId(g.owner, 1, 2)], 0)
      && Lex(b3.ids[0], b2.ids[0]) && Lex(b3.ids[1], b2.ids[0])
  {
    var o1 := Client(Some(Reservation(1, 2)), 1, MAX_POP, 0);
    var o2 := Client(Some(Reservation(1, 2)), 2, 2, 1);
    var s2 := Ran(s, PopUnderReservation(g, Reservation(2, 1), 1), now).0;
    assert Dequeue(Client(None, 0, MAX_POP, 0), s, g, 2, NotRun, now) == (o1, s, NoReply);
    PopsPastKept(s, g, a, b, c, now);
    PopsKept(s2, g, b, c, now);
    AckIdOrder(g.owner, 1, 1, 2, 1);
    AckIdOrder(g.owner, 1, 2, 2, 1);
  }

  lemma PopsPastKept(s: S.Store, g: Settings, a: Item, b: Item, c: Item, now: int)
    requires IsOwner(g.owner) && s.paused.None?
    requires s.work.queue == Listed([a, b, c]) && s.work.pending.nacked == map[]
    ensures var t := Ran(s, PopUnderReservation(g, Reservation(2, 1), 1), now).0;
      && Dequeue(Client(Some(Reservation(1, 2)), 1, MAX_POP, 0), s, g, 1, Answered, now)
         == (Client(Some(Reservation(1, 2)), 2, 2, 1), t, Batch([a], [AckId(g.owner, 2, 1)], 2))
      && t.work.queue == Listed([b, c]) && t.paused.None? && t.work.pending.nacked.Keys == {AckId(g.owner, 2, 1)}
  {
    OneTaken(s, PopUnderReservation(g, Reservation(2, 1), 1), now, a, b, c);
    assert AckIdsOf(g.owner, 2, 1) == [AckId(g.owner, 2, 1)];
  }

  lemma PopsKept(s: S.Store, g: Settings, b: Item, c: Item, now: int)
    requires IsOwner(g.owner) && s.paused.None?
    requires s.work.queue == Listed([b, c]) && s.work.pending.nacked.Keys == {AckId(g.owner, 2, 1)}
    ensures Dequeue(Client(Some(Reservation(1, 2)), 2, 2, 1), s, g, 2, Answered, now).2
            == Batch([b, c], [AckId(g.owner, 1, 1), AckId(g.owner, 1, 2)], 0)
  {
    TwoTaken(s, PopUnderReservation(g, Reservation(1, 2), 2), now, b, c);
    assert AckIdsOf(g.owner, 1, 2) == [AckId(g.owner, 1, 1), AckId(g.owner, 1, 2)];
  }

  lemma OneTaken(s: S.Store, p: Pop, now: int, a: Item, b: Item, c: Item)
    requires IsOwner(p.owner) && p.reservation == 2 && p.want == 1 && s.paused.None?
    requires s.work.queue == Listed([a, b, c]) && s.work.pending.nacked == map[]
    ensures var (t, reply) := Ran(s, p, now);
      && reply == Reply(2, [a], false) && t.work.queue == Listed([b, c]) && t.paused.None?
      && t.work.pending.nacked == map[AckId(p.owner, 2, 1) := a]
  {
    var ids: seq<Id>, items := [FirstId(p)], FrontItems(s.work.queue, 1);
    assert items == [a] && [a, b, c][1..] == [b, c];
    assert ids[..0] == [] && items[..0] == [];
    assert Put(s.work.pending.nacked, ids[..0], items[..0]) == map[];
  }

  /** And with nothing ever kept: of two calls in flight under numbers 1 and 2, the
      second one's pop runs first (Reservations.InFlightOutOfOrder), takes the first
      item, and its ID sorts last. */
  lemma SecondRunsFirst(s: S.Store, g: Settings, a: Item, b: Item, c: Item, now: int)
    requires IsOwner(g.owner) && s.paused.None?
    requires s.work.queue == Listed([a, b, c]) && s.work.pending.nacked == map[]
    ensures var p1 := PopUnderReservation(g, Reservation(1, 1), 1);
      var p2 := PopUnderReservation(g, Reservation(2, 1), 1);
      var (t, first) := Ran(s, p2, now);
      var (u, second) := Ran(t, p1, now);
      && first.items == [a] && second.items == [b] && Lex(FirstId(p1), FirstId(p2))
  {
    var (p1, p2) := (PopUnderReservation(g, Reservation(1, 1), 1), PopUnderReservation(g, Reservation(2, 1), 1));
    OneTaken(s, p2, now, a, b, c);
    AckIdOrder(g.owner, 1, 1, 2, 1);
    LexIrreflexive(FirstId(p1));
    NextTaken(Ran(s, p2, now).0, p1, now, b, c);
  }

  lemma NextTaken(s: S.Store, p: Pop, now: int, b: Item, c: Item)
    requires p.want == 1 && s.paused.None? && FirstId(p) !in s.work.pending.nacked && s.work.queue == Listed([b, c])
    ensures Ran(s, p, now).1.items == [b]
  {
    assert FrontItems(s.work.queue, 1) == [b];
  }

  lemma TwoTaken(s: S.Store, q: Pop, now: int, b: Item, c: Item)
    requires IsOwner(q.owner) && q.reservation == 1 && q.want == 2 && s.paused.None?
    requires s.work.queue == Listed([b, c])
    requires s.work.pending.nacked.Keys == {AckId(q.owner, 2, 1)}
    ensures Ran(s, q, now).1 == Reply(0, [b, c], false)
  {
    var ids := IdsOf(q);
    assert !Held(s.work.pending.nacked, ids) by {
      AckIdInjective(q.owner, 1, 1, q.owner, 2, 1);
      AckIdInjective(q.owner, 1, 2, q.owner, 2, 1);
    }
    assert FrontItems(s.work.queue, 2) == [b, c];
  }
}

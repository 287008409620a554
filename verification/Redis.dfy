/** The scripts as Redis runs them: step by step over the queue's keys. Each
    method is proved to do what its function in module Store says. */
module RedisServer {
  import opened ByteStrings
  import opened SortedSets
  import opened AckIds
  import opened WaitingQueue
  import opened S = Store
  import opened Runs
  import opened ScriptSteps
  import opened Refusals

  /** The items and scores of popped members, without their stamps. */
  method Unstamp(members: Zset, popped: seq<Bytes>) returns (items: seq<Item>, scores: seq<int>)
    requires forall j :: 0 <= j < |popped| ==> popped[j] in members
    ensures |items| == |scores| == |popped|
    ensures forall j :: 0 <= j < |popped| ==> items[j] == ItemOf(popped[j]) && scores[j] == members[popped[j]]
  {
    items, scores := [], [];
    var i := 0;
    while i < |popped|
      invariant 0 <= i == |items| == |scores| <= |popped|
      invariant forall j :: 0 <= j < i ==> items[j] == ItemOf(popped[j]) && scores[j] == members[popped[j]]
    {
      items, scores := items + [ItemOf(popped[i])], scores + [members[popped[i]]];
      i := i + 1;
    }
  }

  /** ZPOPMIN: what it returns and what it leaves. */
  method PopMin(members: Zset, want: nat) returns (items: seq<Item>, scores: seq<int>, rest: Zset)
    ensures var (q, n) := (Ranked(members), Min(want, |members|));
      items == FrontItems(q, n) && scores == FrontScores(q, n) && Ranked(rest) == Rest(q, n)
  {
    PoppedFirst(members, want);
    var popped := Take(Order(members), want);
    items, scores := Unstamp(members, popped);
    rest := members - Members(popped);
    UnstampedFront(members, |popped|, items, scores);
  }

  class Redis {
    const envid: Bytes -> Bytes

    // <key>, <key>:seq
    var queue: Waiting
    var seqNo: nat
    // :nacked, :timeouts, :started, :prio, :attempts
    var nacked: map<Id, Item>
    var timeouts: Zset
    var started: map<Id, int>
    var prio: map<Id, int>
    var attempts: map<Bytes, nat>
    // :heartbeats, :heartbeats:clock, :presence
    var heartbeats: Zset
    var clock: Option<int>
    var presence: Zset
    // :idle, :paused, :dedup:<id>
    var idle: set<Owner>
    var paused: Option<int>
    var dedup: map<Bytes, int>
    // :stats, :jobs, :completed, :failed
    var stats: Stats
    var jobs: map<Bytes, Record>
    var completed: Zset
    var failed: Zset

    constructor (envid: Bytes -> Bytes, ranked: bool)
      ensures View() == Empty(ranked) && this.envid == envid
    {
      this.envid := envid;
      queue, seqNo := if ranked then Ranked(map[]) else Listed([]), 0;
      nacked, timeouts, started, prio, attempts := map[], map[], map[], map[], map[];
      heartbeats, clock, presence := map[], None, map[];
      idle, paused, dedup := {}, None, map[];
      stats, jobs, completed, failed := Stats(0, 0, 0), map[], map[], map[];
    }

    ghost function PendingView(): Pending
      reads `nacked, `timeouts, `started, `prio
    {
      Pending(nacked, timeouts, started, prio)
    }

    ghost function WorkView(): Work
      reads `queue, `seqNo, `nacked, `timeouts, `started, `prio, `attempts
    {
      Work(queue, seqNo, PendingView(), attempts)
    }

    ghost function OwnersView(): Owners
      reads `heartbeats, `clock, `presence
    {
      Owners(heartbeats, clock, presence)
    }

    ghost function RecordsView(): Records
      reads `jobs, `completed, `failed
    {
      Records(jobs, completed, failed)
    }

    ghost function View(): S.Store
      reads this
    {
      S.Store.Store(WorkView(), OwnersView(), idle, paused, dedup, stats, RecordsView())
    }

    // ---- enqueue ----

    /** listPushBody and zsetPushBody; with `refused` the RPUSH or ZADD fails. */
    method Push(item: Item, score: int, refused: bool) returns (ok: bool)
      modifies `queue, `seqNo, `stats
      ensures (View(), ok) == PushUntil(old(View()), item, score, refused)
    {
      match queue {
        case Listed(items) =>
          if refused {
            return false;
          }
          queue := Listed(items + [item]);
        case Ranked(members) =>
          seqNo := seqNo + 1;
          if refused {
            return false;
          }
          queue := Ranked(members[Encode(seqNo, item) := score]);
      }
      stats := stats.(submitted := stats.submitted + 1);
      ok := true;
    }

    /** once(...): the id's key is set only after the push. */
    method PushOnce(key: Bytes, window: int, item: Item, score: int, now: int, refused: bool)
      returns (pushed: bool, ok: bool)
      modifies `queue, `seqNo, `stats, `dedup
      ensures (View(), ok) == PushOnceUntil(old(View()), key, window, item, score, now, refused)
      ensures pushed <==> ok && !Remembered(old(View()), key, now)
    {
      if key in dedup && now <= dedup[key] {
        return false, true;
      }
      ok := Push(item, score, refused);
      if ok {
        dedup := dedup[key := now + window];
      }
      pushed := ok;
    }

    /** wake(count), with picks the members in the order SPOP draws them. A
        PUBLISH to one that has gone reaches nobody, and the next is tried. */
    method WakeUpTo(picks: seq<Owner>, subs: set<Owner>, count: int) returns (woken: int)
      requires Draws(picks, idle)
      modifies `idle
      ensures View() == WakeIdle(old(View()), picks, subs, count)
      ensures woken == |Wake(picks, subs, count).reached|
    {
      woken := 0;
      var i := 0;
      ghost var (all, reached: set<Owner>) := (Wake(picks, subs, count), {});
      while woken < count && idle != {}
        invariant 0 <= i <= |picks| && idle == Members(picks[i..])
        invariant |reached| == woken && WakeSoFar(all, reached, picks[i..], subs, count)
        decreases |picks| - i
      {
        NoMembers(picks[i..]);
        var id := picks[i];
        TailMembers(picks, i);
        WakeDraws(all, reached, id, picks[i + 1..], subs, count);
        idle := idle - {id};
        i := i + 1;
        if id in subs {
          woken := woken + 1;
          reached := reached + {id};
        }
      }
      WakeStops(all, reached, picks[i..], subs, count);
    }

    /** listPushWakeBody and zsetPushWakeBody: a wake per waiting item. */
    method PushWake(item: Item, score: int, picks: seq<Owner>, subs: set<Owner>, refused: bool) returns (ok: bool)
      requires Draws(picks, idle)
      modifies `queue, `seqNo, `stats, `idle
      ensures var (s, done) := PushUntil(old(View()), item, score, refused);
        ok == done && View() == if done then WakeIdle(s, picks, subs, Len(s.work.queue)) else s
    {
      ok := Push(item, score, refused);
      if ok {
        var _ := WakeUpTo(picks, subs, Len(queue));
      }
    }

    /** The same under once(...): a repeat wakes no one. */
    method PushWakeOnce(key: Bytes, window: int, item: Item, score: int, now: int, picks: seq<Owner>, subs: set<Owner>,
        refused: bool) returns (ok: bool)
      requires Draws(picks, idle)
      modifies `queue, `seqNo, `stats, `dedup, `idle
      ensures var (s, done) := PushOnceUntil(old(View()), key, window, item, score, now, refused);
        && ok == done
        && View() == if done && !Remembered(old(View()), key, now) then WakeIdle(s, picks, subs, Len(s.work.queue))
                     else s
    {
      if key in dedup && now <= dedup[key] {
        return true;
      }
      ok := PushWake(item, score, picks, subs, refused);
      if ok {
        dedup := dedup[key := now + window];
      }
    }

    // ---- ack pops ----

    /** beat(). */
    method Beat(p: Pop, now: int)
      modifies `heartbeats
      ensures OwnersView() == S.Beat(old(OwnersView()), p.owner, p.heartbeat, now)
    {
      if p.heartbeat > 0 {
        heartbeats := heartbeats[p.owner := now + p.heartbeat];
      }
    }

    /** reply(items): the length, and the idle rule in the same step. */
    method ReplyWith(items: seq<Item>, p: Pop) returns (r: Reply)
      modifies `idle
      ensures (View(), r) == Answer(old(View()), items, p)
    {
      var len := Len(queue);
      if p.consumer != [] && len == 0 && |items| < p.slots {
        idle := idle + {p.consumer};
      }
      r := Reply(len, items, false);
    }

    /** The IDs of a call, built one by one. */
    method BuildIds(p: Pop) returns (ids: seq<Id>)
      ensures ids == IdsOf(p)
    {
      ids := [];
      var i := 1;
      while i <= p.want
        invariant 1 <= i <= p.want + 1 && |ids| == i - 1
        invariant forall j :: 0 <= j < |ids| ==> ids[j] == AckId(p.owner, p.reservation, j + 1)
      {
        ids := ids + [AckId(p.owner, p.reservation, i)];
        i := i + 1;
      }
    }

    /** One re-sent item's deadline, raised to dl but never lowered. */
    method RaiseDeadline(id: Id, dl: int)
      modifies `timeouts
      ensures timeouts == Raised(old(timeouts), [id], dl)
    {
      ghost var one: seq<Id> := [id];
      assert one[..0] == [];
      if dl > 0 && (id !in timeouts || timeouts[id] < dl) {
        timeouts := timeouts[id := dl];
      }
    }

    /** popHead's hand-back: the leading pending items, up to the first gap. */
    method HandBackRun(ids: seq<Id>, dl: int) returns (items: seq<Item>)
      modifies `timeouts
      ensures var run := ids[..Leading(nacked, ids)];
        items == ItemsUnder(nacked, run) && timeouts == Raised(old(timeouts), run, dl)
    {
      items := [];
      var j := 0;
      while j < |ids|
        invariant 0 <= j <= |ids| && forall k :: 0 <= k < j ==> ids[k] in nacked
        invariant items == ItemsUnder(nacked, ids[..j])
        invariant timeouts == Raised(old(timeouts), ids[..j], dl)
      {
        if ids[j] !in nacked {
          break;
        }
        items := items + [nacked[ids[j]]];
        RaisedOneMore(old(timeouts), ids, j, dl);
        RaiseDeadline(ids[j], dl);
        j := j + 1;
      }
      LeadingIs(nacked, ids, j);
    }

    /** LRANGE + LTRIM, or ZPOPMIN with the stamps cut off and the scores kept. */
    method TakeFront(ids: seq<Id>, want: nat) returns (items: seq<Item>)
      requires |ids| == want
      modifies `queue, `prio
      ensures var n := Min(want, Len(old(queue)));
        && items == FrontItems(old(queue), n) && queue == Rest(old(queue), n)
        && prio == if old(queue).Ranked? then Put(old(prio), ids[..n], FrontScores(old(queue), n)) else old(prio)
    {
      if queue.Listed? {
        FrontOfListed(queue.items, want);
        items := Take(queue.items, want);
        queue := Listed(queue.items[|items|..]);
      } else {
        var scores, rest;
        items, scores, rest := PopMin(queue.members, want);
        queue := Ranked(rest);
        prio := Put(prio, ids[..|items|], scores);
      }
    }

    /** popTail's bookkeeping: the items enter processing under their IDs. */
    method TakeIn(ids: seq<Id>, items: seq<Item>, dl: int, p: Pop, now: int)
      requires |ids| == |items|
      modifies `nacked, `timeouts, `started, `heartbeats
      ensures nacked == Put(old(nacked), ids, items)
      ensures timeouts == if dl > 0 then PutAll(old(timeouts), ids, dl) else old(timeouts)
      ensures started == PutAll(old(started), ids, Millis(now))
      ensures OwnersView() == BeatFor(old(OwnersView()), |ids|, p, now)
    {
      if |items| > 0 {
        nacked := Put(nacked, ids, items);
        if dl > 0 {
          timeouts := PutAll(timeouts, ids, dl);
        }
        started := PutAll(started, ids, Millis(now));
        Beat(p, now);
      }
    }

    /** The re-send guard, once it found an ID pending. */
    method HandBack(ids: seq<Id>, p: Pop, now: int) returns (items: seq<Item>)
      modifies `timeouts, `heartbeats
      ensures var run := ids[..Leading(nacked, ids)];
        items == ItemsUnder(nacked, run) && View() == S.HandBack(old(View()), run, p, now)
    {
      items := HandBackRun(ids, Deadline(now, p.visibility));
      if |items| > 0 {
        Beat(p, now);
      }
    }

    /** The pop and popTail. */
    method TakeOut(ids: seq<Id>, want: nat, p: Pop, now: int) returns (items: seq<Item>)
      requires |ids| == want
      modifies `queue, `nacked, `timeouts, `started, `prio, `heartbeats
      ensures var n := Min(want, Len(old(queue)));
        items == FrontItems(old(queue), n) && View() == S.TakeOut(old(View()), ids[..n], p, now)
    {
      items := TakeKeys(ids, want, p, now);
    }

    /** The keys it changes; nothing else changes with them. */
    method TakeKeys(ids: seq<Id>, want: nat, p: Pop, now: int) returns (items: seq<Item>)
      requires |ids| == want
      modifies `queue, `nacked, `timeouts, `started, `prio, `heartbeats
      ensures var n := Min(want, Len(old(queue)));
        && items == FrontItems(old(queue), n)
        && WorkView() == TakeWork(old(WorkView()), ids[..n], Deadline(now, p.visibility), Millis(now))
        && OwnersView() == BeatFor(old(OwnersView()), n, p, now)
    {
      items := TakeFront(ids, want);
      TakeIn(ids[..|items|], items, Deadline(now, p.visibility), p, now);
    }

    /** popHead + pausedBatch + the pop + popTail. */
    method BatchPop(p: Pop, now: int) returns (r: Reply)
      modifies `queue, `nacked, `timeouts, `started, `prio, `heartbeats, `idle
      ensures (View(), r) == S.BatchPop(old(View()), p, now)
    {
      var ids := BuildIds(p);
      var i := 0;
      while i < p.want
        invariant 0 <= i <= p.want && forall j :: 0 <= j < i ==> ids[j] !in nacked
      {
        if ids[i] in nacked {
          var items := HandBack(ids, p, now);
          r := ReplyWith(items, p);
          return;
        }
        i := i + 1;
      }
      if paused.Some? {
        return Reply(0, [], true);
      }
      var items := TakeOut(ids, p.want, p, now);
      r := ReplyWith(items, p);
    }

    /** The guard of the one-item scripts. */
    method HandBackOne(id: Id, p: Pop, now: int)
      modifies `timeouts, `heartbeats
      ensures View() == S.HandBack(old(View()), [id], p, now)
    {
      RaiseDeadline(id, Deadline(now, p.visibility));
      Beat(p, now);
    }

    /** popOneLenHead + pausedBatch + the pop + popOneLenTail. */
    method LeanPop(p: Pop, now: int) returns (r: Reply)
      modifies `queue, `nacked, `timeouts, `started, `prio, `heartbeats, `idle
      ensures (View(), r) == S.LeanPop(old(View()), p, now)
    {
      var id := FirstId(p);
      if id in nacked {
        HandBackOne(id, p, now);
        r := ReplyWith([nacked[id]], p);
      } else if paused.Some? {
        r := Reply(0, [], true);
      } else if Len(queue) == 0 {
        r := ReplyWith([], p);
      } else {
        var items := TakeFirst(id, p, now);
        r := ReplyWith(items, p);
      }
    }

    /** The one-item pop and its bookkeeping. */
    method TakeFirst(id: Id, p: Pop, now: int) returns (items: seq<Item>)
      requires 0 < Len(queue)
      modifies `queue, `nacked, `timeouts, `started, `prio, `heartbeats
      ensures items == FrontItems(old(queue), 1) && View() == S.TakeOut(old(View()), [id], p, now)
    {
      ghost var ids: seq<Id> := [id];
      assert ids[..1] == ids;
      items := TakeOut([id], 1, p, now);
    }

    /** popOneHead + pausedOne + the pop + popOneTail. */
    method SinglePop(p: Pop, now: int) returns (r: OneReply)
      modifies `queue, `nacked, `timeouts, `started, `prio, `heartbeats, `idle
      ensures (View(), r) == S.SinglePop(old(View()), p, now)
    {
      var id := FirstId(p);
      if id in nacked {
        HandBackOne(id, p, now);
        r := Got(nacked[id]);
      } else if paused.Some? {
        r := Refused;
      } else if Len(queue) == 0 {
        if p.consumer != [] {
          idle := idle + {p.consumer};
        }
        r := NoItem;
      } else {
        var items := TakeFirst(id, p, now);
        r := Got(items[0]);
      }
    }

    // ---- requeues ----

    /** listRepush and zsetRepush; with `refused` the LPUSH or ZADD fails. */
    method Repush(item: Item, id: Id, refused: bool) returns (ok: bool)
      modifies `queue, `seqNo, `prio
      ensures ok == !refused && seqNo == NextSeq(old(WorkView()))
      ensures queue == if ok then Fronted(old(queue), seqNo, item, ScoreOf(old(PendingView()), id)) else old(queue)
      ensures prio == if ok && old(queue).Ranked? then old(prio) - {id} else old(prio)
    {
      if queue.Listed? {
        if refused {
          return false;
        }
        queue := Listed([item] + queue.items);
      } else {
        seqNo := seqNo + 1;
        if refused {
          return false;
        }
        queue := Ranked(queue.members[Encode(seqNo, item) := if id in prio then prio[id] else 1]);
        prio := prio - {id};
      }
      ok := true;
    }

    /** The push of listRequeue and zsetRequeue, which drops the score first. */
    method RequeuePush(item: Item, id: Id, refused: bool) returns (ok: bool)
      modifies `queue, `seqNo, `prio
      ensures ok == !refused && seqNo == NextSeq(old(WorkView()))
      ensures queue == if ok then Fronted(old(queue), seqNo, item, ScoreOf(old(PendingView()), id)) else old(queue)
      ensures prio == if old(queue).Ranked? then old(prio) - {id} else old(prio)
    {
      if queue.Listed? {
        if refused {
          return false;
        }
        queue := Listed([item] + queue.items);
      } else {
        seqNo := seqNo + 1;
        var score := if id in prio then prio[id] else 1;
        prio := prio - {id};
        if refused {
          return false;
        }
        queue := Ranked(queue.members[Encode(seqNo, item) := score]);
      }
      ok := true;
    }

    /** requeued(v, id). */
    method CountRequeue(item: Item, id: Id)
      modifies `started, `attempts
      ensures started == old(started) - {id} && attempts == Counted(envid, old(attempts), item)
    {
      started := started - {id};
      var e := envid(item);
      if e != [] {
        attempts := attempts[e := CountOf(attempts, e) + 1];
      }
    }

    /** move(id): pushes before it drops. A push that fails ends the script. */
    method MoveBack(id: Id, refused: set<Id>) returns (n: nat, ok: bool)
      modifies `queue, `seqNo, `nacked, `timeouts, `started, `prio, `attempts
      ensures (WorkView(), ok) == MoveTurn(envid, (old(WorkView()), true), id, refused)
      ensures n == |old(nacked)| - |nacked|
    {
      n := 0;
      WithoutOne(nacked, id);
      if id in nacked {
        var item := nacked[id];
        ok := Repush(item, id, id in refused);
        if !ok {
          return;
        }
        nacked := nacked - {id};
        CountRequeue(item, id);
        n := 1;
      }
      timeouts := timeouts - {id};
      ok := true;
    }

    /** One turn of requeueLoop: drops before it pushes. Dropping an ID that is
        not pending changes only its deadline. */
    method RequeueOne(id: Id, refused: set<Id>) returns (n: nat, ok: bool)
      modifies `queue, `seqNo, `nacked, `timeouts, `started, `prio, `attempts
      ensures (WorkView(), ok) == RequeueTurn(envid, (old(WorkView()), true), id, refused)
      ensures ok ==> n == |old(nacked)| - |nacked|
    {
      n := 0;
      WithoutOne(nacked, id);
      if id in nacked {
        var item := nacked[id];
        nacked := nacked - {id};
        timeouts := timeouts - {id};
        ok := RequeuePush(item, id, id in refused);
        if !ok {
          return;
        }
        CountRequeue(item, id);
        n := 1;
      } else {
        timeouts := timeouts - {id};
      }
      ok := true;
    }

    /** requeueLoop over its IDs. */
    method RequeueInTurn(ids: seq<Id>, refused: set<Id>) returns (n: nat, ok: bool)
      modifies `queue, `seqNo, `nacked, `timeouts, `started, `prio, `attempts
      ensures (WorkView(), ok) == RequeueUntil(envid, old(WorkView()), ids, refused)
      ensures ok ==> n == |old(nacked)| - |nacked|
    {
      n := 0;
      var i := 0;
      while i < |ids|
        invariant 0 <= i <= |ids|
        invariant (WorkView(), true) == RequeueUntil(envid, old(WorkView()), ids[..i], refused)
        invariant n == |old(nacked)| - |nacked|
      {
        TurnAt(envid, old(WorkView()), ids, i, refused);
        var k;
        k, ok := RequeueOne(ids[i], refused);
        i := i + 1;
        if !ok {
          RequeueStopped(envid, old(WorkView()), ids, i, refused);
          return;
        }
        n := n + k;
      }
      assert ids[..i] == ids;
      ok := true;
    }

    /** listRequeue and zsetRequeue; listing is what HKEYS returns. */
    method RequeueNacked(visibility: int, listing: seq<Id>, now: int, refused: set<Id>) returns (n: nat, ok: bool)
      modifies `queue, `seqNo, `nacked, `timeouts, `started, `prio, `attempts
      ensures (View(), ok) == RequeueNackedUntil(envid, old(View()), visibility, listing, now, refused)
      ensures ok ==> n == |old(nacked)| - |nacked|
    {
      n, ok := RequeueInTurn(if visibility > 0 then UpTo(timeouts, now) else listing, refused);
    }

    /** The loop that moves one ID after the other and adds up what left pending. */
    method MoveInTurn(ids: seq<Id>, refused: set<Id>) returns (n: nat, ok: bool)
      modifies `queue, `seqNo, `nacked, `timeouts, `started, `prio, `attempts
      ensures (WorkView(), ok) == MoveUntil(envid, old(WorkView()), ids, refused)
      ensures n == |old(nacked)| - |nacked|
    {
      n := 0;
      var i := 0;
      while i < |ids|
        invariant 0 <= i <= |ids|
        invariant (WorkView(), true) == MoveUntil(envid, old(WorkView()), ids[..i], refused)
        invariant n == |old(nacked)| - |nacked|
      {
        TurnAt(envid, old(WorkView()), ids, i, refused);
        var k;
        k, ok := MoveBack(ids[i], refused);
        n := n + k;
        i := i + 1;
        if !ok {
          MoveStopped(envid, old(WorkView()), ids, i, refused);
          return;
        }
      }
      assert ids[..i] == ids;
      ok := true;
    }

    /** Nothing else changes with it. */
    method MoveEach(ids: seq<Id>, refused: set<Id>) returns (n: nat, ok: bool)
      modifies `queue, `seqNo, `nacked, `timeouts, `started, `prio, `attempts
      ensures ok == MoveUntil(envid, old(WorkView()), ids, refused).1
      ensures View() == old(View()).(work := MoveUntil(envid, old(WorkView()), ids, refused).0)
      ensures n == |old(nacked)| - |nacked|
    {
      n, ok := MoveInTurn(ids, refused);
    }

    // ---- sweep and release ----

    /** ZINCRBY of every heartbeat, in whatever order. */
    method ShiftHeartbeats(gap: int)
      modifies `heartbeats
      ensures heartbeats == PlusAll(old(heartbeats), gap)
    {
      var todo := heartbeats.Keys;
      while todo != {}
        invariant todo <= heartbeats.Keys == old(heartbeats).Keys
        invariant forall m :: m in heartbeats ==> heartbeats[m] == old(heartbeats)[m] + if m in todo then 0 else gap
      {
        var m :| m in todo;
        heartbeats := heartbeats[m := heartbeats[m] + gap];
        todo := todo - {m};
      }
    }

    /** ZINCRBY of every mark above 0. */
    method ShiftMarks(gap: int)
      modifies `presence
      ensures presence == PlusMarks(old(presence), gap)
    {
      var todo := set m | m in presence && presence[m] > 0;
      while todo != {}
        invariant presence.Keys == old(presence).Keys
        invariant forall m :: m in todo ==> m in presence && old(presence)[m] > 0
        invariant forall m :: m in presence ==>
          presence[m] == old(presence)[m] + if old(presence)[m] > 0 && m !in todo then gap else 0
      {
        var m :| m in todo;
        presence := presence[m := presence[m] + gap];
        todo := todo - {m};
      }
    }

    /** The stall guard. */
    method GuardStall(now: int)
      modifies `heartbeats, `presence
      ensures OwnersView() == Shifted(old(OwnersView()), now)
    {
      if clock.Some? && now - clock.value > SWEEP_GAP {
        ShiftHeartbeats(now - clock.value);
        ShiftMarks(now - clock.value);
      }
    }

    /** The sweeper's own heartbeat and mark. */
    method RenewOwn(me: Owner, heartbeat: int, now: int) returns (lapsed: bool)
      modifies `heartbeats, `presence
      ensures OwnersView() == Renewed(old(OwnersView()), me, heartbeat, now)
      ensures lapsed <==> !(me in old(heartbeats) && old(heartbeats)[me] >= now)
    {
      var own := if me in heartbeats then Some(heartbeats[me]) else None;
      if own.Some? {
        if heartbeat > 0 {
          heartbeats := heartbeats[me := now + heartbeat];
          if me in presence {
            presence := presence[me := 0];
          }
        } else {
          heartbeats := heartbeats - {me};
          presence := presence - {me};
        }
      }
      lapsed := !(own.Some? && own.value >= now);
    }

    /** The first part of tickBody: the stall guard, the clock and the sweeper's
        own heartbeat. */
    method Prepare(me: Owner, heartbeat: int, now: int) returns (ticked: bool, lapsed: bool)
      modifies `heartbeats, `clock, `presence
      ensures View() == old(View()).(owners := Prepared(old(OwnersView()), me, heartbeat, now))
      ensures ticked <==> Ticks(old(OwnersView()), now)
      ensures lapsed <==> Lapsed(old(OwnersView()), me, now)
    {
      ticked, lapsed := PrepareOwners(me, heartbeat, now);
    }

    method PrepareOwners(me: Owner, heartbeat: int, now: int) returns (ticked: bool, lapsed: bool)
      modifies `heartbeats, `clock, `presence
      ensures OwnersView() == Prepared(old(OwnersView()), me, heartbeat, now)
      ensures ticked <==> Ticks(old(OwnersView()), now)
      ensures lapsed <==> Lapsed(old(OwnersView()), me, now)
    {
      var last := clock;
      GuardStall(now);
      ticked := last.None? || now - last.value >= CLOCK_STEP || now < last.value;
      if ticked {
        clock := Some(now);
      }
      lapsed := RenewOwn(me, heartbeat, now);
    }

    /** The count of the live owners' subscribers: what it marks, and who it
        finds gone. */
    method CountSubscribers(live: seq<Owner>, subs: set<Owner>, now: int) returns (gone: set<Owner>)
      requires forall i, j :: 0 <= i < j < |live| ==> live[i] != live[j]
      modifies `presence
      ensures presence == Marked(old(presence), Members(live), subs, now)
      ensures gone == GoneAmong(old(presence), Members(live), subs, now)
    {
      gone := {};
      var i := 0;
      MarkedNone(presence, subs, now);
      while i < |live|
        invariant 0 <= i <= |live|
        invariant presence == Marked(old(presence), Members(live[..i]), subs, now)
        invariant gone == GoneAmong(old(presence), Members(live[..i]), subs, now)
      {
        var m := live[i];
        PrefixMembers(live, i);
        MarkedOneMore(old(presence), Members(live[..i]), m, subs, now);
        var s := if m in presence then Some(presence[m]) else None;
        if m in subs {
          if s != Some(0) {
            presence := presence[m := 0];
          }
        } else if s == Some(0) {
          presence := presence[m := now];
        } else if s.Some? && now - s.value >= PRESENCE_GRACE {
          gone := gone + {m};
        }
        i := i + 1;
      }
      assert live[..i] == live;
    }

    /** Owners whose heartbeat ran out, up to 100 a sweep. */
    method ExpiredOwners(now: int) returns (dead: set<Owner>)
      ensures dead == Expired(OwnersView(), now)
    {
      dead := {};
      var (expired, i) := (Take(UpTo(heartbeats, now), MAX_EXPIRED), 0);
      while i < |expired|
        invariant 0 <= i <= |expired| && dead == Members(expired[..i])
      {
        PrefixMembers(expired, i);
        dead := dead + {expired[i]};
        i := i + 1;
      }
      assert expired[..i] == expired;
    }

    /** dead: those whose heartbeat ran out, and on a tick those who are gone. */
    method FindDead(ticked: bool, subs: set<Owner>, now: int) returns (dead: set<Owner>)
      modifies `presence
      ensures dead == Dead(old(OwnersView()), ticked, subs, now)
      ensures presence == if ticked then Marked(old(presence), Live(old(OwnersView()), now), subs, now)
        else old(presence)
    {
      dead := ExpiredOwners(now);
      if ticked {
        TakenDistinct(heartbeats, now, MAX_LIVE);
        var gone := CountSubscribers(Take(From(heartbeats, now), MAX_LIVE), subs, now);
        GoneIs(old(OwnersView()), subs, now);
        dead := dead + gone;
      } else {
        assert dead + {} == dead;
      }
    }

    /** HKEYS in whatever order, the dead owners' IDs picked out and sorted. */
    method CollectOwned(dead: set<Owner>) returns (ids: seq<Id>)
      ensures ids == SortedStrings(OwnedIds(nacked, dead))
    {
      var (todo, owned) := (nacked.Keys, {});
      while todo != {}
        invariant todo <= nacked.Keys
        invariant owned == set id | id in nacked && id !in todo && OwnerOf(id) in dead
      {
        var id :| id in todo;
        if OwnerOf(id) in dead {
          owned := owned + {id};
        }
        todo := todo - {id};
      }
      assert owned == OwnedIds(nacked, dead);
      ids := SortedStrings(owned);
    }

    /** The same by prefix (releaseBody). */
    method CollectPrefixed(owner: Owner) returns (ids: seq<Id>)
      ensures ids == SortedStrings(IdsWithPrefix(nacked, owner))
    {
      var (todo, owned) := (nacked.Keys, {});
      while todo != {}
        invariant todo <= nacked.Keys
        invariant owned == set id | id in nacked && id !in todo && HasPrefix(id, owner)
      {
        var id :| id in todo;
        if HasPrefix(id, owner) {
          owned := owned + {id};
        }
        todo := todo - {id};
      }
      assert owned == IdsWithPrefix(nacked, owner);
      ids := SortedStrings(owned);
    }

    /** ZREM of the dead owners' heartbeats and marks. */
    method DropOwners(dead: set<Owner>)
      modifies `heartbeats, `presence
      ensures View() == old(View()).(owners := OwnersWithout(old(OwnersView()), dead))
    {
      var todo := dead;
      while todo != {}
        invariant todo <= dead
        invariant heartbeats == old(heartbeats) - (dead - todo) && presence == old(presence) - (dead - todo)
      {
        var m :| m in todo;
        heartbeats := heartbeats - {m};
        presence := presence - {m};
        todo := todo - {m};
      }
      assert dead - todo == dead;
    }

    /** The dead owners' items moved back, and then their entries dropped. */
    method ReapDead(dead: set<Owner>, refused: set<Id>) returns (n: nat, ok: bool)
      modifies `queue, `seqNo, `nacked, `timeouts, `started, `prio, `attempts, `heartbeats, `presence
      ensures ok == MoveUntil(envid, old(WorkView()), SortedStrings(OwnedIds(old(nacked), dead)), refused).1
      ensures View() == old(View()).(
        work := MoveUntil(envid, old(WorkView()), SortedStrings(OwnedIds(old(nacked), dead)), refused).0,
        owners := if ok then OwnersWithout(old(OwnersView()), dead) else old(OwnersView()))
      ensures n == |old(nacked)| - |nacked|
    {
      n, ok := 0, true;
      if dead != {} {
        var ids := CollectOwned(dead);
        n, ok := MoveEach(ids, refused);
        if ok {
          DropOwners(dead);
        }
      } else {
        NoneDead(nacked, OwnersView());
      }
    }

    /** The second part of tickBody, once there is a clock. */
    method Reap(ticked: bool, subs: set<Owner>, now: int, refused: set<Id>) returns (n: nat, ok: bool)
      modifies this
      ensures (View(), ok) == ReapUntil(envid, old(View()), ticked, subs, now, refused)
      ensures n == |old(nacked)| - |nacked|
    {
      var dead := FindDead(ticked, subs, now);
      n, ok := ReapDead(dead, refused);
    }

    /** tickBody: how many items moved, whether the sweeper's own heartbeat had
        lapsed, whether the queue is paused, and whether it ran to its end. */
    method Sweep(me: Owner, heartbeat: int, subs: set<Owner>, now: int, refused: set<Id>)
      returns (n: nat, lapsed: bool, held: bool, ok: bool)
      modifies this
      ensures (View(), ok) == SweepUntil(envid, old(View()), me, heartbeat, subs, now, refused)
      ensures n == |old(nacked)| - |nacked|
      ensures lapsed <==> Lapsed(old(OwnersView()), me, now)
      ensures held <==> old(paused).Some?
    {
      held := paused.Some?;
      var last := clock;
      var ticked;
      ticked, lapsed := Prepare(me, heartbeat, now);
      n, ok := MoveEach(UpTo(timeouts, now), refused);
      if ok && last.Some? {
        var k;
        k, ok := Reap(ticked, subs, now, refused);
        n := n + k;
      }
    }

    /** releaseBody. */
    method Release(owner: Owner, refused: set<Id>) returns (n: nat, ok: bool)
      modifies this
      ensures (View(), ok) == ReleaseUntil(envid, old(View()), owner, refused)
      ensures n == |old(nacked)| - |nacked|
    {
      var ids := CollectPrefixed(owner);
      n, ok := MoveEach(ids, refused);
      if ok {
        DropOwners({owner});
      }
    }

    // ---- finish and trim ----

    /** What trim(z, ...) collects before anything goes. */
    method CollectGone(z: Zset, keep: int, age: int, now: int) returns (gone: seq<Bytes>)
      ensures Members(gone) == TrimmedAway(z, keep, age, now)
    {
      if keep <= 0 || age <= 0 {
        return Take(Order(z), MAX_TRIM);
      }
      gone := Take(UpTo(z, Cutoff(now, age)), MAX_TRIM);
      ghost var aged := Members(gone);
      var over := |z| - keep;
      if over > 0 {
        var (oldest, i) := (Take(Order(z), Min(over, MAX_TRIM)), 0);
        while i < |oldest|
          invariant 0 <= i <= |oldest| && Members(gone) == aged + Members(oldest[..i])
        {
          PrefixMembers(oldest, i);
          AppendMember(gone, oldest[i]);
          gone := gone + [oldest[i]];
          i := i + 1;
        }
        assert oldest[..i] == oldest;
      }
    }

    /** trim(z, jobs, keep, age, now) on the index of one state. */
    method TrimIndex(outcome: Outcome, keep: int, age: int, now: int)
      modifies `jobs, `completed, `failed
      ensures RecordsView() == S.Trim(old(RecordsView()), outcome, keep, age, now)
    {
      var gone := CollectGone(if outcome.Completed? then completed else failed, keep, age, now);
      if outcome.Completed? {
        completed := completed - Members(gone);
      } else {
        failed := failed - Members(gone);
      }
      jobs := jobs - Members(gone);
    }

    /** trimScript. */
    method TrimRecords(keepCompleted: int, ageCompleted: int, keepFailed: int, ageFailed: int, now: int)
      modifies `jobs, `completed, `failed
      ensures View() == old(View()).(records :=
        TrimBoth(old(RecordsView()), keepCompleted, ageCompleted, keepFailed, ageFailed, now))
    {
      TrimIndexes(keepCompleted, ageCompleted, keepFailed, ageFailed, Millis(now));
    }

    /** Both states in turn. */
    method TrimIndexes(keepCompleted: int, ageCompleted: int, keepFailed: int, ageFailed: int, now: int)
      modifies `jobs, `completed, `failed
      ensures RecordsView() == S.Trim(S.Trim(old(RecordsView()), Completed, keepCompleted, ageCompleted, now), Failed,
        keepFailed, ageFailed, now)
    {
      TrimIndex(Completed, keepCompleted, ageCompleted, now);
      TrimIndex(Failed, keepFailed, ageFailed, now);
    }

    /** The job's record kept under its state, or dropped; it leaves the other. */
    method FileRecord(job: Bytes, record: Record, keeps: bool)
      modifies `jobs, `completed, `failed
      ensures RecordsView() == Filed(old(RecordsView()), job, record, keeps)
    {
      if record.state.Completed? {
        failed := failed - {job};
        if keeps {
          completed := completed[job := record.finishedAt];
        }
      } else {
        completed := completed - {job};
        if keeps {
          failed := failed[job := record.finishedAt];
        }
      }
      jobs := if keeps then jobs[job := record] else jobs - {job};
    }

    /** The item leaves processing; what its record will say of it. */
    method LeaveProcessing(id: Id, outcome: Outcome, reason: Bytes, now: int) returns (job: Bytes, record: Record)
      requires id in nacked
      modifies `nacked, `timeouts, `started, `prio, `attempts
      ensures WorkView() == FinishedWork(envid, old(WorkView()), id)
      ensures job == JobId(envid, old(nacked)[id], id)
      ensures record == RecordOf(envid, old(WorkView()), id, outcome, reason, now)
    {
      var item := nacked[id];
      var startedAt := if id in started then Some(started[id]) else None;
      nacked := nacked - {id};
      timeouts := timeouts - {id};
      started := started - {id};
      prio := prio - {id};
      var tries := 1;
      job := envid(item);
      if job != [] {
        tries := 1 + CountOf(attempts, job);
        attempts := attempts - {job};
      } else {
        job := id;
      }
      record := Record(outcome, item, startedAt, Millis(now), tries, if outcome.Failed? then Some(reason) else None);
    }

    /** finishScript. */
    method Finish(id: Id, outcome: Outcome, reason: Bytes, keep: int, age: int, now: int) returns (found: bool)
      modifies `nacked, `timeouts, `started, `prio, `attempts, `stats, `jobs, `completed, `failed
      ensures View() == S.Finish(envid, old(View()), id, outcome, reason, keep, age, now)
      ensures found <==> id in old(nacked)
    {
      found := id in nacked;
      if found {
        var job, record := LeaveProcessing(id, outcome, reason, now);
        CountAndFile(job, record, keep, age, now);
      }
    }

    /** The outcome counted, the record filed, and the state's index trimmed. */
    method CountAndFile(job: Bytes, record: Record, keep: int, age: int, now: int)
      modifies `stats, `jobs, `completed, `failed
      ensures View() == old(View()).(stats := CountedOutcome(old(stats), record.state),
        records := S.Trim(Filed(old(RecordsView()), job, record, keep > 0 && age > 0), record.state, keep, age,
          Millis(now)))
    {
      stats := if record.state.Completed? then stats.(completed := stats.completed + 1)
        else stats.(failed := stats.failed + 1);
      FileOnly(job, record, keep, age, Millis(now));
    }

    /** Filing and trimming, which change only the records. */
    method FileOnly(job: Bytes, record: Record, keep: int, age: int, now: int)
      modifies `jobs, `completed, `failed
      ensures View() == old(View()).(records :=
        S.Trim(Filed(old(RecordsView()), job, record, keep > 0 && age > 0), record.state, keep, age, now))
    {
      FileAndTrim(job, record, keep, age, now);
    }

    /** The record filed, then trim. */
    method FileAndTrim(job: Bytes, record: Record, keep: int, age: int, now: int)
      modifies `jobs, `completed, `failed
      ensures RecordsView() == S.Trim(Filed(old(RecordsView()), job, record, keep > 0 && age > 0), record.state, keep,
        age, now)
    {
      FileRecord(job, record, keep > 0 && age > 0);
      TrimIndex(record.state, keep, age, now);
    }

    /** Purge: one DEL. */
    method Purge()
      modifies `queue, `seqNo, `nacked, `timeouts, `started, `prio, `attempts, `stats, `jobs, `completed, `failed
      ensures View() == S.Purge(old(View()))
    {
      DropItems();
      jobs, completed, failed := map[], map[], map[];
      stats := Stats(0, 0, 0);
    }

    /** The job keys of the DEL. */
    method DropItems()
      modifies `queue, `seqNo, `nacked, `timeouts, `started, `prio, `attempts
      ensures WorkView() == EmptyWork(old(queue).Ranked?)
    {
      queue := if queue.Ranked? then Ranked(map[]) else Listed([]);
      seqNo := 0;
      nacked, timeouts, started, prio, attempts := map[], map[], map[], map[], map[];
    }

    // ---- idle set and pause ----

    /** lenIdle. */
    method LenIdle(consumer: Bytes) returns (n: nat)
      modifies `idle
      ensures View() == S.LenIdle(old(View()), consumer) && n == Len(queue)
    {
      n := Len(queue);
      if n == 0 && consumer != [] {
        idle := idle + {consumer};
      }
    }

    /** nudge. */
    method Nudge(consumer: Bytes, idles: bool) returns (n: nat)
      modifies `idle
      ensures View() == S.Nudge(old(View()), consumer, idles) && n == Len(queue)
    {
      n := Len(queue);
      if n > 0 {
        idle := idle - {consumer};
      } else if idles {
        idle := idle + {consumer};
      }
    }

    /** pauseScript: the first pause time is kept. */
    method Pause(now: int) returns (stored: bool)
      modifies `paused
      ensures View() == S.Pause(old(View()), now) && (stored <==> old(paused).None?)
    {
      stored := paused.None?;
      if stored {
        paused := Some(Millis(now));
      }
    }

    /** resumeScript. */
    method Resume(picks: seq<Owner>, subs: set<Owner>) returns (dropped: bool)
      requires Draws(picks, idle)
      modifies `paused, `idle
      ensures View() == S.Resume(old(View()), picks, subs) && (dropped <==> old(paused).Some?)
    {
      dropped := paused.Some?;
      if dropped {
        paused := None;
        var _ := WakeUpTo(picks, subs, Len(queue));
      }
    }

    // ---- whole runs ----

    /** An ack pop by one of the three scripts. */
    method PopWith(script: PopScript, p: Pop, now: int)
      modifies this
      ensures View() == PopStore(old(View()), script, p, now)
    {
      match script
      case BatchScript => var _ := BatchPop(p, now);
      case LeanScript => var _ := LeanPop(p, now);
      case SingleScript => var _ := SinglePop(p, now);
    }

    /** Enqueue of a plain or of a distributed queue. */
    method Enqueue(item: Item, score: int, wakes: bool, picks: seq<Owner>, subs: set<Owner>, now: int, refused: bool)
      returns (ok: bool)
      requires Draws(picks, idle)
      modifies this
      ensures (View(), ok)
        == Tried(envid, old(View()), Try(Event(now, subs, Call.Enqueue(item, score, wakes, picks)), refused, {}))
    {
      if wakes {
        ok := PushWake(item, score, picks, subs, refused);
      } else {
        ok := Push(item, score, refused);
      }
    }

    /** EnqueueOnce of a plain or of a distributed queue. */
    method EnqueueOnce(key: Bytes, window: int, item: Item, score: int, wakes: bool, picks: seq<Owner>,
        subs: set<Owner>, now: int, refused: bool) returns (ok: bool)
      requires Draws(picks, idle)
      modifies this
      ensures (View(), ok) == Tried(envid, old(View()),
        Try(Event(now, subs, Call.EnqueueOnce(key, window, item, score, wakes, picks)), refused, {}))
    {
      if wakes {
        ok := PushWakeOnce(key, window, item, score, now, picks, subs, refused);
      } else {
        var _, done := PushOnce(key, window, item, score, now, refused);
        ok := done;
      }
    }

    /** One call of any process. */
    method Handle(e: Event)
      requires Proper(View(), e)
      modifies this
      ensures View() == Apply(envid, old(View()), e)
    {
      var now := e.now;
      match e.call
      case Enqueue(item, score, wakes, picks) => var _ := Enqueue(item, score, wakes, picks, e.subs, now, false);
      case EnqueueOnce(key, window, item, score, wakes, picks) =>
        var _ := EnqueueOnce(key, window, item, score, wakes, picks, e.subs, now, false);
      case PopBy(script, p) => PopWith(script, p, now);
      case Settle(id, outcome, reason, keep, age) => var _ := Finish(id, outcome, reason, keep, age, now);
      case RequeueExpired(visibility, listing) =>
        ScriptsUnrefused(envid, View(), [], visibility, listing, now);
        var _, _ := RequeueNacked(visibility, listing, now, {});
      case SweepBy(me, heartbeat) =>
        SweepUnrefused(envid, View(), me, heartbeat, e.subs, now);
        var _, _, _, _ := Sweep(me, heartbeat, e.subs, now, {});
      case CloseBy(me) =>
        ScriptsUnrefused(envid, View(), me, 0, [], now);
        var _, _ := Release(me, {});
      case PurgeAll => Purge();
      case TrimRecords(kc, ac, kf, af) => TrimRecords(kc, ac, kf, af, now);
      case LookIdle(consumer) => var _ := LenIdle(consumer);
      case NudgeBy(consumer, idles) => var _ := Nudge(consumer, idles);
      case BecomeIdle(consumer) => idle := idle + {consumer};
      case Leave(consumer) => idle := idle - {consumer};
      case WakeUp(count, picks) => var _ := WakeUpTo(picks, e.subs, count);
      case PauseQueue => var _ := Pause(now);
      case ResumeQueue(picks) => var _ := Resume(picks, e.subs);
    }

    /** One call of any process, some of whose pushes Redis refuses. */
    method Attempt(t: Try) returns (ok: bool)
      requires Proper(View(), t.event)
      modifies this
      ensures (View(), ok) == Tried(envid, old(View()), t)
    {
      var e, now := t.event, t.event.now;
      match e.call
      case Enqueue(item, score, wakes, picks) =>
        ok := Enqueue(item, score, wakes, picks, e.subs, now, t.refusesItem);
      case EnqueueOnce(key, window, item, score, wakes, picks) =>
        ok := EnqueueOnce(key, window, item, score, wakes, picks, e.subs, now, t.refusesItem);
      case RequeueExpired(visibility, listing) =>
        var _, done := RequeueNacked(visibility, listing, now, t.refused);
        ok := done;
      case SweepBy(me, heartbeat) =>
        var _, _, _, done := Sweep(me, heartbeat, e.subs, now, t.refused);
        ok := done;
      case CloseBy(me) =>
        var _, done := Release(me, t.refused);
        ok := done;
      case _ =>
        Handle(e);
        ok := true;
    }

    /** Any number of calls by any processes, in the order Redis runs them: the
        theorems about runs are about this. */
    method Serve(es: seq<Event>)
      requires ProperRun(envid, View(), es)
      modifies this
      ensures View() == Run(envid, old(View()), es)
    {
      var i := 0;
      while i < |es|
        invariant 0 <= i <= |es|
        invariant ProperRun(envid, View(), es[i..])
        invariant Run(envid, View(), es[i..]) == Run(envid, old(View()), es)
      {
        assert es[i..][0] == es[i] && es[i..][1..] == es[i + 1..];
        Handle(es[i]);
        i := i + 1;
      }
    }

    /** The same of calls some of whose pushes Redis refuses. */
    method ServeTries(ts: seq<Try>)
      requires ProperTries(envid, View(), ts)
      modifies this
      ensures View() == TriedAll(envid, old(View()), ts)
    {
      var i := 0;
      while i < |ts|
        invariant 0 <= i <= |ts|
        invariant ProperTries(envid, View(), ts[i..])
        invariant TriedAll(envid, View(), ts[i..]) == TriedAll(envid, old(View()), ts)
      {
        assert ts[i..][1..] == ts[i + 1..];
        var _ := Attempt(ts[i]);
        i := i + 1;
      }
    }
  }
}

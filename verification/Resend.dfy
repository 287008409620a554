/** A pop that is sent again, at any later step, hands its own items back and
    takes no others; and what holds of an item's deadline meanwhile. */
module Resend {
  import opened ByteStrings
  import opened SortedSets
  import opened AckIds
  import opened WaitingQueue
  import opened Store
  import opened Runs
  import opened Effects
  import opened PendingKeys
  import opened Orphans

  // ---- one step ----

  /** While an ID stays pending its item stays the same and its deadline never
      falls; only a pop under the ID raises it. */
  predicate KeptPending(k: Pending, k': Pending, id: Id) {
    id in k.nacked && id in k'.nacked ==>
      && k'.nacked[id] == k.nacked[id]
      && (id in k.timeouts ==> id in k'.timeouts && k.timeouts[id] <= k'.timeouts[id])
  }

  lemma PopKeeps(s: Store, p: Pop, now: int, id: Id)
    requires id in s.work.pending.nacked
    ensures KeptPending(s.work.pending, WorkAfterPop(s, p, now).pending, id)
    ensures id !in IdsOf(p) ==>
      var t := WorkAfterPop(s, p, now).pending.timeouts;
      (id in t <==> id in s.work.pending.timeouts) && (id in t ==> t[id] == s.work.pending.timeouts[id])
    ensures id in WorkAfterPop(s, p, now).pending.nacked
  {
    var (k, ids, dl) := (s.work.pending, HandedOut(s, p), Deadline(now, p.visibility));
    assert forall i :: 0 <= i < |ids| ==> ids[i] == IdsOf(p)[i];
    if Resent(s, p) {
      RaisedKeys(k.timeouts, ids, dl);
      if id in k.timeouts {
        RaisedOnlyRaises(k.timeouts, ids, dl, id);
      }
    } else {
      assert id !in ids;
      PutOther(k.nacked, ids, FrontItems(s.work.queue, |ids|), id);
      PutAllKeys(k.timeouts, ids, dl);
      if id in k.timeouts {
        PutAllValues(k.timeouts, ids, dl, id);
      }
    }
  }

  /** No call overwrites a pending entry or lowers its deadline. */
  lemma KeptStep(envid: Bytes -> Bytes, s: Store, e: Event, id: Id)
    requires Proper(s, e)
    ensures KeptPending(s.work.pending, Apply(envid, s, e).work.pending, id)
    ensures id in s.work.pending.nacked && e.call.PopBy? ==> id in Apply(envid, s, e).work.pending.nacked
  {
    WorkOf(envid, s, e);
    match e.call
    case PopBy(_, p) =>
      if id in s.work.pending.nacked {
        PopKeeps(s, p, e.now, id);
      }
    case RequeueExpired(_, _) => MoveAllNacked(envid, s.work, RequeuedIds(s, e));
    case CloseBy(_) => MoveAllNacked(envid, s.work, RequeuedIds(s, e));
    case SweepBy(_, _) => SweptKeeps(envid, s.work, DeadIn(s, e), e.now, id);
    case _ =>
  }

  lemma SweptKeeps(envid: Bytes -> Bytes, w: Work, dead: set<Owner>, now: int, id: Id)
    ensures KeptPending(w.pending, SweptWork(envid, w, dead, now).pending, id)
    ensures var (k, k') := (w.pending, SweptWork(envid, w, dead, now).pending);
      id in k'.nacked ==>
        (id in k.timeouts <==> id in k'.timeouts) && (id in k.timeouts ==> k'.timeouts[id] == k.timeouts[id])
  {
    var due := UpTo(w.pending.timeouts, now);
    MoveAllNacked(envid, w, due);
    var w' := MoveAll(envid, w, due);
    MoveAllNacked(envid, w', SortedStrings(OwnedIds(w'.pending.nacked, dead)));
  }

  /** Only a pop under the ID touches a pending item's deadline. */
  lemma DeadlineStep(envid: Bytes -> Bytes, s: Store, e: Event, id: Id)
    requires Proper(s, e) && id in s.work.pending.nacked && id in Apply(envid, s, e).work.pending.nacked
    requires e.call.PopBy? ==> id !in IdsOf(e.call.pop)
    ensures var (t, t') := (s.work.pending.timeouts, Apply(envid, s, e).work.pending.timeouts);
      (id in t <==> id in t') && (id in t ==> t'[id] == t[id])
  {
    WorkOf(envid, s, e);
    match e.call
    case PopBy(_, p) => PopKeeps(s, p, e.now, id);
    case RequeueExpired(_, _) => MoveAllNacked(envid, s.work, RequeuedIds(s, e));
    case CloseBy(_) => MoveAllNacked(envid, s.work, RequeuedIds(s, e));
    case SweepBy(_, _) => SweptKeeps(envid, s.work, DeadIn(s, e), e.now, id);
    case _ =>
  }

  // ---- a reservation's batch over a run ----

  /** The same call sent again; its timeouts, consumer and slots may differ. */
  predicate SameCall(p: Pop, q: Pop) {
    p.owner == q.owner && p.reservation == q.reservation && p.want == q.want
  }

  /** A reservation's size never changes (see Reservations). */
  predicate Reserved(es: seq<Event>, p: Pop) {
    forall i :: 0 <= i < |es| ==> Sized(es[i].call, p)
  }

  predicate Sized(c: Call, p: Pop) {
    c.PopBy? && c.pop.owner == p.owner && c.pop.reservation == p.reservation ==> c.pop.want == p.want
  }

  /** Exactly the first n of the call's IDs are pending. */
  predicate HeldExactly(k: Pending, ids: seq<Id>, n: nat)
    requires n <= |ids|
  {
    && (forall i :: 0 <= i < n ==> ids[i] in k.nacked)
    && (forall i :: n <= i < |ids| ==> ids[i] !in k.nacked)
  }

  /** The IDs have one deadline, or none has any. */
  predicate OneDeadline(t: Zset, ids: seq<Id>) {
    forall i, j :: 0 <= i < |ids| && 0 <= j < |ids| ==>
      (ids[i] in t <==> ids[j] in t) && (ids[i] in t ==> t[ids[i]] == t[ids[j]])
  }

  lemma DistinctPrefix(p: Pop, n: nat)
    requires IsOwner(p.owner) && p.reservation < UINT64_LIMIT && p.want <= MAX_POP && n <= p.want
    ensures Distinct(IdsOf(p)[..n])
    ensures forall i :: n <= i < p.want ==> IdsOf(p)[i] !in IdsOf(p)[..n]
  {
    AckIdsOfCall(p.owner, p.reservation, p.want);
    var ids := IdsOf(p)[..n];
    assert forall i :: 0 <= i < n ==> ids[i] == IdsOf(p)[i];
  }

  /** A fresh pop of n items leaves exactly its first n IDs pending, */
  lemma FreshHeld(s: Store, p: Pop, now: int)
    requires !Resent(s, p)
    requires IsOwner(p.owner) && p.reservation < UINT64_LIMIT && p.want <= MAX_POP
    ensures HeldExactly(WorkAfterPop(s, p, now).pending, IdsOf(p), |HandedOut(s, p)|)
  {
    var ids := HandedOut(s, p);
    DistinctPrefix(p, |ids|);
    PutKeys(s.work.pending.nacked, ids, FrontItems(s.work.queue, |ids|));
    assert forall i :: 0 <= i < |ids| ==> IdsOf(p)[i] == ids[i];
  }

  /** each with its item, in queue order, */
  lemma FreshItem(s: Store, p: Pop, now: int, i: nat)
    requires !Resent(s, p) && i < |HandedOut(s, p)|
    requires IsOwner(p.owner) && p.reservation < UINT64_LIMIT && p.want <= MAX_POP
    ensures var k := WorkAfterPop(s, p, now).pending;
      IdsOf(p)[i] in k.nacked && k.nacked[IdsOf(p)[i]] == FrontItems(s.work.queue, |HandedOut(s, p)|)[i]
  {
    var ids := HandedOut(s, p);
    DistinctPrefix(p, |ids|);
    PutAt(s.work.pending.nacked, ids, FrontItems(s.work.queue, |ids|), i);
    assert IdsOf(p)[i] == ids[i];
  }

  /** and with the call's deadline, or none when it has no timeout. */
  lemma FreshDeadline(s: Store, p: Pop, now: int, id: Id)
    requires Agree(s.work.pending) && !Resent(s, p) && id in HandedOut(s, p)
    ensures var t := WorkAfterPop(s, p, now).pending.timeouts;
      && (id in t <==> Deadline(now, p.visibility) > 0)
      && (id in t ==> t[id] == Deadline(now, p.visibility))
  {
    var ids := HandedOut(s, p);
    var i :| 0 <= i < |ids| && ids[i] == id;
    assert id == IdsOf(p)[i];
    PutAllKeys(s.work.pending.timeouts, ids, Deadline(now, p.visibility));
    PutAllValues(s.work.pending.timeouts, ids, Deadline(now, p.visibility), id);
  }

  /** Another run of the call raises the batch's deadlines together. */
  lemma ResentBatch(s: Store, q: Pop, now: int, n: nat)
    requires 0 < n <= q.want && HeldExactly(s.work.pending, IdsOf(q), n)
    requires OneDeadline(s.work.pending.timeouts, IdsOf(q)[..n])
    ensures Resent(s, q) && HandedOut(s, q) == IdsOf(q)[..n]
    ensures WorkAfterPop(s, q, now).pending.nacked == s.work.pending.nacked
    ensures WorkAfterPop(s, q, now).queue == s.work.queue
    ensures OneDeadline(WorkAfterPop(s, q, now).pending.timeouts, IdsOf(q)[..n])
  {
    var (ids, k) := (IdsOf(q), s.work.pending);
    assert ids[0] in k.nacked;
    LeadingIs(k.nacked, ids, n);
    var (run, dl) := (ids[..n], Deadline(now, q.visibility));
    RaisedKeys(k.timeouts, run, dl);
    forall i | 0 <= i < n && (run[i] in k.timeouts || dl > 0)
      ensures Raised(k.timeouts, run, dl)[run[i]]
        == if dl > 0 && (run[i] !in k.timeouts || k.timeouts[run[i]] < dl) then dl else k.timeouts[run[i]]
    {
      RaisedOnlyRaises(k.timeouts, run, dl, run[i]);
    }
  }

  /** What the caller of a pop gets. */
  function ItemsTo(s: Store, script: PopScript, p: Pop, now: int): seq<Item> {
    match script
    case BatchScript => BatchPop(s, p, now).1.items
    case LeanScript => LeanPop(s, p, now).1.items
    case SingleScript => var r := SinglePop(s, p, now).1; if r.Got? then [r.item] else []
  }

  /** Whichever script runs, the caller gets the items under the IDs handed out. */
  lemma ItemsToCaller(s: Store, script: PopScript, p: Pop, now: int)
    requires ProperPop(script, p)
    ensures ItemsTo(s, script, p, now)
            == if Resent(s, p) then ItemsUnder(s.work.pending.nacked, HandedOut(s, p))
               else FrontItems(s.work.queue, |HandedOut(s, p)|)
  {
    if !script.BatchScript? {
      var ids := IdsOf(p);
      assert ids == [FirstId(p)];
      assert ids[0] in s.work.pending.nacked <==> Resent(s, p);
    }
  }

  /** The IDs stay pending in every state of the run. */
  predicate StayPending(envid: Bytes -> Bytes, s: Store, es: seq<Event>, ids: seq<Id>)
    decreases |es|
  {
    && Members(ids) <= s.work.pending.nacked.Keys
    && (es == [] || StayPending(envid, Apply(envid, s, es[0]), es[1..], ids))
  }

  lemma AbsentStep(envid: Bytes -> Bytes, s: Store, e: Event, id: Id)
    requires Proper(s, e) && id !in s.work.pending.nacked && (e.call.PopBy? ==> id !in IdsOf(e.call.pop))
    ensures id !in Apply(envid, s, e).work.pending.nacked
  {
    NackedStep(envid, s, e);
  }

  /** A call under none of the batch's IDs leaves it as it is. */
  lemma OtherStep(envid: Bytes -> Bytes, s: Store, e: Event, ids: seq<Id>, n: nat)
    requires Proper(s, e) && n <= |ids|
    requires e.call.PopBy? ==> forall id :: id in ids ==> id !in IdsOf(e.call.pop)
    requires HeldExactly(s.work.pending, ids, n) && OneDeadline(s.work.pending.timeouts, ids[..n])
    requires Members(ids[..n]) <= Apply(envid, s, e).work.pending.nacked.Keys
    ensures HeldExactly(Apply(envid, s, e).work.pending, ids, n)
    ensures OneDeadline(Apply(envid, s, e).work.pending.timeouts, ids[..n])
  {
    var (run, k, k') := (ids[..n], s.work.pending, Apply(envid, s, e).work.pending);
    forall i | n <= i < |ids| ensures ids[i] !in k'.nacked {
      AbsentStep(envid, s, e, ids[i]);
    }
    forall i | 0 <= i < n
      ensures ids[i] in k'.nacked && (run[i] in k'.timeouts <==> run[i] in k.timeouts)
      ensures run[i] in k'.timeouts ==> k'.timeouts[run[i]] == k.timeouts[run[i]]
    {
      assert ids[i] == run[i];
      DeadlineStep(envid, s, e, ids[i]);
    }
  }

  /** One step keeps a batch that stays pending as it is: the same IDs, and one
      deadline, whether the step is a re-send of it or not. */
  lemma BatchStep(envid: Bytes -> Bytes, s: Store, e: Event, p: Pop, n: nat)
    requires IsOwner(p.owner) && p.reservation < UINT64_LIMIT && p.want <= MAX_POP && 0 < n <= p.want
    requires Proper(s, e) && Sized(e.call, p)
    requires HeldExactly(s.work.pending, IdsOf(p), n) && OneDeadline(s.work.pending.timeouts, IdsOf(p)[..n])
    requires Members(IdsOf(p)[..n]) <= Apply(envid, s, e).work.pending.nacked.Keys
    ensures HeldExactly(Apply(envid, s, e).work.pending, IdsOf(p), n)
    ensures OneDeadline(Apply(envid, s, e).work.pending.timeouts, IdsOf(p)[..n])
  {
    if e.call.PopBy? && SameCall(p, e.call.pop) {
      WorkOf(envid, s, e);
      ResentBatch(s, e.call.pop, e.now, n);
    } else {
      if e.call.PopBy? {
        AckIdsDisjoint(p.owner, p.reservation, p.want, e.call.pop.owner, e.call.pop.reservation, e.call.pop.want);
      }
      OtherStep(envid, s, e, IdsOf(p), n);
    }
  }

  lemma {:induction false} BatchRun(envid: Bytes -> Bytes, s: Store, es: seq<Event>, p: Pop, n: nat)
    requires IsOwner(p.owner) && p.reservation < UINT64_LIMIT && p.want <= MAX_POP && 0 < n <= p.want
    requires ProperRun(envid, s, es) && Reserved(es, p) && StayPending(envid, s, es, IdsOf(p)[..n])
    requires HeldExactly(s.work.pending, IdsOf(p), n) && OneDeadline(s.work.pending.timeouts, IdsOf(p)[..n])
    ensures HeldExactly(Run(envid, s, es).work.pending, IdsOf(p), n)
    ensures OneDeadline(Run(envid, s, es).work.pending.timeouts, IdsOf(p)[..n])
    decreases |es|
  {
    if es != [] {
      BatchStep(envid, s, es[0], p, n);
      BatchRun(envid, Apply(envid, s, es[0]), es[1..], p, n);
    }
  }

  /** An item that stays pending over a run stays the same, and its deadline
      never falls. */
  lemma {:induction false} KeptRun(envid: Bytes -> Bytes, s: Store, es: seq<Event>, id: Id)
    requires ProperRun(envid, s, es) && StayPending(envid, s, es, [id])
    ensures KeptPending(s.work.pending, Run(envid, s, es).work.pending, id)
    ensures id in s.work.pending.nacked && id in Run(envid, s, es).work.pending.nacked
    decreases |es|
  {
    assert id in [id];
    if es != [] {
      assert id in Apply(envid, s, es[0]).work.pending.nacked;
      KeptStep(envid, s, es[0], id);
      KeptRun(envid, Apply(envid, s, es[0]), es[1..], id);
    }
  }

  // ---- the two contracts ----

  /** A batch that stays pending over a run keeps its items. */
  lemma ItemsStay(envid: Bytes -> Bytes, s: Store, p: Pop, now: int, s1: Store, es: seq<Event>)
    requires !Resent(s, p) && IsOwner(p.owner) && p.reservation < UINT64_LIMIT && p.want <= MAX_POP
    requires s1.work == WorkAfterPop(s, p, now)
    requires ProperRun(envid, s1, es) && StayPending(envid, s1, es, HandedOut(s, p))
    ensures ItemsUnder(Run(envid, s1, es).work.pending.nacked, HandedOut(s, p))
            == FrontItems(s.work.queue, |HandedOut(s, p)|)
  {
    var ids := HandedOut(s, p);
    forall i | 0 <= i < |ids|
      ensures ids[i] in Run(envid, s1, es).work.pending.nacked
      ensures Run(envid, s1, es).work.pending.nacked[ids[i]] == FrontItems(s.work.queue, |ids|)[i]
    {
      assert ids[i] == IdsOf(p)[i];
      FreshItem(s, p, now, i);
      OneStaysPending(envid, s1, es, ids, i);
      KeptRun(envid, s1, es, ids[i]);
    }
  }

  /** Every deadline there was is still there, no lower. */
  predicate OnlyRaised(t: Zset, t': Zset) {
    forall id :: id in t ==> id in t' && t[id] <= t'[id]
  }

  lemma RaisesOnly(s: Store, q: Pop, now: int)
    requires Resent(s, q)
    ensures OnlyRaised(s.work.pending.timeouts, WorkAfterPop(s, q, now).pending.timeouts)
  {
    var (t, dl) := (s.work.pending.timeouts, Deadline(now, q.visibility));
    forall id | id in t ensures id in Raised(t, HandedOut(s, q), dl) && t[id] <= Raised(t, HandedOut(s, q), dl)[id] {
      RaisedOnlyRaises(t, HandedOut(s, q), dl, id);
    }
  }

  /** After a pop of n items, the same call run again at any later step, with
      none of its IDs gone, returns exactly those items, takes no others and
      only raises deadlines, even if the queue was paused in between. */
  lemma ResendSafe(envid: Bytes -> Bytes, s: Store, script: PopScript, p: Pop, now: int,
                   es: seq<Event>, script': PopScript, q: Pop, now': int)
    requires Sound(s.work) && ProperPop(script, p) && !Resent(s, p) && HandedOut(s, p) != []
    requires var s1 := PopStore(s, script, p, now);
      ProperRun(envid, s1, es) && Reserved(es, p) && StayPending(envid, s1, es, HandedOut(s, p))
    requires SameCall(p, q) && ProperPop(script', q)
    ensures var s2 := Run(envid, PopStore(s, script, p, now), es); var s3 := PopStore(s2, script', q, now');
      && ItemsTo(s2, script', q, now') == ItemsTo(s, script, p, now)
      && s3.work.queue == s2.work.queue
      && s3.work.pending.nacked == s2.work.pending.nacked
      && OnlyRaised(s2.work.pending.timeouts, s3.work.pending.timeouts)
  {
    var s1 := PopStore(s, script, p, now);
    var s2 := Run(envid, s1, es);
    var n := |HandedOut(s, p)|;
    assert HandedOut(s, p) == IdsOf(p)[..n];
    PopEffect(s, script, p, now);
    PopEffect(s2, script', q, now');
    assert Resent(s2, q) && HandedOut(s2, q) == HandedOut(s, p)
      && WorkAfterPop(s2, q, now').pending.nacked == s2.work.pending.nacked
      && WorkAfterPop(s2, q, now').queue == s2.work.queue by {
      FreshHeld(s, p, now);
      FreshOneDeadline(s, p, now);
      BatchRun(envid, s1, es, p, n);
      ResentBatch(s2, q, now', n);
    }
    assert ItemsTo(s2, script', q, now') == ItemsTo(s, script, p, now) by {
      ItemsToCaller(s, script, p, now);
      ItemsToCaller(s2, script', q, now');
      ItemsStay(envid, s, p, now, s1, es);
    }
    RaisesOnly(s2, q, now');
  }

  lemma FreshOneDeadline(s: Store, p: Pop, now: int)
    requires Agree(s.work.pending) && !Resent(s, p)
    ensures OneDeadline(WorkAfterPop(s, p, now).pending.timeouts, HandedOut(s, p))
  {
    var ids := HandedOut(s, p);
    forall i | 0 <= i < |ids|
      ensures var t := WorkAfterPop(s, p, now).pending.timeouts;
        (ids[i] in t <==> Deadline(now, p.visibility) > 0) && (ids[i] in t ==> t[ids[i]] == Deadline(now, p.visibility))
    {
      FreshDeadline(s, p, now, ids[i]);
    }
  }

  lemma {:induction false} OneStaysPending(envid: Bytes -> Bytes, s: Store, es: seq<Event>, ids: seq<Id>, i: nat)
    requires StayPending(envid, s, es, ids) && i < |ids|
    ensures StayPending(envid, s, es, [ids[i]])
    decreases |es|
  {
    if es != [] {
      OneStaysPending(envid, Apply(envid, s, es[0]), es[1..], ids, i);
    }
  }

  /** A pop while the queue is paused, under IDs none of which is pending, moves
      nothing. */
  lemma FreshPopUnderPause(s: Store, script: PopScript, p: Pop, now: int)
    requires s.paused.Some? && !Resent(s, p) && ProperPop(script, p)
    ensures PopStore(s, script, p, now) == s && ItemsTo(s, script, p, now) == []
  {
    if !script.BatchScript? {
      assert IdsOf(p)[0] == FirstId(p);
    }
  }

  /** An item popped at `now` with timeout vt > 0, while it stays pending, is
      overdue for no sweep before now + vt; and its batch is overdue all at once
      or not at all, through any re-sends. */
  lemma DeadlineContract(envid: Bytes -> Bytes, s: Store, script: PopScript, p: Pop, now: int, es: seq<Event>, at: int)
    requires Sound(s.work) && ProperPop(script, p) && !Resent(s, p) && 0 < p.visibility && 0 <= now
    requires var s1 := PopStore(s, script, p, now);
      ProperRun(envid, s1, es) && Reserved(es, p) && StayPending(envid, s1, es, HandedOut(s, p))
    ensures var t := Run(envid, PopStore(s, script, p, now), es).work.pending.timeouts; var ids := HandedOut(s, p);
      && (forall id :: id in ids ==> id in t && now + p.visibility <= t[id])
      && (at < now + p.visibility ==> forall id :: id in ids ==> id !in UpTo(t, at))
      && (forall id, id' :: id in ids && id' in ids ==> (id in UpTo(t, at) <==> id' in UpTo(t, at)))
  {
    var (s1, ids) := (PopStore(s, script, p, now), HandedOut(s, p));
    var t := Run(envid, s1, es).work.pending.timeouts;
    if ids != [] {
      assert OneDeadline(t, ids) by {
        assert ids == IdsOf(p)[..|ids|];
        PopEffect(s, script, p, now);
        FreshHeld(s, p, now);
        FreshOneDeadline(s, p, now);
        BatchRun(envid, s1, es, p, |ids|);
      }
    }
    forall i | 0 <= i < |ids| ensures ids[i] in t && now + p.visibility <= t[ids[i]] {
      NotYetDue(envid, s, script, p, now, es, i);
    }
    DueTogether(t, ids, now + p.visibility, at);
  }

  lemma DueTogether(t: Zset, ids: seq<Id>, dl: int, at: int)
    requires OneDeadline(t, ids) && forall i :: 0 <= i < |ids| ==> ids[i] in t && dl <= t[ids[i]]
    ensures forall id :: id in ids ==> id in t && dl <= t[id]
    ensures at < dl ==> forall id :: id in ids ==> id !in UpTo(t, at)
    ensures forall id, id' :: id in ids && id' in ids ==> (id in UpTo(t, at) <==> id' in UpTo(t, at))
  {
    UpToMembers(t, at);
  }

  lemma NotYetDue(envid: Bytes -> Bytes, s: Store, script: PopScript, p: Pop, now: int, es: seq<Event>, i: nat)
    requires Sound(s.work) && ProperPop(script, p) && !Resent(s, p) && 0 < p.visibility && 0 <= now
    requires var s1 := PopStore(s, script, p, now);
      ProperRun(envid, s1, es) && StayPending(envid, s1, es, HandedOut(s, p)) && i < |HandedOut(s, p)|
    ensures var t := Run(envid, PopStore(s, script, p, now), es).work.pending.timeouts; var id := HandedOut(s, p)[i];
      id in t && now + p.visibility <= t[id]
  {
    var (s1, ids) := (PopStore(s, script, p, now), HandedOut(s, p));
    assert ids[i] in ids;
    PopEffect(s, script, p, now);
    FreshDeadline(s, p, now, ids[i]);
    OneStaysPending(envid, s1, es, ids, i);
    KeptRun(envid, s1, es, ids[i]);
  }

  /** The first sweep at or after its deadline takes an item back, and one
      before it leaves the item unless its owner is taken for dead. */
  lemma SweepTakesOverdue(envid: Bytes -> Bytes, s: Store, e: Event, id: Id)
    requires e.call.SweepBy? && Proper(s, e) && id in s.work.pending.nacked && id in s.work.pending.timeouts
    ensures id !in Apply(envid, s, e).work.pending.nacked
            <==> s.work.pending.timeouts[id] <= e.now || OwnerOf(id) in DeadIn(s, e)
  {
    WorkOf(envid, s, e);
    SweptNacked(envid, s.work, DeadIn(s, e), e.now);
  }

  // ---- a batch some of which was finished ----

  /** The pending ones of the IDs have one deadline, or none has any. */
  predicate PendingShareDeadline(k: Pending, ids: seq<Id>) {
    forall i, j :: 0 <= i < |ids| && 0 <= j < |ids| && ids[i] in k.nacked && ids[j] in k.nacked ==>
      (ids[i] in k.timeouts <==> ids[j] in k.timeouts)
      && (ids[i] in k.timeouts ==> k.timeouts[ids[i]] == k.timeouts[ids[j]])
  }

  /** A run with deadline dl raises the ID's. */
  predicate Raises(k: Pending, id: Id, dl: int) {
    0 < dl && (id !in k.timeouts || k.timeouts[id] < dl)
  }

  predicate NonePastTheGap(k: Pending, ids: seq<Id>) {
    forall i :: Leading(k.nacked, ids) < i < |ids| ==> ids[i] !in k.nacked
  }

  /** A re-send keeps what a batch has in common, one deadline or none, exactly
      when it raises none (the first ID is gone, or its deadline is no earlier) or
      no ID past the first gap is still pending: an Acknowledge in the middle of a
      batch can split it. */
  lemma ResendKeepsOneDeadline(s: Store, q: Pop, now: int)
    requires IsOwner(q.owner) && q.reservation < UINT64_LIMIT && q.want <= MAX_POP
    requires Resent(s, q) && PendingShareDeadline(s.work.pending, IdsOf(q))
    ensures PendingShareDeadline(WorkAfterPop(s, q, now).pending, IdsOf(q))
            <==> IdsOf(q)[0] !in s.work.pending.nacked
                 || !Raises(s.work.pending, IdsOf(q)[0], Deadline(now, q.visibility))
                 || NonePastTheGap(s.work.pending, IdsOf(q))
  {
    var (k, k', ids, dl) := (s.work.pending, WorkAfterPop(s, q, now).pending, IdsOf(q), Deadline(now, q.visibility));
    var n := Leading(k.nacked, ids);
    if n == 0 || !Raises(k, ids[0], dl) {
      forall i | 0 <= i < |ids| && ids[i] in k.nacked ensures SameDeadline(k, k', ids[i]) {
        ResentDeadline(s, q, now, i);
        SameRaise(k, ids, i, dl);
      }
      SharedAsBefore(k, k', ids);
    } else if NonePastTheGap(k, ids) {
      forall i | 0 <= i < |ids| && ids[i] in k.nacked ensures ids[i] in k'.timeouts && k'.timeouts[ids[i]] == dl {
        ResentDeadline(s, q, now, i);
        SameRaise(k, ids, i, dl);
      }
      SharedAtOne(k', ids, dl);
    } else {
      var j :| n < j < |ids| && ids[j] in k.nacked;
      ResentDeadline(s, q, now, 0);
      ResentDeadline(s, q, now, j);
      SameRaise(k, ids, j, dl);
      SplitAt(k', ids, 0, j);
    }
  }

  predicate SameDeadline(k: Pending, k': Pending, id: Id) {
    (id in k'.timeouts <==> id in k.timeouts) && (id in k.timeouts ==> k'.timeouts[id] == k.timeouts[id])
  }

  lemma SharedAsBefore(k: Pending, k': Pending, ids: seq<Id>)
    requires k'.nacked == k.nacked && PendingShareDeadline(k, ids)
    requires forall i :: 0 <= i < |ids| && ids[i] in k.nacked ==> SameDeadline(k, k', ids[i])
    ensures PendingShareDeadline(k', ids)
  {}

  lemma SharedAtOne(k: Pending, ids: seq<Id>, d: int)
    requires forall i :: 0 <= i < |ids| && ids[i] in k.nacked ==> ids[i] in k.timeouts && k.timeouts[ids[i]] == d
    ensures PendingShareDeadline(k, ids)
  {}

  lemma SplitAt(k: Pending, ids: seq<Id>, i: nat, j: nat)
    requires i < |ids| && j < |ids| && ids[i] in k.nacked && ids[j] in k.nacked
    requires ids[i] in k.timeouts && (ids[j] in k.timeouts ==> k.timeouts[ids[i]] != k.timeouts[ids[j]])
    ensures !PendingShareDeadline(k, ids)
  {}

  /** Of pending IDs with one deadline or none, a run raises all or none. */
  lemma SameRaise(k: Pending, ids: seq<Id>, i: nat, dl: int)
    requires i < |ids| && ids[i] in k.nacked && PendingShareDeadline(k, ids)
    ensures ids[0] in k.nacked ==> (Raises(k, ids[i], dl) <==> Raises(k, ids[0], dl))
  {}

  /** A re-send raises the deadlines of the leading run, and no others. */
  lemma ResentDeadline(s: Store, q: Pop, now: int, i: nat)
    requires IsOwner(q.owner) && q.reservation < UINT64_LIMIT && q.want <= MAX_POP
    requires Resent(s, q) && i < q.want
    ensures var (k, id, dl) := (s.work.pending, IdsOf(q)[i], Deadline(now, q.visibility));
      var t := WorkAfterPop(s, q, now).pending.timeouts;
      var raised := i < Leading(k.nacked, IdsOf(q)) && Raises(k, id, dl);
      && (id in t <==> id in k.timeouts || raised)
      && (id in t ==> t[id] == if raised then dl else k.timeouts[id])
  {
    var (k, ids, dl) := (s.work.pending, IdsOf(q), Deadline(now, q.visibility));
    var n := Leading(k.nacked, ids);
    DistinctPrefix(q, n);
    RaisedKeys(k.timeouts, ids[..n], dl);
    assert ids[i] in ids[..n] <==> i < n by {
      assert i < n ==> ids[..n][i] == ids[i];
    }
    if ids[i] in k.timeouts || (0 < dl && i < n) {
      RaisedOnlyRaises(k.timeouts, ids[..n], dl, ids[i]);
    }
  }

  // ---- the smallest split, as a run ----

  function PushOf(item: Item, now: int): Event {
    Event(now, {}, Enqueue(item, 0, false, []))
  }

  /** A call for three items, as sent with a visibility timeout. */
  function CallForThree(owner: Owner, visibility: int): Pop {
    Pop(owner, 1, 3, visibility, 0, [], 3)
  }

  function PopOfThree(owner: Owner, visibility: int, now: int): Event {
    Event(now, {}, PopBy(BatchScript, CallForThree(owner, visibility)))
  }

  function AckOf(id: Id, now: int): Event {
    Event(now, {}, Settle(id, Completed, [], 1000, 1000))
  }

  /** Three items pushed and popped, the second acknowledged, the pop sent again. */
  function SplittingRun(owner: Owner, a: Item, b: Item, c: Item, visibility: int, now: int, visibility': int, now': int)
    : seq<Event>
  {
    [PushOf(a, now), PushOf(b, now), PushOf(c, now)]
    + [PopOfThree(owner, visibility, now), AckOf(AckId(owner, 1, 2), now), PopOfThree(owner, visibility', now')]
  }

  /** The pending IDs and their deadline in a queue of three popped together. */
  predicate Holds(k: Pending, ids: seq<Id>, items: map<Id, Item>, dl: int) {
    && k.nacked == items
    && (forall id :: id in items ==> (id in k.timeouts <==> 0 < dl) && (id in k.timeouts ==> k.timeouts[id] == dl))
  }

  lemma ThreePopped(s: Store, p: Pop, now: int, a: Item, b: Item, c: Item)
    requires s.work == EmptyWork(false).(queue := Listed([a, b, c])) && s.paused.None?
    requires IsOwner(p.owner) && p == CallForThree(p.owner, p.visibility)
    ensures var (w, ids) := (PopStore(s, BatchScript, p, now).work, IdsOf(p));
      && Holds(w.pending, ids, map[ids[0] := a, ids[1] := b, ids[2] := c], Deadline(now, p.visibility))
      && w.seqNo == 0 && w.queue.Listed?
      && ids[0] != ids[1] && ids[1] != ids[2] && ids[0] != ids[2]
  {
    var (ids, k) := (IdsOf(p), PopStore(s, BatchScript, p, now).work.pending);
    KeysPopped(s, p, now);
    OnePopped(s, p, now, 0, a);
    OnePopped(s, p, now, 1, b);
    OnePopped(s, p, now, 2, c);
    ThreeEntries(k.nacked, ids[0], ids[1], ids[2], a, b, c);
  }

  lemma ThreeEntries(m: map<Id, Item>, i: Id, j: Id, k: Id, a: Item, b: Item, c: Item)
    requires m.Keys == {i, j, k} && i != j && j != k && i != k && m[i] == a && m[j] == b && m[k] == c
    ensures m == map[i := a, j := b, k := c]
  {}

  lemma KeysPopped(s: Store, p: Pop, now: int)
    requires s.work.pending == Pending(map[], map[], map[], map[]) && s.paused.None? && s.work.queue.Listed?
    requires IsOwner(p.owner) && p == CallForThree(p.owner, p.visibility) && |s.work.queue.items| == 3
    ensures var (w, ids) := (PopStore(s, BatchScript, p, now).work, IdsOf(p));
      && w.pending.nacked.Keys == {ids[0], ids[1], ids[2]} && w.queue.Listed? && w.seqNo == s.work.seqNo
      && ids[0] != ids[1] && ids[1] != ids[2] && ids[0] != ids[2]
  {
    var ids := IdsOf(p);
    PopEffect(s, BatchScript, p, now);
    assert !Resent(s, p) && HandedOut(s, p) == ids;
    ThreeMembers(ids);
    TakenKeys(s.work, ids, Deadline(now, p.visibility), Millis(now));
    assert ids[0] != ids[1] && ids[1] != ids[2] && ids[0] != ids[2] by { AckIdsOfCall(p.owner, 1, 3); }
  }

  lemma ThreeMembers(ids: seq<Id>)
    requires |ids| == 3
    ensures Members(ids) == {ids[0], ids[1], ids[2]}
  {
    assert ids == [ids[0], ids[1], ids[2]];
  }

  lemma TakenKeys(w: Work, ids: seq<Id>, dl: int, ms: int)
    requires |ids| <= Len(w.queue)
    ensures TakeWork(w, ids, dl, ms).pending.nacked.Keys == w.pending.nacked.Keys + Members(ids)
  {
    PutKeys(w.pending.nacked, ids, FrontItems(w.queue, |ids|));
  }

  lemma OnePopped(s: Store, p: Pop, now: int, i: nat, item: Item)
    requires s.work.pending == Pending(map[], map[], map[], map[]) && s.paused.None? && s.work.queue.Listed?
    requires IsOwner(p.owner) && p == CallForThree(p.owner, p.visibility)
    requires i < 3 == |s.work.queue.items| && s.work.queue.items[i] == item
    ensures var (k, id) := (PopStore(s, BatchScript, p, now).work.pending, IdsOf(p)[i]);
      && id in k.nacked && k.nacked[id] == item
      && (id in k.timeouts <==> 0 < Deadline(now, p.visibility))
      && (id in k.timeouts ==> k.timeouts[id] == Deadline(now, p.visibility))
  {
    assert !Resent(s, p) && HandedOut(s, p) == IdsOf(p);
    assert IdsOf(p)[i] in HandedOut(s, p);
    PopEffect(s, BatchScript, p, now);
    FreshItem(s, p, now, i);
    FreshDeadline(s, p, now, IdsOf(p)[i]);
  }

  lemma SecondAcked(envid: Bytes -> Bytes, s: Store, now: int, ids: seq<Id>, a: Item, b: Item, c: Item, dl: int)
    requires |ids| == 3 && ids[0] != ids[1] && ids[1] != ids[2] && ids[0] != ids[2]
    requires Holds(s.work.pending, ids, map[ids[0] := a, ids[1] := b, ids[2] := c], dl)
    ensures var w := Apply(envid, s, AckOf(ids[1], now)).work;
      && Holds(w.pending, ids, map[ids[0] := a, ids[2] := c], dl) && w.seqNo == s.work.seqNo
  {
    assert map[ids[0] := a, ids[1] := b, ids[2] := c] - {ids[1]} == map[ids[0] := a, ids[2] := c];
  }

  lemma SplitByResend(s: Store, q: Pop, now: int, a: Item, c: Item, dl: int)
    requires IsOwner(q.owner) && q == CallForThree(q.owner, q.visibility) && dl < Deadline(now, q.visibility)
    requires var ids := IdsOf(q); ids[0] != ids[1] && ids[1] != ids[2] && ids[0] != ids[2]
    requires var ids := IdsOf(q); Holds(s.work.pending, ids, map[ids[0] := a, ids[2] := c], dl) && 0 <= dl
    ensures var (w, ids) := (PopStore(s, BatchScript, q, now).work, IdsOf(q)); var t := w.pending.timeouts;
      && w.pending.nacked == map[ids[0] := a, ids[2] := c] && w.seqNo == s.work.seqNo
      && ids[0] in t && t[ids[0]] == Deadline(now, q.visibility)
      && (ids[2] in t <==> 0 < dl) && (ids[2] in t ==> t[ids[2]] == dl)
      && !PendingShareDeadline(w.pending, ids)
  {
    var (k, ids) := (s.work.pending, IdsOf(q));
    assert ids[0] in k.nacked && ids[2] in k.nacked && ids[1] !in k.nacked;
    LeadingIs(k.nacked, ids, 1);
    PopEffect(s, BatchScript, q, now);
    ResentDeadline(s, q, now, 0);
    ResentDeadline(s, q, now, 2);
  }

  /** From an empty queue, a re-send with a later deadline raises the first item's
      and not the third's: whether the batch had a deadline or, popped with no
      visibility timeout, none. */
  lemma AckedMiddleSplits(envid: Bytes -> Bytes, owner: Owner, a: Item, b: Item, c: Item,
                          visibility: int, now: int, visibility': int, now': int)
    requires IsOwner(owner) && 0 <= now <= now' && Deadline(now, visibility) < Deadline(now', visibility')
    ensures var es := SplittingRun(owner, a, b, c, visibility, now, visibility', now');
      var k := Run(envid, Empty(false), es).work.pending;
      var (dl, dl', ids) := (Deadline(now, visibility), Deadline(now', visibility'),
        IdsOf(CallForThree(owner, visibility')));
      && ProperRun(envid, Empty(false), es) && Timely(0, es)
      && k.nacked == map[ids[0] := a, ids[2] := c]
      && ids[0] in k.timeouts && k.timeouts[ids[0]] == dl'
      && (ids[2] in k.timeouts <==> 0 < dl) && (ids[2] in k.timeouts ==> k.timeouts[ids[2]] == dl)
      && !PendingShareDeadline(k, ids)
  {
    var es := SplittingRun(owner, a, b, c, visibility, now, visibility', now');
    var s3 := ThreeWaiting(a, b, c);
    var s4 := PopStore(s3, BatchScript, CallForThree(owner, visibility), now);
    assert IdsOf(CallForThree(owner, visibility)) == IdsOf(CallForThree(owner, visibility'));
    SplitAfter(envid, s3, s4, owner, a, b, c, visibility, now, visibility', now');
    SplittingSteps(envid, owner, a, b, c, visibility, now, visibility', now');
    assert Timely(0, es) by { SplittingInOrder(owner, a, b, c, visibility, now, visibility', now'); }
  }

  function ThreeWaiting(a: Item, b: Item, c: Item): (s: Store)
    ensures s.work == EmptyWork(false).(queue := Listed([a, b, c])) && s.paused.None?
  {
    assert [] + [a] + [b] + [c] == [a, b, c];
    Push(Push(Push(Empty(false), a, 0), b, 0), c, 0)
  }

  lemma SplittingSteps(envid: Bytes -> Bytes, owner: Owner, a: Item, b: Item, c: Item,
                       visibility: int, now: int, visibility': int, now': int)
    requires IsOwner(owner) && Deadline(now, visibility) < Deadline(now', visibility') && 0 <= now <= now'
    ensures var es := SplittingRun(owner, a, b, c, visibility, now, visibility', now');
      var s4 := PopStore(ThreeWaiting(a, b, c), BatchScript, CallForThree(owner, visibility), now);
      var s5 := Apply(envid, s4, AckOf(AckId(owner, 1, 2), now));
      && ProperRun(envid, Empty(false), es)
      && Run(envid, Empty(false), es) == PopStore(s5, BatchScript, CallForThree(owner, visibility'), now')
  {
    var (x, y, z) := (PopOfThree(owner, visibility, now), AckOf(AckId(owner, 1, 2), now),
      PopOfThree(owner, visibility', now'));
    var s3 := ThreeWaiting(a, b, c);
    SplitAfter(envid, s3, PopStore(s3, BatchScript, CallForThree(owner, visibility), now),
               owner, a, b, c, visibility, now, visibility', now');
    var s4 := Apply(envid, s3, x);
    var s5 := Apply(envid, s4, y);
    ThreeSteps(envid, s3, x, s4, y, s5, z, Apply(envid, s5, z));
    ThreePushes(envid, a, b, c, now, [x, y, z]);
  }

  lemma SplittingInOrder(owner: Owner, a: Item, b: Item, c: Item, visibility: int, now: int, visibility': int,
      now': int)
    requires 0 <= now <= now'
    ensures Timely(0, SplittingRun(owner, a, b, c, visibility, now, visibility', now'))
  {
    var es := SplittingRun(owner, a, b, c, visibility, now, visibility', now');
    assert forall i :: 0 <= i < |es| ==> es[i].now == if i < 5 then now else now';
    InOrderIsTimely(0, es);
  }

  lemma SplitAfter(envid: Bytes -> Bytes, s3: Store, s4: Store, owner: Owner, a: Item, b: Item, c: Item,
                   visibility: int, now: int, visibility': int, now': int)
    requires IsOwner(owner) && Deadline(now, visibility) < Deadline(now', visibility') && 0 <= now <= now'
    requires s3.work == EmptyWork(false).(queue := Listed([a, b, c])) && s3.paused.None?
    requires s4 == PopStore(s3, BatchScript, CallForThree(owner, visibility), now)
    ensures s4.work.seqNo == 0
    ensures var s5 := Apply(envid, s4, AckOf(AckId(owner, 1, 2), now));
      var q := CallForThree(owner, visibility'); var w := PopStore(s5, BatchScript, q, now').work;
      var (dl, ids, t) := (Deadline(now, visibility), IdsOf(q), w.pending.timeouts);
      && s5.work.seqNo == 0 && w.seqNo == 0
      && w.pending.nacked == map[ids[0] := a, ids[2] := c]
      && ids[0] in t && t[ids[0]] == Deadline(now', visibility')
      && (ids[2] in t <==> 0 < dl) && (ids[2] in t ==> t[ids[2]] == dl)
      && !PendingShareDeadline(w.pending, ids)
  {
    var (p, q) := (CallForThree(owner, visibility), CallForThree(owner, visibility'));
    assert IdsOf(p) == IdsOf(q);
    ThreePopped(s3, p, now, a, b, c);
    SecondAcked(envid, s4, now, IdsOf(q), a, b, c, Deadline(now, visibility));
    SplitByResend(Apply(envid, s4, AckOf(AckId(owner, 1, 2), now)), q, now', a, c, Deadline(now, visibility));
  }

  lemma ThreePushes(envid: Bytes -> Bytes, a: Item, b: Item, c: Item, now: int, rest: seq<Event>)
    requires ProperRun(envid, ThreeWaiting(a, b, c), rest)
    ensures ProperRun(envid, Empty(false), [PushOf(a, now), PushOf(b, now), PushOf(c, now)] + rest)
    ensures Run(envid, Empty(false), [PushOf(a, now), PushOf(b, now), PushOf(c, now)] + rest)
            == Run(envid, ThreeWaiting(a, b, c), rest)
  {
    var (x, y, z) := (PushOf(a, now), PushOf(b, now), PushOf(c, now));
    var s1 := Apply(envid, Empty(false), x);
    var s2 := Apply(envid, s1, y);
    assert s1 == Push(Empty(false), a, 0) && s2 == Push(s1, b, 0) && Apply(envid, s2, z) == ThreeWaiting(a, b, c);
    RunStep(envid, s2, z, rest);
    RunStep(envid, s1, y, [z] + rest);
    RunStep(envid, Empty(false), x, [y] + ([z] + rest));
    assert [x, y, z] + rest == [x] + ([y] + ([z] + rest));
  }
}

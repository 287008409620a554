/** When a pending item's deadline is, and which calls take the item back. */
module Deadlines {
  import opened ByteStrings
  import opened SortedSets
  import opened AckIds
  import opened WaitingQueue
  import opened Store
  import opened Runs
  import opened Effects
  import opened PendingKeys
  import opened Orphans
  import opened Resend
  import opened Heartbeats

  function DeadlineIn(t: Zset, id: Id): Option<int> {
    if id in t then Some(t[id]) else None
  }

  function DeadlineOf(s: Store, id: Id): Option<int> {
    DeadlineIn(s.work.pending.timeouts, id)
  }

  /** A pop that hands an item out, for the first time or again, makes its deadline
      the later of the one it has and the pop's time plus its timeout; with no
      timeout it changes none. */
  function DueAfterPop(d: Option<int>, handed: bool, now: int, visibility: int): Option<int> {
    if !handed || visibility <= 0 then d
    else if d.Some? && now + visibility < d.value then d
    else Some(now + visibility)
  }

  /** No other call changes the deadline of an item it leaves pending. */
  function DueAfter(s: Store, e: Event, id: Id, d: Option<int>): Option<int> {
    match e.call
    case PopBy(_, p) => DueAfterPop(d, id in HandedOut(s, p), e.now, p.visibility)
    case _ => d
  }

  lemma PopDue(s: Store, p: Pop, now: int, id: Id)
    requires Agree(s.work.pending) && 0 <= now && id in WorkAfterPop(s, p, now).pending.nacked
    requires IsOwner(p.owner) && p.reservation < UINT64_LIMIT && p.want <= MAX_POP
    ensures DeadlineIn(WorkAfterPop(s, p, now).pending.timeouts, id)
            == DueAfterPop(DeadlineOf(s, id), id in HandedOut(s, p), now, p.visibility)
  {
    if Resent(s, p) {
      ResentDue(s.work.pending.timeouts, HandedOut(s, p), now, p.visibility, id);
    } else {
      NewIds(s, p);
      TakenDue(s.work.pending, HandedOut(s, p), now, p.visibility, id);
    }
  }

  lemma ResentDue(t: Zset, ids: seq<Id>, now: int, visibility: int, id: Id)
    requires 0 <= now
    ensures DeadlineIn(Raised(t, ids, Deadline(now, visibility)), id)
            == DueAfterPop(DeadlineIn(t, id), id in ids, now, visibility)
  {
    var dl := Deadline(now, visibility);
    RaisedKeys(t, ids, dl);
    if id in t || (dl > 0 && id in ids) {
      RaisedOnlyRaises(t, ids, dl, id);
    }
  }

  lemma TakenDue(k: Pending, ids: seq<Id>, now: int, visibility: int, id: Id)
    requires Agree(k) && 0 <= now && (id in ids ==> id !in k.nacked)
    ensures var dl := Deadline(now, visibility);
      DeadlineIn(if dl > 0 then PutAll(k.timeouts, ids, dl) else k.timeouts, id)
      == DueAfterPop(DeadlineIn(k.timeouts, id), id in ids, now, visibility)
  {
    var dl := Deadline(now, visibility);
    PutAllKeys(k.timeouts, ids, dl);
    if id in k.timeouts || id in ids {
      PutAllValues(k.timeouts, ids, dl, id);
    }
  }

  lemma NewIds(s: Store, p: Pop)
    requires !Resent(s, p)
    ensures forall id :: id in HandedOut(s, p) ==> id !in s.work.pending.nacked
  {
    assert forall i :: 0 <= i < |HandedOut(s, p)| ==> HandedOut(s, p)[i] == IdsOf(p)[i];
  }

  /** Every call leaves a pending item with that deadline. */
  lemma DueStep(envid: Bytes -> Bytes, s: Store, e: Event, id: Id)
    requires Sound(s.work) && Proper(s, e) && 0 <= e.now && id in Apply(envid, s, e).work.pending.nacked
    ensures DeadlineOf(Apply(envid, s, e), id) == DueAfter(s, e, id, DeadlineOf(s, id))
  {
    if e.call.PopBy? {
      PoppedDue(envid, s, e, id);
    } else {
      OtherDue(envid, s, e, id);
    }
  }

  lemma PoppedDue(envid: Bytes -> Bytes, s: Store, e: Event, id: Id)
    requires Sound(s.work) && Proper(s, e) && 0 <= e.now && id in Apply(envid, s, e).work.pending.nacked
    requires e.call.PopBy?
    ensures DeadlineOf(Apply(envid, s, e), id)
            == DueAfterPop(DeadlineOf(s, id), id in HandedOut(s, e.call.pop), e.now, e.call.pop.visibility)
  {
    WorkOf(envid, s, e);
    assert WorkStep(envid, s, e) == WorkAfterPop(s, e.call.pop, e.now);
    PopDue(s, e.call.pop, e.now, id);
  }

  lemma OtherDue(envid: Bytes -> Bytes, s: Store, e: Event, id: Id)
    requires Proper(s, e) && !e.call.PopBy? && id in Apply(envid, s, e).work.pending.nacked
    ensures DeadlineOf(Apply(envid, s, e), id) == DeadlineOf(s, id)
  {
    NackedStep(envid, s, e);
    DeadlineStep(envid, s, e, id);
  }

  // ---- over runs ----

  /** The latest of d and, for each pop of the run that hands the item out again
      with a timeout, its time plus that timeout. */
  function LatestDue(envid: Bytes -> Bytes, s: Store, es: seq<Event>, id: Id, d: Option<int>): Option<int>
    decreases |es|
  {
    if es == [] then d else LatestDue(envid, Apply(envid, s, es[0]), es[1..], id, DueAfter(s, es[0], id, d))
  }

  lemma {:induction false} DueRun(envid: Bytes -> Bytes, s: Store, es: seq<Event>, id: Id, t: int)
    requires Sound(s.work) && ProperRun(envid, s, es) && Timely(t, es) && 0 <= t
    requires StayPending(envid, s, es, [id])
    ensures DeadlineOf(Run(envid, s, es), id) == LatestDue(envid, s, es, id, DeadlineOf(s, id))
    decreases |es|
  {
    assert id in Members([id]);
    if es != [] {
      DueStep(envid, s, es[0], id);
      SoundStep(envid, s, es[0]);
      DueRun(envid, Apply(envid, s, es[0]), es[1..], id, es[0].now);
    }
  }

  /** No pop of the run hands the item out again. */
  predicate NotAgain(envid: Bytes -> Bytes, s: Store, es: seq<Event>, id: Id)
    decreases |es|
  {
    es == [] || ((es[0].call.PopBy? ==> id !in HandedOut(s, es[0].call.pop))
                 && NotAgain(envid, Apply(envid, s, es[0]), es[1..], id))
  }

  lemma {:induction false} SameDue(envid: Bytes -> Bytes, s: Store, es: seq<Event>, id: Id, d: Option<int>)
    requires NotAgain(envid, s, es, id)
    ensures LatestDue(envid, s, es, id, d) == d
    decreases |es|
  {
    if es != [] {
      SameDue(envid, Apply(envid, s, es[0]), es[1..], id, d);
    }
  }

  /** A pop that hands the item out for the first time. */
  predicate Hands(s: Store, e: Event, id: Id) {
    e.call.PopBy? && !Resent(s, e.call.pop) && id in HandedOut(s, e.call.pop)
  }

  /** Its deadline: the pop's time plus its timeout, or none. */
  function NewDue(now: int, visibility: int): Option<int> {
    if 0 < visibility then Some(now + visibility) else None
  }

  lemma NewIsDue(now: int, visibility: int)
    ensures DueAfterPop(None, true, now, visibility) == NewDue(now, visibility)
  {}

  /** As long as the item is pending its deadline is the pop's time plus its
      timeout, or, handed out again since, the latest such time; a pop with no
      timeout gives none. */
  lemma DueAtPopPlusTimeout(envid: Bytes -> Bytes, s: Store, e: Event, es: seq<Event>, id: Id)
    requires Sound(s.work) && Proper(s, e) && 0 <= e.now && Hands(s, e, id)
    requires Apply(envid, s, e).work.seqNo < MAX_SEQ && ProperRun(envid, Apply(envid, s, e), es) && Timely(e.now, es)
    requires StayPending(envid, Apply(envid, s, e), es, [id])
    ensures var u := Apply(envid, s, e);
      var due := DeadlineOf(Run(envid, u, es), id);
      && due == LatestDue(envid, u, es, id, NewDue(e.now, e.call.pop.visibility))
      && (NotAgain(envid, u, es, id) ==> due == NewDue(e.now, e.call.pop.visibility))
  {
    var u := Apply(envid, s, e);
    StartsPending(envid, u, es, id);
    FirstDue(envid, s, e, id);
    SoundStep(envid, s, e);
    DueRun(envid, u, es, id, e.now);
    if NotAgain(envid, u, es, id) {
      SameDue(envid, u, es, id, DeadlineOf(u, id));
    }
  }

  lemma FirstDue(envid: Bytes -> Bytes, s: Store, e: Event, id: Id)
    requires Sound(s.work) && Proper(s, e) && 0 <= e.now && Hands(s, e, id)
    requires id in Apply(envid, s, e).work.pending.nacked
    ensures DeadlineOf(Apply(envid, s, e), id)
            == NewDue(e.now, e.call.pop.visibility)
  {
    assert DeadlineOf(s, id) == None by { NewIds(s, e.call.pop); }
    PoppedDue(envid, s, e, id);
    NewIsDue(e.now, e.call.pop.visibility);
  }

  lemma StartsPending(envid: Bytes -> Bytes, s: Store, es: seq<Event>, id: Id)
    requires StayPending(envid, s, es, [id])
    ensures id in s.work.pending.nacked
  {
    assert id in Members([id]);
  }

  // ---- which calls take a pending item out ----

  predicate IsDue(s: Store, id: Id, now: int) {
    id in s.work.pending.timeouts && s.work.pending.timeouts[id] <= now
  }

  predicate TakesOut(s: Store, e: Event, id: Id) {
    match e.call
    case Settle(done, _, _, _, _) => done == id
    case PurgeAll => true
    case CloseBy(me) => me == OwnerOf(id)
    case RequeueExpired(visibility, _) => visibility <= 0 || IsDue(s, id, e.now)
    case SweepBy(me, heartbeat) =>
      || IsDue(s, id, e.now)
      || (s.owners.clock.Some?
          && (RanOut(s.owners, me, heartbeat, e.now, OwnerOf(id))
              || WentAway(s.owners, me, heartbeat, e.subs, e.now, OwnerOf(id))))
    case _ => false
  }

  /** A pending item leaves exactly by its finish, a purge, the Close of its owner,
      a RequeueNackedItems with no timeout or past its deadline, and a sweep past
      its deadline or one that takes its owner for dead. */
  lemma TakenOutExactly(envid: Bytes -> Bytes, s: Store, e: Event, id: Id)
    requires Proper(s, e) && id in s.work.pending.nacked
    ensures id !in Apply(envid, s, e).work.pending.nacked <==> TakesOut(s, e, id)
  {
    WorkOf(envid, s, e);
    match e.call
    case PopBy(_, _) => KeptStep(envid, s, e, id);
    case RequeueExpired(_, _) =>
      UpToMembers(s.work.pending.timeouts, e.now);
      MoveAllNacked(envid, s.work, RequeuedIds(s, e));
    case CloseBy(me) => ReleasedNacked(envid, s.work, me);
    case SweepBy(me, heartbeat) =>
      SweptNacked(envid, s.work, DeadIn(s, e), e.now);
      ReapedExactly(s.owners, me, heartbeat, e.subs, e.now, OwnerOf(id));
    case _ =>
  }

  /** So a sweep of another run's end takes an item popped at t with timeout vt > 0,
      and not handed out again, exactly when t + vt has come or it takes the owner
      for dead: the first sweep from t + vt on takes it. */
  lemma SweptAtPopPlusTimeout(envid: Bytes -> Bytes, s: Store, e: Event, es: seq<Event>, id: Id, sweep: Event)
    requires Sound(s.work) && Proper(s, e) && 0 <= e.now && Hands(s, e, id) && 0 < e.call.pop.visibility
    requires Apply(envid, s, e).work.seqNo < MAX_SEQ && ProperRun(envid, Apply(envid, s, e), es) && Timely(e.now, es)
    requires StayPending(envid, Apply(envid, s, e), es, [id]) && NotAgain(envid, Apply(envid, s, e), es, id)
    requires sweep.call.SweepBy? && Proper(Run(envid, Apply(envid, s, e), es), sweep)
    ensures var u := Run(envid, Apply(envid, s, e), es);
      id !in Apply(envid, u, sweep).work.pending.nacked
      <==> e.now + e.call.pop.visibility <= sweep.now || OwnerOf(id) in DeadIn(u, sweep)
  {
    var u := Run(envid, Apply(envid, s, e), es);
    DueAtPopPlusTimeout(envid, s, e, es, id);
    KeptRun(envid, Apply(envid, s, e), es, id);
    TakenOutExactly(envid, u, sweep, id);
    ReapedExactly(u.owners, sweep.call.me, sweep.call.heartbeat, sweep.subs, sweep.now, OwnerOf(id));
  }
}

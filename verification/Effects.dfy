/** What each call does to the two parts of the state most theorems are about:
    the items, and what is known of their owners. */
module Effects {
  import opened ByteStrings
  import opened SortedSets
  import opened AckIds
  import opened WaitingQueue
  import opened Store
  import opened Runs

  lemma NothingTaken(w: Work, dl: int, ms: int)
    ensures TakeWork(w, [], dl, ms) == w
  {
    if w.queue.Ranked? {
      assert Members(Take(Order(w.queue.members), 0)) == {};
    }
  }

  /** Whether a pop's guard finds an ID pending. */
  predicate Resent(s: Store, p: Pop) {
    Held(s.work.pending.nacked, IdsOf(p))
  }

  function WithDeadlines(w: Work, timeouts: Zset): Work {
    w.(pending := w.pending.(timeouts := timeouts))
  }

  /** The IDs a pop hands out: its leading pending ones, or as many as there
      are items. The one-item scripts and the batch script follow one rule. */
  function HandedOut(s: Store, p: Pop): (ids: seq<Id>)
    ensures ids <= IdsOf(p)
  {
    var ids := IdsOf(p);
    if Resent(s, p) then ids[..Leading(s.work.pending.nacked, ids)]
    else if s.paused.Some? then []
    else ids[..Min(p.want, Len(s.work.queue))]
  }

  /** The work a pop leaves. */
  function WorkAfterPop(s: Store, p: Pop, now: int): Work {
    var dl := Deadline(now, p.visibility);
    if Resent(s, p) then WithDeadlines(s.work, Raised(s.work.pending.timeouts, HandedOut(s, p), dl))
    else TakeWork(s.work, HandedOut(s, p), dl, Millis(now))
  }

  lemma PopEffect(s: Store, script: PopScript, p: Pop, now: int)
    requires ProperPop(script, p)
    ensures PopStore(s, script, p, now).work == WorkAfterPop(s, p, now)
    ensures PopStore(s, script, p, now).owners == BeatFor(s.owners, |HandedOut(s, p)|, p, now)
  {
    if script.BatchScript? {
      BatchEffect(s, p, now);
    } else {
      OneItemEffect(s, script, p, now);
    }
  }

  lemma BatchEffect(s: Store, p: Pop, now: int)
    ensures BatchPop(s, p, now).0.work == WorkAfterPop(s, p, now)
    ensures BatchPop(s, p, now).0.owners == BeatFor(s.owners, |HandedOut(s, p)|, p, now)
  {
    NothingTaken(s.work, Deadline(now, p.visibility), Millis(now));
  }

  lemma OneItemEffect(s: Store, script: PopScript, p: Pop, now: int)
    requires p.want == 1 && !script.BatchScript?
    ensures PopStore(s, script, p, now).work == WorkAfterPop(s, p, now)
    ensures PopStore(s, script, p, now).owners == BeatFor(s.owners, |HandedOut(s, p)|, p, now)
  {
    var ids := IdsOf(p);
    NothingTaken(s.work, Deadline(now, p.visibility), Millis(now));
    assert ids == [FirstId(p)];
    assert ids[0] in s.work.pending.nacked <==> Resent(s, p);
    assert ids[..1] == ids;
  }

  /** The owners a sweep takes for dead; no other call takes any. */
  function DeadIn(s: Store, e: Event): set<Owner> {
    if e.call.SweepBy? then SweptAway(s.owners, e.call.me, e.call.heartbeat, e.subs, e.now) else {}
  }

  /** The IDs RequeueNackedItems or Close takes back, in the order it does. */
  function RequeuedIds(s: Store, e: Event): seq<Id> {
    match e.call
    case RequeueExpired(visibility, listing) =>
      if visibility > 0 then UpTo(s.work.pending.timeouts, e.now) else listing
    case CloseBy(me) => SortedStrings(IdsWithPrefix(s.work.pending.nacked, me))
    case _ => []
  }

  function WorkStep(envid: Bytes -> Bytes, s: Store, e: Event): Work {
    match e.call
    case Enqueue(item, score, _, _) => PushWork(s.work, item, score)
    case EnqueueOnce(_, _, item, score, _, _) =>
      if Stores(s, e) then PushWork(s.work, item, score) else s.work
    case PopBy(_, p) => WorkAfterPop(s, p, e.now)
    case Settle(id, _, _, _, _) =>
      if id in s.work.pending.nacked then FinishedWork(envid, s.work, id) else s.work
    case RequeueExpired(_, _) => MoveAll(envid, s.work, RequeuedIds(s, e))
    case SweepBy(_, _) => SweptWork(envid, s.work, DeadIn(s, e), e.now)
    case CloseBy(_) => MoveAll(envid, s.work, RequeuedIds(s, e))
    case PurgeAll => EmptyWork(s.work.queue.Ranked?)
    case _ => s.work
  }

  lemma WorkOf(envid: Bytes -> Bytes, s: Store, e: Event)
    requires Proper(s, e)
    ensures Apply(envid, s, e).work == WorkStep(envid, s, e)
  {
    match e.call
    case PopBy(script, p) => PopEffect(s, script, p, e.now);
    case _ =>
  }

  function OwnersStep(s: Store, e: Event): Owners {
    match e.call
    case PopBy(_, p) => BeatFor(s.owners, |HandedOut(s, p)|, p, e.now)
    case SweepBy(me, heartbeat) => SweptOwners(s.owners, me, heartbeat, e.subs, e.now)
    case CloseBy(me) =>
      s.owners.(heartbeats := s.owners.heartbeats - {me}, presence := s.owners.presence - {me})
    case _ => s.owners
  }

  lemma OwnersOf(envid: Bytes -> Bytes, s: Store, e: Event)
    requires Proper(s, e)
    ensures Apply(envid, s, e).owners == OwnersStep(s, e)
  {
    match e.call
    case PopBy(script, p) => PopEffect(s, script, p, e.now);
    case _ =>
  }
}

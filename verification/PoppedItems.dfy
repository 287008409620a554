/** What a pop notes of an item stays noted while it is pending, through any run:
    the queue gets back the very entry that was popped, and the Job Record of a
    finish tells of that pop. */
module PoppedItems {
  import opened ByteStrings
  import opened SortedSets
  import opened AckIds
  import opened WaitingQueue
  import opened Store
  import opened Runs
  import opened Effects
  import opened PendingKeys
  import opened Resend
  import opened JobRecords

  /** The item, its start time and its score are as they were. */
  predicate SameEntry(k: Pending, k': Pending, id: Id) {
    && id in k.nacked && id in k'.nacked && k'.nacked[id] == k.nacked[id]
    && (id in k.started <==> id in k'.started) && (id in k.started ==> k'.started[id] == k.started[id])
    && (id in k.prio <==> id in k'.prio) && (id in k.prio ==> k'.prio[id] == k.prio[id])
  }

  lemma {:induction false} MovesKeepEntry(envid: Bytes -> Bytes, w: Work, ids: seq<Id>, id: Id)
    requires id in MoveAll(envid, w, ids).pending.nacked
    ensures SameEntry(w.pending, MoveAll(envid, w, ids).pending, id)
  {
    if ids != [] {
      MovesKeepEntry(envid, w, ids[..|ids| - 1], id);
    }
  }

  lemma TakeKeepsEntry(w: Work, ids: seq<Id>, dl: int, ms: int, id: Id)
    requires Agree(w.pending) && id in w.pending.nacked && id !in ids && |ids| <= Len(w.queue)
    ensures SameEntry(w.pending, TakeWork(w, ids, dl, ms).pending, id)
  {
    var (k, n) := (w.pending, |ids|);
    PutOther(k.nacked, ids, FrontItems(w.queue, n), id);
    PutAllKeys(k.started, ids, ms);
    PutAllValues(k.started, ids, ms, id);
    PutKeys(k.prio, ids, FrontScores(w.queue, n));
    if id in k.prio {
      PutOther(k.prio, ids, FrontScores(w.queue, n), id);
    }
  }

  /** Every call keeps the entry of an item it leaves pending. */
  lemma EntryStep(envid: Bytes -> Bytes, s: Store, e: Event, id: Id)
    requires Proper(s, e) && Sound(s.work) && id in s.work.pending.nacked
      && id in Apply(envid, s, e).work.pending.nacked
    ensures SameEntry(s.work.pending, Apply(envid, s, e).work.pending, id)
  {
    WorkOf(envid, s, e);
    WorkKeepsEntry(envid, s, e, id);
  }

  lemma PoppedKeepsEntry(envid: Bytes -> Bytes, s: Store, e: Event, id: Id)
    requires Sound(s.work) && e.call.PopBy? && id in s.work.pending.nacked
    ensures SameEntry(s.work.pending, WorkStep(envid, s, e).pending, id)
  {
    PopKeepsEntry(s, e.call.pop, e.now, id);
  }

  lemma RequeuedKeepsEntry(envid: Bytes -> Bytes, s: Store, e: Event, id: Id)
    requires e.call.RequeueExpired? || e.call.CloseBy?
    requires id in s.work.pending.nacked && id in WorkStep(envid, s, e).pending.nacked
    ensures SameEntry(s.work.pending, WorkStep(envid, s, e).pending, id)
  {
    MovesKeepEntry(envid, s.work, RequeuedIds(s, e), id);
  }

  lemma ReapedKeepsEntry(envid: Bytes -> Bytes, s: Store, e: Event, id: Id)
    requires e.call.SweepBy? && id in s.work.pending.nacked && id in WorkStep(envid, s, e).pending.nacked
    ensures SameEntry(s.work.pending, WorkStep(envid, s, e).pending, id)
  {
    SweepKeepsEntry(envid, s.work, DeadIn(s, e), e.now, id);
  }

  lemma WorkKeepsEntry(envid: Bytes -> Bytes, s: Store, e: Event, id: Id)
    requires Sound(s.work) && id in s.work.pending.nacked && id in WorkStep(envid, s, e).pending.nacked
    ensures SameEntry(s.work.pending, WorkStep(envid, s, e).pending, id)
  {
    match e.call
    case PopBy(_, _) => PoppedKeepsEntry(envid, s, e, id);
    case RequeueExpired(_, _) => RequeuedKeepsEntry(envid, s, e, id);
    case CloseBy(_) => RequeuedKeepsEntry(envid, s, e, id);
    case SweepBy(_, _) => ReapedKeepsEntry(envid, s, e, id);
    case _ =>
  }

  lemma PopKeepsEntry(s: Store, p: Pop, now: int, id: Id)
    requires Sound(s.work) && id in s.work.pending.nacked
    ensures SameEntry(s.work.pending, WorkAfterPop(s, p, now).pending, id)
  {
    if !Resent(s, p) {
      assert forall i :: 0 <= i < |HandedOut(s, p)| ==> HandedOut(s, p)[i] == IdsOf(p)[i];
      TakeKeepsEntry(s.work, HandedOut(s, p), Deadline(now, p.visibility), Millis(now), id);
    }
  }

  lemma SweepKeepsEntry(envid: Bytes -> Bytes, w: Work, dead: set<Owner>, now: int, id: Id)
    requires id in SweptWork(envid, w, dead, now).pending.nacked
    ensures SameEntry(w.pending, SweptWork(envid, w, dead, now).pending, id)
  {
    var w' := MoveAll(envid, w, UpTo(w.pending.timeouts, now));
    MovesKeepEntry(envid, w', SortedStrings(OwnedIds(w'.pending.nacked, dead)), id);
    MovesKeepEntry(envid, w, UpTo(w.pending.timeouts, now), id);
  }

  lemma {:induction false} EntryRun(envid: Bytes -> Bytes, s: Store, es: seq<Event>, id: Id)
    requires ProperRun(envid, s, es) && Sound(s.work) && StayPending(envid, s, es, [id])
    ensures SameEntry(s.work.pending, Run(envid, s, es).work.pending, id)
    decreases |es|
  {
    assert id in Members([id]);
    if es != [] {
      EntryStep(envid, s, es[0], id);
      SoundStep(envid, s, es[0]);
      EntryRun(envid, Apply(envid, s, es[0]), es[1..], id);
    }
  }

  /** What a fresh pop notes of its i-th item. */
  lemma FreshEntry(s: Store, p: Pop, now: int, i: nat)
    requires Sound(s.work) && !Resent(s, p) && i < |HandedOut(s, p)|
    requires IsOwner(p.owner) && p.reservation < UINT64_LIMIT && p.want <= MAX_POP
    ensures |HandedOut(s, p)| <= |Entries(s.work.queue)|
    ensures var (k, id, entry) := (WorkAfterPop(s, p, now).pending, IdsOf(p)[i], Entries(s.work.queue)[i]);
      && id in k.nacked && k.nacked[id] == entry.item
      && id in k.started && k.started[id] == Millis(now)
      && (s.work.queue.Ranked? ==> id in k.prio && k.prio[id] == entry.score)
  {
    LenIsEntries(s.work.queue);
    FreshItem(s, p, now, i);
    var (ids, k) := (HandedOut(s, p), s.work.pending);
    DistinctPrefix(p, |ids|);
    assert ids[i] == IdsOf(p)[i] && ids[i] in ids;
    PutAllValues(k.started, ids, Millis(now), ids[i]);
    PutAt(k.prio, ids, FrontScores(s.work.queue, |ids|), i);
  }

  /** So it is noted as long as the item is pending. */
  lemma NotedWhilePending(envid: Bytes -> Bytes, s: Store, script: PopScript, p: Pop, now: int, es: seq<Event>, i: nat)
    requires Sound(s.work) && ProperPop(script, p) && !Resent(s, p) && i < |HandedOut(s, p)|
    requires ProperRun(envid, PopStore(s, script, p, now), es)
    requires StayPending(envid, PopStore(s, script, p, now), es, [IdsOf(p)[i]])
    ensures |HandedOut(s, p)| <= |Entries(s.work.queue)|
    ensures var w := Run(envid, PopStore(s, script, p, now), es).work;
      var (k, id, entry) := (w.pending, IdsOf(p)[i], Entries(s.work.queue)[i]);
      && Sound(w) && (w.queue.Ranked? <==> s.work.queue.Ranked?)
      && id in k.nacked && k.nacked[id] == entry.item
      && id in k.started && k.started[id] == Millis(now)
      && (s.work.queue.Ranked? ==> id in k.prio && k.prio[id] == entry.score)
  {
    var s1 := PopStore(s, script, p, now);
    PopEffect(s, script, p, now);
    PopSound(s, p, now);
    FreshEntry(s, p, now, i);
    EntryRun(envid, s1, es, IdsOf(p)[i]);
    SoundRun(envid, s1, es);
    KindKept(envid, s1, es);
  }

  lemma KindStep(envid: Bytes -> Bytes, s: Store, e: Event)
    requires Proper(s, e)
    ensures Apply(envid, s, e).work.queue.Ranked? <==> s.work.queue.Ranked?
  {
    WorkOf(envid, s, e);
    match e.call
    case RequeueExpired(_, _) => MoveAllNacked(envid, s.work, RequeuedIds(s, e));
    case CloseBy(_) => MoveAllNacked(envid, s.work, RequeuedIds(s, e));
    case SweepBy(_, _) =>
      var w' := MoveAll(envid, s.work, UpTo(s.work.pending.timeouts, e.now));
      MoveAllNacked(envid, s.work, UpTo(s.work.pending.timeouts, e.now));
      MoveAllNacked(envid, w', SortedStrings(OwnedIds(w'.pending.nacked, DeadIn(s, e))));
    case _ =>
  }

  lemma {:induction false} KindKept(envid: Bytes -> Bytes, s: Store, es: seq<Event>)
    requires ProperRun(envid, s, es)
    ensures Run(envid, s, es).work.queue.Ranked? <==> s.work.queue.Ranked?
    decreases |es|
  {
    if es != [] {
      KindStep(envid, s, es[0]);
      KindKept(envid, Apply(envid, s, es[0]), es[1..]);
    }
  }

  /** Whenever a sorted set's item is taken back, the queue gets the very entry
      that was popped: its item at its priority, behind those waiting at it. A
      list gets it at its head. */
  lemma ReturnsAsPopped(envid: Bytes -> Bytes, s: Store, script: PopScript, p: Pop, now: int, es: seq<Event>, i: nat)
    requires Sound(s.work) && ProperPop(script, p) && !Resent(s, p) && i < |HandedOut(s, p)|
    requires ProperRun(envid, PopStore(s, script, p, now), es)
    requires StayPending(envid, PopStore(s, script, p, now), es, [IdsOf(p)[i]])
    ensures |HandedOut(s, p)| <= |Entries(s.work.queue)|
    ensures var w := Run(envid, PopStore(s, script, p, now), es).work;
      var (w', entry) := (Move(envid, w, IdsOf(p)[i]), Entries(s.work.queue)[i]);
      && (s.work.queue.Ranked? ==> Entries(w'.queue) == StableInsert(Entries(w.queue), entry))
      && (s.work.queue.Listed? ==> w.queue.Listed? && w'.queue == Listed([entry.item] + w.queue.items))
  {
    NotedWhilePending(envid, s, script, p, now, es, i);
    var (w, entry) := (Run(envid, PopStore(s, script, p, now), es).work, Entries(s.work.queue)[i]);
    if s.work.queue.Ranked? {
      MoveReturns(envid, w, IdsOf(p)[i], entry);
    }
  }

  lemma MoveReturns(envid: Bytes -> Bytes, w: Work, id: Id, entry: Entry)
    requires w.queue.Ranked? && WellFormed(w.queue, w.seqNo)
    requires id in w.pending.nacked && w.pending.nacked[id] == entry.item
    requires id in w.pending.prio && w.pending.prio[id] == entry.score
    ensures Entries(Move(envid, w, id).queue) == StableInsert(Entries(w.queue), entry)
  {
    var z := w.queue.members;
    assert Move(envid, w, id).queue == Pushed(Ranked(z), w.seqNo + 1, entry.item, entry.score);
    PushRefines(z, w.seqNo, entry.item, entry.score);
  }

  /** A finish at now' of an item popped at now, whatever ran in between: a record
      is kept exactly when the retention keeps any and the job is among the newest
      keep of its state or past the oldest 1000; it tells of that item, that pop
      and this finish; the job is in no other state, nothing of it stays pending,
      and finishing it again does nothing. */
  lemma RecordTellsTheJob(envid: Bytes -> Bytes, s: Store, script: PopScript, p: Pop, now: int, es: seq<Event>, i: nat,
                          outcome: Outcome, reason: Bytes, keep: int, age: int, now': int)
    requires Sound(s.work) && ProperPop(script, p) && !Resent(s, p) && i < |HandedOut(s, p)|
    requires ProperRun(envid, PopStore(s, script, p, now), es)
    requires StayPending(envid, PopStore(s, script, p, now), es, [IdsOf(p)[i]])
    ensures |HandedOut(s, p)| <= |Entries(s.work.queue)|
    ensures var (id, item) := (IdsOf(p)[i], Entries(s.work.queue)[i].item);
      var t := Finish(envid, Run(envid, PopStore(s, script, p, now), es), id, outcome, reason, keep, age, now');
      var (k, job) := (t.work.pending, if envid(item) != [] then envid(item) else id);
      && id !in k.nacked && id !in k.timeouts && id !in k.started && id !in k.prio
      && job !in IndexOf(t.records, Other(outcome))
      && (job in t.records.jobs <==>
            var z := IndexOf(Run(envid, PopStore(s, script, p, now), es).records, outcome)[job := now' / 1000];
            0 < keep && 0 < age && (|z| - |Ahead(z, job)| <= keep || 1000 <= |Ahead(z, job)|))
      && (job in t.records.jobs ==>
            var r := t.records.jobs[job];
            && r.state == outcome && r.item == item && r.startedAt == Some(now / 1000) && r.finishedAt == now' / 1000
            && (envid(item) == [] ==> r.attempts == 1)
            && r.reason == if outcome.Failed? then Some(reason) else None)
      && Finish(envid, t, id, outcome, reason, keep, age, now') == t
  {
    NotedWhilePending(envid, s, script, p, now, es, i);
    var (u, id) := (Run(envid, PopStore(s, script, p, now), es), IdsOf(p)[i]);
    var record := RecordOf(envid, u.work, id, outcome, reason, now');
    KeptRecord(u.records, JobId(envid, u.work.pending.nacked[id], id), record, keep, age, Millis(now'));
    RecordKept(u.records, JobId(envid, u.work.pending.nacked[id], id), record, keep, age, Millis(now'));
  }

  lemma KeptRecord(r: Records, job: Bytes, record: Record, keep: int, age: int, now: int)
    ensures var t := Trim(Filed(r, job, record, keep > 0 && age > 0), record.state, keep, age, now);
      && (job in t.jobs ==> t.jobs[job] == record)
      && job !in IndexOf(t, Other(record.state))
  {}
}

/** Runs in which Redis refuses pushes: nothing is lost but one item for each
    RequeueNackedItems that fails, and a failed push can be tried again. */
module FailingRuns {
  import opened ByteStrings
  import opened SortedSets
  import opened AckIds
  import opened WaitingQueue
  import opened S = Store
  import opened Runs
  import opened Effects
  import opened PendingKeys
  import opened Conservation
  import opened Refusals
  import opened Aborts
  import Q = StableQueue

  // ---- with no push refused ----

  lemma TryUnrefused(envid: Bytes -> Bytes, s: S.Store, e: Event)
    ensures Tried(envid, s, Try(e, false, {})) == (Apply(envid, s, e), true)
  {
    match e.call
    case RequeueExpired(visibility, listing) => ScriptsUnrefused(envid, s, [], visibility, listing, e.now);
    case SweepBy(me, heartbeat) => SweepUnrefused(envid, s, me, heartbeat, e.subs, e.now);
    case CloseBy(me) => ScriptsUnrefused(envid, s, me, 0, [], e.now);
    case _ =>
  }

  /** Tries of which no push is refused are a run. */
  lemma {:induction false} TriesUnrefused(envid: Bytes -> Bytes, s: S.Store, es: seq<Event>)
    ensures var ts := seq(|es|, i requires 0 <= i < |es| => Try(es[i], false, {}));
      && TriedAll(envid, s, ts) == Run(envid, s, es)
      && (ProperTries(envid, s, ts) <==> ProperRun(envid, s, es))
    decreases |es|
  {
    if es != [] {
      var ts := seq(|es|, i requires 0 <= i < |es| => Try(es[i], false, {}));
      assert ts[1..] == seq(|es[1..]|, i requires 0 <= i < |es[1..]| => Try(es[1..][i], false, {}));
      TryUnrefused(envid, s, es[0]);
      TriesUnrefused(envid, Apply(envid, s, es[0]), es[1..]);
    }
  }

  // ---- what each call keeps of the keys ----

  lemma TakeOrderly(w: Work, ids: seq<Id>, dl: int, ms: int)
    requires Orderly(w) && |ids| <= Len(w.queue)
    ensures Orderly(TakeWork(w, ids, dl, ms))
  {
    RestDrops(w.queue, |ids|, w.seqNo);
    PutKeys(w.pending.nacked, ids, FrontItems(w.queue, |ids|));
    PutAllKeys(w.pending.timeouts, ids, dl);
  }

  lemma PopOrderly(s: S.Store, p: Pop, now: int)
    requires Orderly(s.work)
    ensures Orderly(WorkAfterPop(s, p, now))
  {
    var (ids, dl) := (HandedOut(s, p), Deadline(now, p.visibility));
    if Resent(s, p) {
      HandedOutPending(s, p);
      RaisedKeys(s.work.pending.timeouts, ids, dl);
    } else {
      TakeOrderly(s.work, ids, dl, Millis(now));
    }
  }

  /** A call that takes back no item. */
  predicate KeepsOut(c: Call) {
    !c.RequeueExpired? && !c.SweepBy? && !c.CloseBy?
  }

  lemma WholeOrderly(envid: Bytes -> Bytes, s: S.Store, e: Event)
    requires Orderly(s.work) && Proper(s, e) && KeepsOut(e.call) && Apply(envid, s, e).work.seqNo < MAX_SEQ
    ensures Orderly(Apply(envid, s, e).work)
  {
    WorkOf(envid, s, e);
    match e.call
    case Enqueue(item, score, _, _) => PushOrderly(s.work, item, score);
    case EnqueueOnce(_, _, item, score, _, _) =>
      if Stores(s, e) {
        PushOrderly(s.work, item, score);
      }
    case PopBy(_, p) => PopOrderly(s, p, e.now);
    case PurgeAll => EmptyIsSound(s.work.queue.Ranked?);
    case _ =>
  }

  // ---- what is lost ----

  /** The item at whose push RequeueNackedItems fails, if it does. */
  function LostBy(s: S.Store, t: Try): (lost: multiset<Item>) {
    if !t.event.call.RequeueExpired? then multiset{}
    else LostAt(s.work, RequeuedIds(s, t.event), t.refused)
  }

  function LostAt(w: Work, ids: seq<Id>, refused: set<Id>): multiset<Item> {
    var k := FirstRefused(ids, refused);
    if k < |ids| && ids[k] in w.pending.nacked then multiset{w.pending.nacked[ids[k]]} else multiset{}
  }

  lemma DueIds(s: S.Store, e: Event)
    requires e.call.RequeueExpired? && Orderly(s.work) && Proper(s, e)
    ensures Distinct(RequeuedIds(s, e)) && Members(RequeuedIds(s, e)) <= s.work.pending.nacked.Keys
  {
    if e.call.visibility > 0 {
      var due := map m | m in s.work.pending.timeouts && s.work.pending.timeouts[m] <= e.now
        :: s.work.pending.timeouts[m];
      OrderIsOrder(due);
      OrderDistinct(due, Order(due));
    }
  }

  /** Wherever RequeueNackedItems stops, all but that item is waiting or pending. */
  lemma RequeueUntilTotal(envid: Bytes -> Bytes, w: Work, ids: seq<Id>, refused: set<Id>)
    requires Orderly(w) && Distinct(ids) && Members(ids) <= w.pending.nacked.Keys
    requires RequeueUntil(envid, w, ids, refused).0.seqNo < MAX_SEQ
    ensures var (t, ok) := RequeueUntil(envid, w, ids, refused);
      && Orderly(t) && Total(t) + LostAt(w, ids, refused) == Total(w)
      && |LostAt(w, ids, refused)| == (if ok then 0 else 1)
  {
    var k := FirstRefused(ids, refused);
    var done := MoveAll(envid, w, ids[..k]);
    StopsAtFirst(envid, w, ids, refused);
    MoveAllWellFormed(envid, w, ids[..k]);
    MoveAllNacked(envid, w, ids[..k]);
    MoveAllTotal(envid, w, ids[..k]);
    if k < |ids| {
      RestPending(envid, w, ids, k);
      RequeueRefusedLoses(done, ids[k]);
      RequeueRefusedOrderly(done, ids[k]);
    }
  }

  lemma RequeueRefusedOrderly(w: Work, id: Id)
    requires Orderly(w) && RequeueRefused(w, id).seqNo < MAX_SEQ
    ensures Orderly(RequeueRefused(w, id))
  {
    RefusedOrderly(w);
  }

  lemma SweepUntilTotal(envid: Bytes -> Bytes, s: S.Store, me: Owner, heartbeat: int, subs: set<Owner>, now: int,
                        refused: set<Id>)
    requires Orderly(s.work) && SweepUntil(envid, s, me, heartbeat, subs, now, refused).0.work.seqNo < MAX_SEQ
    ensures var t := SweepUntil(envid, s, me, heartbeat, subs, now, refused).0;
      Orderly(t.work) && Total(t.work) == Total(s.work) && t.stats == s.stats
  {
    var due := UpTo(s.work.pending.timeouts, now);
    var (w, ok) := MoveUntil(envid, s.work, due, refused);
    if ok && s.owners.clock.Some? {
      var o := Prepared(s.owners, me, heartbeat, now);
      var ids := SortedStrings(OwnedIds(w.pending.nacked, Dead(o, Ticks(s.owners, now), subs, now)));
      SeqGrows(envid, w, ids, refused);
      MoveUntilOrderly(envid, s.work, due, refused);
      MoveUntilOrderly(envid, w, ids, refused);
    } else {
      MoveUntilOrderly(envid, s.work, due, refused);
    }
  }

  /** What a call stores, if it runs to its end. */
  function StoredIf(s: S.Store, e: Event, ok: bool): multiset<Item> {
    if ok then Stored(s, e) else multiset{}
  }

  /** What a try changes: the second clause is the conservation of items, the
      others that of the counters. */
  ghost predicate Accounts(s: S.Store, e: Event, u: S.Store, ok: bool, lost: multiset<Item>) {
    && Orderly(u.work)
    && Total(u.work) + (FinishedAs(s, e, Completed) + FinishedAs(s, e, Failed)) + lost
       == Total(s.work) + StoredIf(s, e, ok)
    && u.stats == Stats(s.stats.submitted + |StoredIf(s, e, ok)|, s.stats.completed + |FinishedAs(s, e, Completed)|,
                        s.stats.failed + |FinishedAs(s, e, Failed)|)
    && |lost| == (if e.call.RequeueExpired? && !ok then 1 else 0)
  }

  lemma RequeueAccounts(envid: Bytes -> Bytes, s: S.Store, t: Try)
    requires t.event.call.RequeueExpired? && Orderly(s.work) && Proper(s, t.event)
    requires Tried(envid, s, t).0.work.seqNo < MAX_SEQ
    ensures Accounts(s, t.event, Tried(envid, s, t).0, Tried(envid, s, t).1, LostBy(s, t))
  {
    DueIds(s, t.event);
    RequeueUntilTotal(envid, s.work, RequeuedIds(s, t.event), t.refused);
  }

  lemma SweepAccounts(envid: Bytes -> Bytes, s: S.Store, t: Try)
    requires t.event.call.SweepBy? && Orderly(s.work) && Tried(envid, s, t).0.work.seqNo < MAX_SEQ
    ensures Accounts(s, t.event, Tried(envid, s, t).0, Tried(envid, s, t).1, LostBy(s, t))
  {
    var (e, c) := (t.event, t.event.call);
    SweepUntilTotal(envid, s, c.me, c.heartbeat, e.subs, e.now, t.refused);
  }

  lemma CloseAccounts(envid: Bytes -> Bytes, s: S.Store, t: Try)
    requires t.event.call.CloseBy? && Orderly(s.work) && Tried(envid, s, t).0.work.seqNo < MAX_SEQ
    ensures Accounts(s, t.event, Tried(envid, s, t).0, Tried(envid, s, t).1, LostBy(s, t))
  {
    var ids := SortedStrings(IdsWithPrefix(s.work.pending.nacked, t.event.call.me));
    MoveUntilOrderly(envid, s.work, ids, t.refused);
  }

  lemma WholeAccounts(envid: Bytes -> Bytes, s: S.Store, e: Event)
    requires KeepsOut(e.call) && !e.call.PurgeAll? && Orderly(s.work) && Proper(s, e)
    requires Apply(envid, s, e).work.seqNo < MAX_SEQ
    ensures Accounts(s, e, Apply(envid, s, e), true, multiset{})
  {
    WholeOrderly(envid, s, e);
    TotalStep(envid, s, e);
    StatsStep(envid, s, e);
    EachOutcome(s, e);
  }

  lemma PushAccounts(s: S.Store, e: Event)
    requires Stores(s, e) && Orderly(s.work) && PushRefused(s.work).seqNo < MAX_SEQ
    ensures Accounts(s, e, s.(work := PushRefused(s.work)), false, multiset{})
  {
    RefusedOrderly(s.work);
  }

  lemma TryAccounts(envid: Bytes -> Bytes, s: S.Store, t: Try)
    requires !t.event.call.PurgeAll? && Orderly(s.work) && Proper(s, t.event)
    requires Tried(envid, s, t).0.work.seqNo < MAX_SEQ
    ensures Accounts(s, t.event, Tried(envid, s, t).0, Tried(envid, s, t).1, LostBy(s, t))
  {
    match t.event.call
    case RequeueExpired(_, _) => RequeueAccounts(envid, s, t);
    case SweepBy(_, _) => SweepAccounts(envid, s, t);
    case CloseBy(_) => CloseAccounts(envid, s, t);
    case _ =>
      if t.refusesItem && Stores(s, t.event) {
        PushAccounts(s, t.event);
      } else {
        WholeAccounts(envid, s, t.event);
      }
  }

  // ---- whole runs ----

  /** The ledger, what was lost, and how many RequeueNackedItems failed, since the
      queue was last purged. */
  datatype Books = Books(ledger: Ledger, lost: multiset<Item>, aborted: nat)

  const NO_BOOKS := Books(NO_LEDGER, multiset{}, 0)

  /** The books after a call that changed the store so. */
  function BooksAfter(s: S.Store, b: Books, e: Event, ok: bool, lost: multiset<Item>): Books {
    var l := b.ledger;
    Books(Ledger(l.submitted + StoredIf(s, e, ok),
                 l.acknowledged + FinishedAs(s, e, Completed), l.rejected + FinishedAs(s, e, Failed)),
          b.lost + lost, b.aborted + if e.call.RequeueExpired? && !ok then 1 else 0)
  }

  function BookTry(envid: Bytes -> Bytes, s: S.Store, b: Books, t: Try): Books {
    if t.event.call.PurgeAll? then NO_BOOKS else BooksAfter(s, b, t.event, Tried(envid, s, t).1, LostBy(s, t))
  }

  function BookTries(envid: Bytes -> Bytes, s: S.Store, b: Books, ts: seq<Try>): Books
    decreases |ts|
  {
    if ts == [] then b else BookTries(envid, Tried(envid, s, ts[0]).0, BookTry(envid, s, b, ts[0]), ts[1..])
  }

  ghost predicate Accounted(s: S.Store, b: Books) {
    && Orderly(s.work)
    && b.ledger.submitted == Total(s.work) + b.ledger.acknowledged + b.ledger.rejected + b.lost
    && s.stats == Stats(|b.ledger.submitted|, |b.ledger.acknowledged|, |b.ledger.rejected|)
    && |b.lost| == b.aborted
  }

  lemma AccountedAfter(s: S.Store, b: Books, u: S.Store, stored: multiset<Item>, acked: multiset<Item>,
                       rejected: multiset<Item>, lost: multiset<Item>)
    requires Accounted(s, b) && Orderly(u.work)
    requires Total(u.work) + (acked + rejected) + lost == Total(s.work) + stored
    requires u.stats == Stats(s.stats.submitted + |stored|, s.stats.completed + |acked|, s.stats.failed + |rejected|)
    ensures var l := b.ledger;
      Accounted(u, Books(Ledger(l.submitted + stored, l.acknowledged + acked, l.rejected + rejected), b.lost + lost,
                         b.aborted + |lost|))
  {
    var l := b.ledger;
    AddsUp(l.submitted, Total(s.work), l.acknowledged, l.rejected, b.lost, stored, Total(u.work), acked, rejected,
           lost);
  }

  lemma AccountedChange(s: S.Store, b: Books, e: Event, u: S.Store, ok: bool, lost: multiset<Item>)
    requires Accounted(s, b) && Accounts(s, e, u, ok, lost)
    ensures Accounted(u, BooksAfter(s, b, e, ok, lost))
  {
    AccountedAfter(s, b, u, StoredIf(s, e, ok), FinishedAs(s, e, Completed), FinishedAs(s, e, Failed), lost);
  }

  lemma AccountedTry(envid: Bytes -> Bytes, s: S.Store, b: Books, t: Try)
    requires Accounted(s, b) && Proper(s, t.event) && Tried(envid, s, t).0.work.seqNo < MAX_SEQ
    ensures Accounted(Tried(envid, s, t).0, BookTry(envid, s, b, t))
  {
    if t.event.call.PurgeAll? {
      PurgeAccounted(envid, s, t.event);
    } else {
      TryAccounts(envid, s, t);
      AccountedChange(s, b, t.event, Tried(envid, s, t).0, Tried(envid, s, t).1, LostBy(s, t));
    }
  }

  lemma PurgeAccounted(envid: Bytes -> Bytes, s: S.Store, e: Event)
    requires e.call.PurgeAll?
    ensures Accounted(Purge(s), NO_BOOKS)
  {
    EmptyIsSound(s.work.queue.Ranked?);
    EmptyTotal(s.work.queue.Ranked?);
  }

  lemma {:induction false} AccountedTries(envid: Bytes -> Bytes, s: S.Store, b: Books, ts: seq<Try>)
    requires Accounted(s, b) && ProperTries(envid, s, ts)
    ensures Accounted(TriedAll(envid, s, ts), BookTries(envid, s, b, ts))
    decreases |ts|
  {
    if ts != [] {
      AccountedTry(envid, s, b, ts[0]);
      AccountedTries(envid, Tried(envid, s, ts[0]).0, BookTry(envid, s, b, ts[0]), ts[1..]);
    }
  }

  /** In every run from an empty queue, whatever pushes Redis refuses: submitted =
      waiting + pending + acknowledged + rejected + lost, where one item was lost for each
      RequeueNackedItems that failed. */
  lemma ConservedButForAborts(envid: Bytes -> Bytes, ranked: bool, ts: seq<Try>)
    requires ProperTries(envid, Empty(ranked), ts)
    ensures var (u, b) := (TriedAll(envid, Empty(ranked), ts), BookTries(envid, Empty(ranked), NO_BOOKS, ts));
      && b.ledger.submitted
         == multiset(Items(u.work.queue)) + Bag(u.work.pending.nacked) + b.ledger.acknowledged + b.ledger.rejected
            + b.lost
      && |b.lost| == b.aborted
      && u.stats.completed == |b.ledger.acknowledged| && u.stats.failed == |b.ledger.rejected|
      && u.stats.submitted
         == Len(u.work.queue) + |u.work.pending.nacked| + u.stats.completed + u.stats.failed + b.aborted
  {
    EmptyIsSound(ranked);
    EmptyTotal(ranked);
    AccountedTries(envid, Empty(ranked), NO_BOOKS, ts);
    TotalSize(TriedAll(envid, Empty(ranked), ts).work);
  }

  // ---- pushes ----

  /** EnqueueOnce called at these times, its push refused each time. */
  function FailedPushes(s: S.Store, key: Bytes, window: int, item: Item, score: int, times: seq<int>): S.Store {
    if times == [] then s
    else
      PushOnceUntil(FailedPushes(s, key, window, item, score, times[..|times| - 1]), key, window, item, score,
                    times[|times| - 1], true).0
  }

  lemma {:induction false} FailedPushesKeep(s: S.Store, key: Bytes, window: int, item: Item, score: int,
                                            times: seq<int>)
    requires WellFormed(s.work.queue, s.work.seqNo) && s.work.seqNo + |times| < MAX_SEQ
    ensures var u := FailedPushes(s, key, window, item, score, times);
      && u == s.(work := s.work.(seqNo := u.work.seqNo)) && u.work.seqNo <= s.work.seqNo + |times|
      && WellFormed(u.work.queue, u.work.seqNo)
  {
    if times != [] {
      var h := times[..|times| - 1];
      FailedPushesKeep(s, key, window, item, score, h);
      var u := FailedPushes(s, key, window, item, score, h);
      if u.work.queue.Ranked? {
        StampedLonger(u.work.queue.members, u.work.seqNo);
      }
    }
  }

  /** Failed pushes leave the id free and no item behind: the retry that runs
      leaves the queue, the counters and the id as a first call would. */
  lemma RetryStoresOnce(s: S.Store, key: Bytes, window: int, item: Item, score: int, times: seq<int>, now: int)
    requires WellFormed(s.work.queue, s.work.seqNo) && s.work.seqNo + |times| + 1 < MAX_SEQ
    ensures var u := FailedPushes(s, key, window, item, score, times);
      var (v, first) := (PushOnce(u, key, window, item, score, now), PushOnce(s, key, window, item, score, now));
      && u.dedup == s.dedup && u.stats == s.stats && u.work.queue == s.work.queue
      && Entries(v.work.queue) == Entries(first.work.queue) && v.work.pending == first.work.pending
      && v.stats == first.stats && v.dedup == first.dedup
  {
    FailedPushesKeep(s, key, window, item, score, times);
    PushedAlike(s.work, FailedPushes(s, key, window, item, score, times).work, item, score);
  }

  /** The sequence number orders equal scores, and is not seen otherwise. */
  lemma PushedAlike(w: Work, w': Work, item: Item, score: int)
    requires w'.queue == w.queue && WellFormed(w.queue, w.seqNo) && WellFormed(w.queue, w'.seqNo)
    ensures Entries(PushWork(w', item, score).queue) == Entries(PushWork(w, item, score).queue)
  {
    if w.queue.Ranked? {
      Q.RankedArrives(w, item, score);
      Q.RankedArrives(w', item, score);
    } else {
      Q.ListedArrives(w, item, score);
      Q.ListedArrives(w', item, score);
    }
  }
}

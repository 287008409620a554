/** No call loses or doubles an item: what was submitted is waiting, pending or
    finished, and the counters say so. */
module Conservation {
  import opened ByteStrings
  import opened SortedSets
  import opened AckIds
  import opened WaitingQueue
  import opened Store
  import opened Runs
  import opened Effects
  import opened PendingKeys

  /** The pending items, with multiplicity. */
  ghost function Bag(m: map<Id, Item>): multiset<Item>
    decreases |m|
  {
    if m == map[] then multiset{}
    else
      var k :| k in m;
      assert (m - {k}).Keys == m.Keys - {k};
      multiset{m[k]} + Bag(m - {k})
  }

  lemma BagUnfold(m: map<Id, Item>) returns (k: Id)
    requires m != map[]
    ensures k in m && Bag(m) == multiset{m[k]} + Bag(m - {k}) && |m - {k}| < |m|
  {
    k :| k in m && Bag(m) == multiset{m[k]} + Bag(m - {k});
    assert (m - {k}).Keys == m.Keys - {k};
  }

  lemma {:induction false} BagRemove(m: map<Id, Item>, k: Id)
    requires k in m
    ensures Bag(m) == multiset{m[k]} + Bag(m - {k})
    decreases |m|
  {
    var j := BagUnfold(m);
    if j != k {
      var (a, b) := (m - {j}, m - {k});
      assert a - {k} == b - {j};
      assert b.Keys == m.Keys - {k};
      BagRemove(a, k);
      BagRemove(b, j);
    }
  }

  lemma BagAdd(m: map<Id, Item>, k: Id, v: Item)
    requires k !in m
    ensures Bag(m[k := v]) == Bag(m) + multiset{v}
  {
    BagRemove(m[k := v], k);
    assert m[k := v] - {k} == m;
  }

  lemma {:induction false} BagSize(m: map<Id, Item>)
    ensures |Bag(m)| == |m|
    decreases |m|
  {
    if m != map[] {
      var k :| k in m;
      assert (m - {k}).Keys == m.Keys - {k};
      BagRemove(m, k);
      BagSize(m - {k});
    }
  }

  lemma {:induction false} BagPut(m: map<Id, Item>, ids: seq<Id>, items: seq<Item>)
    requires |ids| == |items| && Distinct(ids) && Members(ids) !! m.Keys
    ensures Bag(Put(m, ids, items)) == Bag(m) + multiset(items)
  {
    if ids != [] {
      var (h, front) := (ids[..|ids| - 1], items[..|ids| - 1]);
      MembersSnoc(ids);
      BagPut(m, h, front);
      var m' := Put(m, h, front);
      assert ids[|ids| - 1] !in m' by {
        PutKeys(m, h, front);
        LastIsNew(ids);
      }
      BagAdd(m', ids[|ids| - 1], items[|ids| - 1]);
      SnocBag(items);
    }
  }

  lemma SnocBag(items: seq<Item>)
    requires items != []
    ensures multiset(items) == multiset(items[..|items| - 1]) + multiset{items[|items| - 1]}
  {
    assert items == items[..|items| - 1] + [items[|items| - 1]];
  }

  lemma LastIsNew(ids: seq<Id>)
    requires Distinct(ids) && ids != []
    ensures ids[|ids| - 1] !in Members(ids[..|ids| - 1])
  {
    var h := ids[..|ids| - 1];
    assert forall i :: 0 <= i < |h| ==> h[i] == ids[i];
  }

  /** The waiting items in pop order. */
  function Items(w: Waiting): (items: seq<Item>)
    ensures |items| == |Entries(w)|
  {
    ItemsIn(Entries(w))
  }

  function ItemsIn(es: seq<Entry>): (items: seq<Item>)
    ensures |items| == |es|
  {
    seq(|es|, i requires 0 <= i < |es| => es[i].item)
  }

  lemma ItemsCons(e: Entry, q: seq<Entry>)
    ensures ItemsIn([e] + q) == [e.item] + ItemsIn(q)
  {}

  lemma {:induction false} InsertedItems(q: seq<Entry>, e: Entry)
    ensures multiset(ItemsIn(StableInsert(q, e))) == multiset(ItemsIn(q)) + multiset{e.item}
  {
    if q != [] && q[0].score <= e.score {
      var t := q[1..];
      assert q == [q[0]] + t;
      InsertedItems(t, e);
      ItemsCons(q[0], t);
      ItemsCons(q[0], StableInsert(t, e));
    } else {
      ItemsCons(e, q);
    }
  }

  /** A push adds exactly its item. */
  lemma PushedItems(w: Work, item: Item, score: int)
    requires WellFormed(w.queue, w.seqNo)
    ensures multiset(Items(Pushed(w.queue, NextSeq(w), item, score))) == multiset(Items(w.queue)) + multiset{item}
  {
    if w.queue.Ranked? {
      PushRefines(w.queue.members, w.seqNo, item, score);
      InsertedItems(Entries(w.queue), Entry(item, score));
    } else {
      assert Items(w.queue) == w.queue.items;
      assert Items(Pushed(w.queue, NextSeq(w), item, score)) == w.queue.items + [item];
    }
  }

  /** So does a requeue. */
  lemma FrontedItems(w: Work, item: Item, score: int)
    requires WellFormed(w.queue, w.seqNo)
    ensures multiset(Items(Fronted(w.queue, NextSeq(w), item, score))) == multiset(Items(w.queue)) + multiset{item}
  {
    if w.queue.Ranked? {
      PushedItems(w, item, score);
    } else {
      assert Items(w.queue) == w.queue.items;
      assert Items(Fronted(w.queue, NextSeq(w), item, score)) == [item] + w.queue.items;
    }
  }

  /** A pop takes its items off the front, and off nothing else. */
  lemma RestItems(w: Waiting, n: nat, last: nat)
    requires n <= Len(w) && WellFormed(w, last)
    ensures FrontItems(w, n) + Items(Rest(w, n)) == Items(w)
  {
    RestDrops(w, n, last);
    var (f, r) := (FrontItems(w, n), Items(Rest(w, n)));
    forall i | 0 <= i < |Items(w)| ensures (f + r)[i] == Items(w)[i] {
      if i >= n {
        assert Entries(Rest(w, n))[i - n] == Entries(w)[i];
      }
    }
  }

  /** All the items the queue holds, waiting or pending. */
  ghost function Total(w: Work): multiset<Item> {
    multiset(Items(w.queue)) + Bag(w.pending.nacked)
  }

  lemma TotalSize(w: Work)
    ensures |Total(w)| == Len(w.queue) + |w.pending.nacked|
  {
    LenIsEntries(w.queue);
    BagSize(w.pending.nacked);
  }

  lemma PushTotal(w: Work, item: Item, score: int)
    requires WellFormed(w.queue, w.seqNo)
    ensures Total(PushWork(w, item, score)) == Total(w) + multiset{item}
  {
    PushedItems(w, item, score);
  }

  lemma TakeTotal(w: Work, ids: seq<Id>, dl: int, ms: int)
    requires WellFormed(w.queue, w.seqNo) && |ids| <= Len(w.queue) && Distinct(ids)
    requires Members(ids) !! w.pending.nacked.Keys
    ensures Total(TakeWork(w, ids, dl, ms)) == Total(w)
  {
    var n := |ids|;
    RestItems(w.queue, n, w.seqNo);
    BagPut(w.pending.nacked, ids, FrontItems(w.queue, n));
    assert multiset(FrontItems(w.queue, n)) + multiset(Items(Rest(w.queue, n))) == multiset(Items(w.queue));
  }

  lemma MoveTotal(envid: Bytes -> Bytes, w: Work, id: Id)
    requires WellFormed(w.queue, w.seqNo)
    ensures Total(Move(envid, w, id)) == Total(w)
  {
    if id in w.pending.nacked {
      BagRemove(w.pending.nacked, id);
      FrontedItems(w, w.pending.nacked[id], ScoreOf(w.pending, id));
    }
  }

  /** Requeues move items: stopping after any of them, none is lost. */
  lemma {:induction false} MoveAllTotal(envid: Bytes -> Bytes, w: Work, ids: seq<Id>)
    requires WellFormed(w.queue, w.seqNo) && MoveAll(envid, w, ids).seqNo < MAX_SEQ
    ensures Total(MoveAll(envid, w, ids)) == Total(w)
  {
    if ids != [] {
      var h := ids[..|ids| - 1];
      MoveAllTotal(envid, w, h);
      MoveAllWellFormed(envid, w, h);
      MoveTotal(envid, MoveAll(envid, w, h), ids[|ids| - 1]);
    }
  }

  // ---- whole runs ----

  /** What was submitted, acknowledged and rejected since the queue was last purged. */
  datatype Ledger = Ledger(submitted: multiset<Item>, acknowledged: multiset<Item>, rejected: multiset<Item>)

  const NO_LEDGER := Ledger(multiset{}, multiset{}, multiset{})

  /** The item a call stores, if any. */
  function Stored(s: Store, e: Event): multiset<Item> {
    if e.call.Enqueue? then multiset{e.call.item}
    else if e.call.EnqueueOnce? && Stores(s, e) then multiset{e.call.item}
    else multiset{}
  }

  /** The item a call finishes, if any. */
  function Finished(s: Store, e: Event): multiset<Item> {
    if e.call.Settle? && e.call.id in s.work.pending.nacked then multiset{s.work.pending.nacked[e.call.id]}
    else multiset{}
  }

  /** The same when the call finishes it so. */
  function FinishedAs(s: Store, e: Event, outcome: Outcome): multiset<Item> {
    if e.call.Settle? && e.call.outcome == outcome then Finished(s, e) else multiset{}
  }

  function Book(s: Store, l: Ledger, e: Event): Ledger {
    if e.call.PurgeAll? then NO_LEDGER
    else
      Ledger(l.submitted + Stored(s, e), l.acknowledged + FinishedAs(s, e, Completed),
             l.rejected + FinishedAs(s, e, Failed))
  }

  function BookAll(envid: Bytes -> Bytes, s: Store, l: Ledger, es: seq<Event>): Ledger
    decreases |es|
  {
    if es == [] then l else BookAll(envid, Apply(envid, s, es[0]), Book(s, l, es[0]), es[1..])
  }

  ghost predicate Balanced(s: Store, l: Ledger) {
    && l.submitted == Total(s.work) + l.acknowledged + l.rejected
    && s.stats == Stats(|l.submitted|, |l.acknowledged|, |l.rejected|)
  }

  lemma FinishTotal(envid: Bytes -> Bytes, w: Work, id: Id)
    requires id in w.pending.nacked
    ensures Total(w) == Total(FinishedWork(envid, w, id)) + multiset{w.pending.nacked[id]}
  {
    BagRemove(w.pending.nacked, id);
  }

  lemma PopTotal(s: Store, p: Pop, now: int)
    requires WellFormed(s.work.queue, s.work.seqNo)
    requires IsOwner(p.owner) && p.reservation < UINT64_LIMIT && p.want <= MAX_POP
    ensures Total(WorkAfterPop(s, p, now)) == Total(s.work)
  {
    if !Resent(s, p) {
      var ids := HandedOut(s, p);
      AckIdsOfCall(p.owner, p.reservation, p.want);
      assert forall i :: 0 <= i < |ids| ==> ids[i] == IdsOf(p)[i];
      TakeTotal(s.work, ids, Deadline(now, p.visibility), Millis(now));
    }
  }

  lemma SweepTotal(envid: Bytes -> Bytes, w: Work, dead: set<Owner>, now: int)
    requires WellFormed(w.queue, w.seqNo) && SweptWork(envid, w, dead, now).seqNo < MAX_SEQ
    ensures Total(SweptWork(envid, w, dead, now)) == Total(w)
  {
    var due := UpTo(w.pending.timeouts, now);
    var w' := MoveAll(envid, w, due);
    var ids := SortedStrings(OwnedIds(w'.pending.nacked, dead));
    MoveAllNacked(envid, w', ids);
    MoveAllTotal(envid, w, due);
    MoveAllWellFormed(envid, w, due);
    MoveAllTotal(envid, w', ids);
  }

  /** A call other than a purge changes what is held by what it stores and finishes. */
  lemma TotalStep(envid: Bytes -> Bytes, s: Store, e: Event)
    requires WellFormed(s.work.queue, s.work.seqNo) && Proper(s, e)
    requires Apply(envid, s, e).work.seqNo < MAX_SEQ && !e.call.PurgeAll?
    ensures Total(Apply(envid, s, e).work) + Finished(s, e) == Total(s.work) + Stored(s, e)
  {
    WorkOf(envid, s, e);
    match e.call
    case Enqueue(item, score, _, _) => PushTotal(s.work, item, score);
    case EnqueueOnce(_, _, item, score, _, _) => PushTotal(s.work, item, score);
    case PopBy(_, p) => PopTotal(s, p, e.now);
    case Settle(id, _, _, _, _) =>
      if id in s.work.pending.nacked {
        FinishTotal(envid, s.work, id);
      }
    case RequeueExpired(_, _) => MoveAllTotal(envid, s.work, RequeuedIds(s, e));
    case SweepBy(_, _) => SweepTotal(envid, s.work, DeadIn(s, e), e.now);
    case CloseBy(_) => MoveAllTotal(envid, s.work, RequeuedIds(s, e));
    case _ =>
  }

  lemma SettleStats(envid: Bytes -> Bytes, s: Store, e: Event)
    requires e.call.Settle?
    ensures Apply(envid, s, e).stats
            == Stats(s.stats.submitted, s.stats.completed + |FinishedAs(s, e, Completed)|,
                     s.stats.failed + |FinishedAs(s, e, Failed)|)
  {
    match e.call.outcome
    case Completed =>
    case Failed =>
  }

  lemma OtherStats(envid: Bytes -> Bytes, s: Store, e: Event)
    requires !e.call.Settle? && !e.call.PurgeAll?
    ensures Apply(envid, s, e).stats == s.stats.(submitted := s.stats.submitted + |Stored(s, e)|)
  {
    match e.call
    case PopBy(_, _) =>
    case _ =>
  }

  /** Each counter counts what a call stores, acknowledges or rejects. */
  lemma StatsStep(envid: Bytes -> Bytes, s: Store, e: Event)
    requires !e.call.PurgeAll?
    ensures Apply(envid, s, e).stats
            == Stats(s.stats.submitted + |Stored(s, e)|, s.stats.completed + |FinishedAs(s, e, Completed)|,
                     s.stats.failed + |FinishedAs(s, e, Failed)|)
  {
    if e.call.Settle? {
      SettleStats(envid, s, e);
    } else {
      OtherStats(envid, s, e);
    }
  }

  /** Books of four kinds, and what a call adds to each. */
  lemma AddsUp(submitted: multiset<Item>, total: multiset<Item>, acked: multiset<Item>, rejected: multiset<Item>,
               lost: multiset<Item>, stored: multiset<Item>, total': multiset<Item>, acked': multiset<Item>,
               rejected': multiset<Item>, lost': multiset<Item>)
    requires submitted == total + acked + rejected + lost
    requires total' + (acked' + rejected') + lost' == total + stored
    ensures submitted + stored == total' + (acked + acked') + (rejected + rejected') + (lost + lost')
  {
    assert submitted + stored == (total + stored) + (acked + rejected + lost);
  }

  lemma KeepsBalance(s: Store, t: Store, l: Ledger, stored: multiset<Item>, acked: multiset<Item>,
                     rejected: multiset<Item>)
    requires Balanced(s, l)
    requires Total(t.work) + (acked + rejected) == Total(s.work) + stored
    requires t.stats == Stats(s.stats.submitted + |stored|, s.stats.completed + |acked|, s.stats.failed + |rejected|)
    ensures Balanced(t, Ledger(l.submitted + stored, l.acknowledged + acked, l.rejected + rejected))
  {
    AddsUp(l.submitted, Total(s.work), l.acknowledged, l.rejected, multiset{}, stored, Total(t.work), acked, rejected,
           multiset{});
  }

  lemma KeepsBook(s: Store, l: Ledger, e: Event, t: Store)
    requires Balanced(s, l) && !e.call.PurgeAll? && Total(t.work) + Finished(s, e) == Total(s.work) + Stored(s, e)
    requires t.stats == Stats(s.stats.submitted + |Stored(s, e)|, s.stats.completed + |FinishedAs(s, e, Completed)|,
                              s.stats.failed + |FinishedAs(s, e, Failed)|)
    ensures Balanced(t, Book(s, l, e))
  {
    EachOutcome(s, e);
    KeepsBalance(s, t, l, Stored(s, e), FinishedAs(s, e, Completed), FinishedAs(s, e, Failed));
  }

  lemma EachOutcome(s: Store, e: Event)
    ensures Finished(s, e) == FinishedAs(s, e, Completed) + FinishedAs(s, e, Failed)
  {}

  lemma PurgeBalances(s: Store)
    ensures Balanced(Purge(s), NO_LEDGER)
  {
    EmptyTotal(s.work.queue.Ranked?);
  }

  /** Each call keeps the books balanced, whatever it is a re-send of. */
  lemma BalanceStep(envid: Bytes -> Bytes, s: Store, l: Ledger, e: Event)
    requires Sound(s.work) && Balanced(s, l) && Proper(s, e) && Apply(envid, s, e).work.seqNo < MAX_SEQ
    ensures Balanced(Apply(envid, s, e), Book(s, l, e))
  {
    if e.call.PurgeAll? {
      PurgeBalances(s);
    } else {
      TotalStep(envid, s, e);
      StatsStep(envid, s, e);
      KeepsBook(s, l, e, Apply(envid, s, e));
    }
  }

  lemma EmptyTotal(ranked: bool)
    ensures Total(EmptyWork(ranked)) == multiset{}
  {
    LenIsEntries(EmptyWork(ranked).queue);
  }

  /** Pops, whichever script, keep stats. */
  lemma {:induction false} BalanceRun(envid: Bytes -> Bytes, s: Store, l: Ledger, es: seq<Event>)
    requires Sound(s.work) && Balanced(s, l) && ProperRun(envid, s, es)
    ensures Balanced(Run(envid, s, es), BookAll(envid, s, l, es))
    decreases |es|
  {
    if es != [] {
      SoundStep(envid, s, es[0]);
      BalanceStep(envid, s, l, es[0]);
      BalanceRun(envid, Apply(envid, s, es[0]), Book(s, l, es[0]), es[1..]);
    }
  }

  /** In every run from an empty queue, submitted = waiting + pending + acknowledged
      + rejected, as items, and each counter counts its own. */
  lemma Conserved(envid: Bytes -> Bytes, ranked: bool, es: seq<Event>)
    requires ProperRun(envid, Empty(ranked), es)
    ensures var t := Run(envid, Empty(ranked), es);
      var l := BookAll(envid, Empty(ranked), NO_LEDGER, es);
      && l.submitted
         == multiset(Items(t.work.queue)) + Bag(t.work.pending.nacked) + l.acknowledged + l.rejected
      && t.stats.submitted == |l.submitted| && t.stats.completed == |l.acknowledged| && t.stats.failed == |l.rejected|
      && t.stats.submitted == Len(t.work.queue) + |t.work.pending.nacked| + t.stats.completed + t.stats.failed
  {
    EmptyIsSound(ranked);
    EmptyTotal(ranked);
    BalanceRun(envid, Empty(ranked), NO_LEDGER, es);
    TotalSize(Run(envid, Empty(ranked), es).work);
  }
}

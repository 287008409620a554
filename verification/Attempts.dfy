/** Attempts count hand-outs through every requeue path. */
module Attempts {
  import opened ByteStrings
  import opened SortedSets
  import opened AckIds
  import opened WaitingQueue
  import opened Store
  import opened Runs
  import opened Effects
  import opened PendingKeys
  import opened Conservation

  /** The pending IDs whose item has envelope id e. */
  function PendingOf(envid: Bytes -> Bytes, nacked: map<Id, Item>, e: Bytes): set<Id> {
    set id | id in nacked && envid(nacked[id]) == e
  }

  /** Each item handed out counts for its envelope id. */
  function Handed(envid: Bytes -> Bytes, handouts: map<Bytes, nat>, items: seq<Item>): map<Bytes, nat> {
    if items == [] then handouts
    else Counted(envid, Handed(envid, handouts, items[..|items| - 1]), items[|items| - 1])
  }

  /** Fresh hand-outs by envelope id since the id was last finished or purged: a
      re-sent pop's hand-back is not one. */
  function HandoutsAfter(envid: Bytes -> Bytes, s: Store, handouts: map<Bytes, nat>, e: Event): map<Bytes, nat> {
    match e.call
    case PopBy(_, p) =>
      if Resent(s, p) then handouts else Handed(envid, handouts, FrontItems(s.work.queue, |HandedOut(s, p)|))
    case Settle(id, _, _, _, _) =>
      if id in s.work.pending.nacked then handouts - {envid(s.work.pending.nacked[id])} else handouts
    case PurgeAll => map[]
    case _ => handouts
  }

  /** An envelope id's hand-outs are its requeues and what is pending of it. */
  ghost predicate Accounted(envid: Bytes -> Bytes, w: Work, handouts: map<Bytes, nat>) {
    forall e :: e != [] ==>
      CountOf(handouts, e) == CountOf(w.attempts, e) + |PendingOf(envid, w.pending.nacked, e)|
  }

  /** No two items held share an envelope id. */
  ghost predicate UniqueIds(envid: Bytes -> Bytes, held: multiset<Item>) {
    && (forall x, y :: x in held && y in held && envid(x) == envid(y) && envid(x) != [] ==> x == y)
    && (forall x :: x in held && envid(x) != [] ==> held[x] == 1)
  }

  lemma PendingAdd(envid: Bytes -> Bytes, nacked: map<Id, Item>, id: Id, item: Item, e: Bytes)
    requires id !in nacked
    ensures |PendingOf(envid, nacked[id := item], e)|
      == |PendingOf(envid, nacked, e)| + (if envid(item) == e then 1 else 0)
  {
    assert PendingOf(envid, nacked[id := item], e)
      == PendingOf(envid, nacked, e) + (if envid(item) == e then {id} else {});
  }

  lemma PendingRemove(envid: Bytes -> Bytes, nacked: map<Id, Item>, id: Id, e: Bytes)
    requires id in nacked
    ensures |PendingOf(envid, nacked, e)|
      == |PendingOf(envid, nacked - {id}, e)| + (if envid(nacked[id]) == e then 1 else 0)
  {
    assert PendingOf(envid, nacked, e)
      == PendingOf(envid, nacked - {id}, e) + (if envid(nacked[id]) == e then {id} else {});
  }

  lemma CountedOne(envid: Bytes -> Bytes, h: map<Bytes, nat>, item: Item, e: Bytes)
    requires e != []
    ensures CountOf(Counted(envid, h, item), e) == CountOf(h, e) + (if envid(item) == e then 1 else 0)
  {}

  lemma {:induction false} HandedPending(envid: Bytes -> Bytes, nacked: map<Id, Item>, h: map<Bytes, nat>,
      ids: seq<Id>, items: seq<Item>, e: Bytes)
    requires |ids| == |items| && Distinct(ids) && Members(ids) !! nacked.Keys && e != []
    ensures CountOf(Handed(envid, h, items), e) - CountOf(h, e)
            == |PendingOf(envid, Put(nacked, ids, items), e)| - |PendingOf(envid, nacked, e)|
  {
    if ids != [] {
      var k := |ids| - 1;
      var before := Put(nacked, ids[..k], items[..k]);
      assert Members(ids[..k]) !! nacked.Keys by { MembersSnoc(ids); }
      HandedPending(envid, nacked, h, ids[..k], items[..k], e);
      assert ids[k] !in before by {
        MembersSnoc(ids);
        PutKeys(nacked, ids[..k], items[..k]);
        LastIsNew(ids);
      }
      PendingAdd(envid, before, ids[k], items[k], e);
      CountedOne(envid, Handed(envid, h, items[..k]), items[k], e);
    }
  }

  lemma TakeAccounted(envid: Bytes -> Bytes, w: Work, h: map<Bytes, nat>, ids: seq<Id>, dl: int, ms: int)
    requires Accounted(envid, w, h) && |ids| <= Len(w.queue) && Distinct(ids) && Members(ids) !! w.pending.nacked.Keys
    ensures Accounted(envid, TakeWork(w, ids, dl, ms), Handed(envid, h, FrontItems(w.queue, |ids|)))
  {
    forall e | e != []
      ensures var w' := TakeWork(w, ids, dl, ms);
        CountOf(Handed(envid, h, FrontItems(w.queue, |ids|)), e)
          == CountOf(w'.attempts, e) + |PendingOf(envid, w'.pending.nacked, e)|
    {
      HandedPending(envid, w.pending.nacked, h, ids, FrontItems(w.queue, |ids|), e);
    }
  }

  lemma MoveAccounted(envid: Bytes -> Bytes, w: Work, h: map<Bytes, nat>, id: Id)
    requires Accounted(envid, w, h)
    ensures Accounted(envid, Move(envid, w, id), h)
  {
    if id in w.pending.nacked {
      forall e | e != []
        ensures var w' := Move(envid, w, id);
          CountOf(h, e) == CountOf(w'.attempts, e) + |PendingOf(envid, w'.pending.nacked, e)|
      {
        PendingRemove(envid, w.pending.nacked, id, e);
      }
    }
  }

  /** A requeue turns a pending hand-out into an attempt. */
  lemma {:induction false} MoveAllAccounted(envid: Bytes -> Bytes, w: Work, h: map<Bytes, nat>, ids: seq<Id>)
    requires Accounted(envid, w, h)
    ensures Accounted(envid, MoveAll(envid, w, ids), h)
  {
    if ids != [] {
      MoveAllAccounted(envid, w, h, ids[..|ids| - 1]);
      MoveAccounted(envid, MoveAll(envid, w, ids[..|ids| - 1]), h, ids[|ids| - 1]);
    }
  }

  /** An item's envelope id is pending once. */
  lemma PendingOnce(envid: Bytes -> Bytes, w: Work, id: Id)
    requires UniqueIds(envid, Total(w)) && id in w.pending.nacked && envid(w.pending.nacked[id]) != []
    ensures PendingOf(envid, w.pending.nacked, envid(w.pending.nacked[id])) == {id}
  {
    var (n, item) := (w.pending.nacked, w.pending.nacked[id]);
    BagRemove(n, id);
    forall j | j in PendingOf(envid, n, envid(item)) ensures j == id {
      BagRemove(n, j);
      assert n[j] in Total(w) && item in Total(w);
      if j != id {
        TwoPending(n, id, j);
      }
    }
  }

  lemma TwoPending(n: map<Id, Item>, i: Id, j: Id)
    requires i in n && j in n && i != j
    ensures Bag(n) == multiset{n[i]} + multiset{n[j]} + Bag(n - {i} - {j})
  {
    BagRemove(n, i);
    BagRemove(n - {i}, j);
  }

  lemma FinishAccounted(envid: Bytes -> Bytes, w: Work, h: map<Bytes, nat>, id: Id)
    requires Accounted(envid, w, h) && UniqueIds(envid, Total(w)) && id in w.pending.nacked
    ensures Accounted(envid, FinishedWork(envid, w, id), h - {envid(w.pending.nacked[id])})
  {
    var own := envid(w.pending.nacked[id]);
    if own != [] {
      PendingOnce(envid, w, id);
    }
    forall e | e != []
      ensures var w' := FinishedWork(envid, w, id);
        CountOf(h - {own}, e) == CountOf(w'.attempts, e) + |PendingOf(envid, w'.pending.nacked, e)|
    {
      PendingRemove(envid, w.pending.nacked, id, e);
    }
  }

  /** A push brings no envelope id that is already held. */
  ghost predicate FreshId(envid: Bytes -> Bytes, s: Store, e: Event) {
    forall x :: x in Stored(s, e) && envid(x) != [] ==> forall y :: y in Total(s.work) ==> envid(y) != envid(x)
  }

  lemma UniqueStep(envid: Bytes -> Bytes, s: Store, e: Event)
    requires Sound(s.work) && Proper(s, e) && Apply(envid, s, e).work.seqNo < MAX_SEQ
    requires UniqueIds(envid, Total(s.work)) && FreshId(envid, s, e)
    ensures UniqueIds(envid, Total(Apply(envid, s, e).work))
  {
    var t := Apply(envid, s, e).work;
    if e.call.PurgeAll? {
      EmptyTotal(s.work.queue.Ranked?);
    } else {
      TotalStep(envid, s, e);
      assert Total(t) <= Total(s.work) + Stored(s, e);
      UniqueSum(envid, Total(s.work), Stored(s, e), Total(t));
    }
  }

  lemma UniqueSum(envid: Bytes -> Bytes, held: multiset<Item>, stored: multiset<Item>, part: multiset<Item>)
    requires UniqueIds(envid, held) && |stored| <= 1 && part <= held + stored
    requires forall x :: x in stored && envid(x) != [] ==> forall y :: y in held ==> envid(y) != envid(x)
    ensures UniqueIds(envid, part)
  {
    forall x | x in part && envid(x) != [] ensures part[x] == 1 && (held + stored)[x] == 1 {
      assert part[x] <= held[x] + stored[x];
      if x in stored {
        SingleItem(stored, x);
      }
    }
    forall x, y | x in part && y in part && envid(x) == envid(y) && envid(x) != [] ensures x == y {
      assert part[x] <= held[x] + stored[x] && part[y] <= held[y] + stored[y];
      if x in stored && y in stored {
        SingleItem(stored, x);
      }
    }
  }

  lemma SingleItem(m: multiset<Item>, x: Item)
    requires |m| <= 1 && x in m
    ensures m == multiset{x}
  {
    assert |m - multiset{x}| == 0;
    assert m == multiset{x} + (m - multiset{x});
  }

  lemma PopAccounted(envid: Bytes -> Bytes, s: Store, e: Event, h: map<Bytes, nat>)
    requires Proper(s, e) && e.call.PopBy? && Accounted(envid, s.work, h) && UniqueIds(envid, Total(s.work))
    ensures Accounted(envid, WorkStep(envid, s, e), HandoutsAfter(envid, s, h, e))
  {
    var p := e.call.pop;
    if !Resent(s, p) {
      DistinctPop(s, p);
      TakeAccounted(envid, s.work, h, HandedOut(s, p), Deadline(e.now, p.visibility), Millis(e.now));
    }
  }

  lemma SettleAccounted(envid: Bytes -> Bytes, s: Store, e: Event, h: map<Bytes, nat>)
    requires e.call.Settle? && Accounted(envid, s.work, h) && UniqueIds(envid, Total(s.work))
    ensures Accounted(envid, WorkStep(envid, s, e), HandoutsAfter(envid, s, h, e))
  {
    if e.call.id in s.work.pending.nacked {
      FinishAccounted(envid, s.work, h, e.call.id);
    }
  }

  lemma RequeueAccounted(envid: Bytes -> Bytes, s: Store, e: Event, h: map<Bytes, nat>)
    requires e.call.RequeueExpired? || e.call.CloseBy?
    requires Accounted(envid, s.work, h) && UniqueIds(envid, Total(s.work))
    ensures Accounted(envid, WorkStep(envid, s, e), HandoutsAfter(envid, s, h, e))
  {
    MoveAllAccounted(envid, s.work, h, RequeuedIds(s, e));
  }

  lemma SweepAccounted(envid: Bytes -> Bytes, s: Store, e: Event, h: map<Bytes, nat>)
    requires e.call.SweepBy? && Accounted(envid, s.work, h) && UniqueIds(envid, Total(s.work))
    ensures Accounted(envid, WorkStep(envid, s, e), HandoutsAfter(envid, s, h, e))
  {
    var due := UpTo(s.work.pending.timeouts, e.now);
    var w' := MoveAll(envid, s.work, due);
    MoveAllAccounted(envid, s.work, h, due);
    MoveAllAccounted(envid, w', h, SortedStrings(OwnedIds(w'.pending.nacked, DeadIn(s, e))));
  }

  lemma AccountedStep(envid: Bytes -> Bytes, s: Store, e: Event, h: map<Bytes, nat>)
    requires Proper(s, e) && Accounted(envid, s.work, h) && UniqueIds(envid, Total(s.work))
    ensures Accounted(envid, Apply(envid, s, e).work, HandoutsAfter(envid, s, h, e))
  {
    WorkOf(envid, s, e);
    match e.call
    case PopBy(_, _) => PopAccounted(envid, s, e, h);
    case Settle(_, _, _, _, _) => SettleAccounted(envid, s, e, h);
    case RequeueExpired(_, _) => RequeueAccounted(envid, s, e, h);
    case CloseBy(_) => RequeueAccounted(envid, s, e, h);
    case SweepBy(_, _) => SweepAccounted(envid, s, e, h);
    case _ =>
  }

  lemma DistinctPop(s: Store, p: Pop)
    requires !Resent(s, p) && IsOwner(p.owner) && p.reservation < UINT64_LIMIT && p.want <= MAX_POP
    ensures Distinct(HandedOut(s, p)) && Members(HandedOut(s, p)) !! s.work.pending.nacked.Keys
  {
    AckIdsOfCall(p.owner, p.reservation, p.want);
    assert forall i :: 0 <= i < |HandedOut(s, p)| ==> HandedOut(s, p)[i] == IdsOf(p)[i];
  }

  /** Every push of the run brings an envelope id that is not held. */
  ghost predicate FreshIds(envid: Bytes -> Bytes, s: Store, es: seq<Event>)
    decreases |es|
  {
    es == [] || (FreshId(envid, s, es[0]) && FreshIds(envid, Apply(envid, s, es[0]), es[1..]))
  }

  function HandoutsOver(envid: Bytes -> Bytes, s: Store, h: map<Bytes, nat>, es: seq<Event>): map<Bytes, nat>
    decreases |es|
  {
    if es == [] then h else HandoutsOver(envid, Apply(envid, s, es[0]), HandoutsAfter(envid, s, h, es[0]), es[1..])
  }

  lemma {:induction false} AccountedRun(envid: Bytes -> Bytes, s: Store, h: map<Bytes, nat>, es: seq<Event>)
    requires Sound(s.work) && Accounted(envid, s.work, h) && UniqueIds(envid, Total(s.work))
    requires ProperRun(envid, s, es) && FreshIds(envid, s, es)
    ensures var t := Run(envid, s, es);
      Accounted(envid, t.work, HandoutsOver(envid, s, h, es)) && UniqueIds(envid, Total(t.work))
    decreases |es|
  {
    if es != [] {
      SoundStep(envid, s, es[0]);
      AccountedStep(envid, s, es[0], h);
      UniqueStep(envid, s, es[0]);
      AccountedRun(envid, Apply(envid, s, es[0]), HandoutsAfter(envid, s, h, es[0]), es[1..]);
    }
  }

  /** For items with unique envelope ids, the attempts a finish records equal the
      item's number of fresh hand-outs, through every requeue path and re-send. */
  lemma AttemptsAreHandouts(envid: Bytes -> Bytes, ranked: bool, es: seq<Event>, id: Id, outcome: Outcome,
      reason: Bytes, now: int)
    requires ProperRun(envid, Empty(ranked), es) && FreshIds(envid, Empty(ranked), es)
    requires var w := Run(envid, Empty(ranked), es).work;
      id in w.pending.nacked && envid(w.pending.nacked[id]) != []
    ensures var w := Run(envid, Empty(ranked), es).work;
      RecordOf(envid, w, id, outcome, reason, now).attempts
      == CountOf(HandoutsOver(envid, Empty(ranked), map[], es), envid(w.pending.nacked[id]))
  {
    EmptyIsSound(ranked);
    EmptyTotal(ranked);
    AccountedRun(envid, Empty(ranked), map[], es);
    PendingOnce(envid, Run(envid, Empty(ranked), es).work, id);
  }
}

/** What a failing push costs: moveFn pushes before it drops, so a sweep or a Close
    that fails loses nothing; requeueLoop drops before it pushes, and loses one. */
module Aborts {
  import opened ByteStrings
  import opened SortedSets
  import opened AckIds
  import opened WaitingQueue
  import opened S = Store
  import opened PendingKeys
  import opened Conservation
  import opened PoppedItems
  import opened Refusals

  /** The place of the first ID whose push fails: past the end when there is none. */
  function FirstRefused(ids: seq<Id>, refused: set<Id>): (k: nat)
    ensures k <= |ids| && (forall i :: 0 <= i < k ==> ids[i] !in refused) && (k < |ids| ==> ids[k] in refused)
  {
    if ids == [] || ids[0] in refused then 0 else 1 + FirstRefused(ids[1..], refused)
  }

  lemma {:induction false} RunsUpTo(envid: Bytes -> Bytes, w: Work, ids: seq<Id>, refused: set<Id>, k: nat)
    requires k <= FirstRefused(ids, refused)
    ensures MoveUntil(envid, w, ids[..k], refused) == (MoveAll(envid, w, ids[..k]), true)
    ensures RequeueUntil(envid, w, ids[..k], refused) == (MoveAll(envid, w, ids[..k]), true)
  {
    if k > 0 {
      RunsUpTo(envid, w, ids, refused, k - 1);
      TurnAt(envid, w, ids, k - 1, refused);
      assert ids[..k][..k - 1] == ids[..k - 1];
    }
  }

  /** The IDs not moved yet are still pending. */
  lemma RestPending(envid: Bytes -> Bytes, w: Work, ids: seq<Id>, k: nat)
    requires k < |ids| && Distinct(ids) && Members(ids) <= w.pending.nacked.Keys
    ensures ids[k] in MoveAll(envid, w, ids[..k]).pending.nacked
    ensures MoveAll(envid, w, ids[..k]).pending.nacked[ids[k]] == w.pending.nacked[ids[k]]
  {
    MoveAllNacked(envid, w, ids[..k]);
    assert ids[k] in ids && ids[k] !in ids[..k];
  }

  /** Both loops make the moves before the first push that fails, and stop in it. */
  lemma StopsAtFirst(envid: Bytes -> Bytes, w: Work, ids: seq<Id>, refused: set<Id>)
    requires Distinct(ids) && Members(ids) <= w.pending.nacked.Keys
    ensures var k := FirstRefused(ids, refused); var done := MoveAll(envid, w, ids[..k]);
      && MoveUntil(envid, w, ids, refused) == (if k == |ids| then (done, true) else (PushRefused(done), false))
      && RequeueUntil(envid, w, ids, refused)
         == (if k == |ids| then (done, true) else (RequeueRefused(done, ids[k]), false))
  {
    var k := FirstRefused(ids, refused);
    RunsUpTo(envid, w, ids, refused, k);
    if k < |ids| {
      RestPending(envid, w, ids, k);
      TurnAt(envid, w, ids, k, refused);
      MoveStopped(envid, w, ids, k + 1, refused);
      RequeueStopped(envid, w, ids, k + 1, refused);
    } else {
      assert ids[..k] == ids;
    }
  }

  // ---- moveFn ----

  lemma StampedLonger(z: Zset, last: nat)
    requires StampedUpTo(z, last) && last + 1 < MAX_SEQ
    ensures StampedUpTo(z, last + 1)
  {
    StampOrder(last + 1, last + 2);
    forall m | m in z ensures Lex(m[..PREFIX], Stamp(last + 2)) {
      LexTransitive(m[..PREFIX], Stamp(last + 1), Stamp(last + 2));
    }
  }

  lemma RefusedOrderly(w: Work)
    requires Orderly(w) && PushRefused(w).seqNo < MAX_SEQ
    ensures Orderly(PushRefused(w)) && Total(PushRefused(w)) == Total(w)
  {
    if w.queue.Ranked? {
      StampedLonger(w.queue.members, w.seqNo);
    }
  }

  lemma MoveOrderly(envid: Bytes -> Bytes, w: Work, id: Id)
    requires Orderly(w) && Move(envid, w, id).seqNo < MAX_SEQ
    ensures Orderly(Move(envid, w, id)) && Total(Move(envid, w, id)) == Total(w)
  {
    var one: seq<Id> := [id];
    assert one[..0] == [] && MoveAll(envid, w, one[..0]) == w;
    MoveAllWellFormed(envid, w, one);
    MoveTotal(envid, w, id);
  }

  /** Wherever a loop of move(id) stops, every item is waiting or pending, */
  lemma {:induction false} MoveUntilOrderly(envid: Bytes -> Bytes, w: Work, ids: seq<Id>, refused: set<Id>)
    requires Orderly(w) && MoveUntil(envid, w, ids, refused).0.seqNo < MAX_SEQ
    ensures Orderly(MoveUntil(envid, w, ids, refused).0) && Total(MoveUntil(envid, w, ids, refused).0) == Total(w)
  {
    if ids != [] {
      var (h, id) := (ids[..|ids| - 1], ids[|ids| - 1]);
      var a := MoveUntil(envid, w, h, refused);
      MoveUntilOrderly(envid, w, h, refused);
      if a.1 && id in refused && id in a.0.pending.nacked {
        RefusedOrderly(a.0);
      } else if a.1 {
        MoveOrderly(envid, a.0, id);
      }
    }
  }

  lemma {:induction false} MoveUntilAgrees(envid: Bytes -> Bytes, w: Work, ids: seq<Id>, refused: set<Id>)
    requires Agree(w.pending) && (w.queue.Listed? ==> w.pending.prio == map[])
    ensures var w' := MoveUntil(envid, w, ids, refused).0;
      Agree(w'.pending) && (w'.queue.Listed? ==> w'.pending.prio == map[])
  {
    if ids != [] {
      MoveUntilAgrees(envid, w, ids[..|ids| - 1], refused);
    }
  }

  /** and the keys agree as before. */
  lemma MoveUntilKeeps(envid: Bytes -> Bytes, w: Work, ids: seq<Id>, refused: set<Id>)
    requires Sound(w) && MoveUntil(envid, w, ids, refused).0.seqNo < MAX_SEQ
    ensures Sound(MoveUntil(envid, w, ids, refused).0) && Total(MoveUntil(envid, w, ids, refused).0) == Total(w)
  {
    MoveUntilOrderly(envid, w, ids, refused);
    MoveUntilAgrees(envid, w, ids, refused);
  }

  /** A failing push in a sweep or a Close loses no item: those before it are back
      in the queue, and it and the others are pending with all that was noted of
      them. The script runs to its end exactly when no push fails. */
  lemma AbortLosesNone(envid: Bytes -> Bytes, w: Work, ids: seq<Id>, refused: set<Id>)
    requires Sound(w) && Distinct(ids) && Members(ids) <= w.pending.nacked.Keys
    requires MoveUntil(envid, w, ids, refused).0.seqNo < MAX_SEQ
    ensures var (t, ok) := MoveUntil(envid, w, ids, refused); var k := FirstRefused(ids, refused);
      && (ok <==> Members(ids) !! refused)
      && Total(t) == Total(w) && Sound(t)
      && t.queue == MoveAll(envid, w, ids[..k]).queue
      && t.pending.nacked == w.pending.nacked - Members(ids[..k])
      && t.pending.timeouts == w.pending.timeouts - Members(ids[..k])
      && (forall i :: k <= i < |ids| ==> SameEntry(w.pending, t.pending, ids[i]))
  {
    var (t, k) := (MoveUntil(envid, w, ids, refused).0, FirstRefused(ids, refused));
    StopsAtFirst(envid, w, ids, refused);
    MoveUntilKeeps(envid, w, ids, refused);
    MoveAllNacked(envid, w, ids[..k]);
    NoneIsRefused(ids, refused);
    forall i | k <= i < |ids| ensures SameEntry(w.pending, t.pending, ids[i]) {
      assert ids[i] in ids && ids[i] !in ids[..k];
      MovesKeepEntry(envid, w, ids[..k], ids[i]);
    }
  }

  lemma NoneIsRefused(ids: seq<Id>, refused: set<Id>)
    ensures FirstRefused(ids, refused) == |ids| <==> Members(ids) !! refused
  {
    var k := FirstRefused(ids, refused);
    if k < |ids| {
      assert ids[k] in Members(ids) && ids[k] in refused;
    }
  }

  /** A sweep that fails loses none, and leaves the heartbeats of those it took
      for dead, so the next sweep takes their other items. */
  lemma SweepAbortLosesNone(envid: Bytes -> Bytes, s: S.Store, me: Owner, heartbeat: int, subs: set<Owner>, now: int,
                            refused: set<Id>)
    requires Sound(s.work) && SweepUntil(envid, s, me, heartbeat, subs, now, refused).0.work.seqNo < MAX_SEQ
    ensures var (t, ok) := SweepUntil(envid, s, me, heartbeat, subs, now, refused);
      && Total(t.work) == Total(s.work) && Sound(t.work)
      && (!ok ==> t.owners.heartbeats == Prepared(s.owners, me, heartbeat, now).heartbeats)
  {
    var due := UpTo(s.work.pending.timeouts, now);
    var (w, ok) := MoveUntil(envid, s.work, due, refused);
    var o := Prepared(s.owners, me, heartbeat, now);
    if ok && s.owners.clock.Some? {
      var ids := SortedStrings(OwnedIds(w.pending.nacked, Dead(o, Ticks(s.owners, now), subs, now)));
      SeqGrows(envid, w, ids, refused);
      MoveUntilKeeps(envid, s.work, due, refused);
      MoveUntilKeeps(envid, w, ids, refused);
    } else {
      MoveUntilKeeps(envid, s.work, due, refused);
    }
  }

  lemma {:induction false} SeqGrows(envid: Bytes -> Bytes, w: Work, ids: seq<Id>, refused: set<Id>)
    ensures w.seqNo <= MoveUntil(envid, w, ids, refused).0.seqNo
  {
    if ids != [] {
      SeqGrows(envid, w, ids[..|ids| - 1], refused);
    }
  }

  /** A Close that fails loses none, and leaves the owner's heartbeat to the sweeps
      of others. */
  lemma ReleaseAbortLosesNone(envid: Bytes -> Bytes, s: S.Store, owner: Owner, refused: set<Id>)
    requires Sound(s.work) && ReleaseUntil(envid, s, owner, refused).0.work.seqNo < MAX_SEQ
    ensures var (t, ok) := ReleaseUntil(envid, s, owner, refused);
      Total(t.work) == Total(s.work) && Sound(t.work) && (!ok ==> t.owners == s.owners)
  {
    MoveUntilKeeps(envid, s.work, SortedStrings(IdsWithPrefix(s.work.pending.nacked, owner)), refused);
  }

  // ---- requeueLoop ----

  lemma RequeueRefusedLoses(w: Work, id: Id)
    requires id in w.pending.nacked
    ensures Total(w) == Total(RequeueRefused(w, id)) + multiset{w.pending.nacked[id]}
  {
    BagRemove(w.pending.nacked, id);
  }

  /** A failing push in RequeueNackedItems loses exactly its item: it is in neither
      the queue nor the pending keys, its score is gone and its start time stays
      behind. The items after it stay pending. Nothing is lost exactly when no
      push fails. */
  lemma RequeueAbortLosesOne(envid: Bytes -> Bytes, w: Work, ids: seq<Id>, refused: set<Id>)
    requires Sound(w) && Distinct(ids) && Members(ids) <= w.pending.nacked.Keys
    requires RequeueUntil(envid, w, ids, refused).0.seqNo < MAX_SEQ
    ensures var (t, ok) := RequeueUntil(envid, w, ids, refused); var k := FirstRefused(ids, refused);
      && (ok <==> Members(ids) !! refused) && (Total(t) == Total(w) <==> ok)
      && (!ok ==>
            && Total(w) == Total(t) + multiset{w.pending.nacked[ids[k]]}
            && t.queue == MoveAll(envid, w, ids[..k]).queue
            && t.pending.nacked == w.pending.nacked - Members(ids[..k + 1])
            && ids[k] !in t.pending.timeouts && ids[k] !in t.pending.prio && ids[k] in t.pending.started)
  {
    var k := FirstRefused(ids, refused);
    StopsAtFirst(envid, w, ids, refused);
    NoneIsRefused(ids, refused);
    MoveAllTotal(envid, w, ids[..k]);
    if k < |ids| {
      StoppedRequeue(envid, w, ids, k);
    }
  }

  lemma StoppedRequeue(envid: Bytes -> Bytes, w: Work, ids: seq<Id>, k: nat)
    requires Sound(w) && k < |ids| && Distinct(ids) && Members(ids) <= w.pending.nacked.Keys
    requires Total(MoveAll(envid, w, ids[..k])) == Total(w)
    ensures ids[k] in w.pending.nacked
    ensures var (done, item) := (MoveAll(envid, w, ids[..k]), w.pending.nacked[ids[k]]);
      var t := RequeueRefused(done, ids[k]);
      && Total(w) == Total(t) + multiset{item} && Total(t) != Total(w)
      && t.pending.nacked == w.pending.nacked - Members(ids[..k + 1])
      && ids[k] !in t.pending.timeouts && ids[k] !in t.pending.prio && ids[k] in t.pending.started
  {
    var (done, item) := (MoveAll(envid, w, ids[..k]), w.pending.nacked[ids[k]]);
    RestPending(envid, w, ids, k);
    assert Total(w) == Total(RequeueRefused(done, ids[k])) + multiset{item} by { RequeueRefusedLoses(done, ids[k]); }
    assert Total(w)[item] == Total(RequeueRefused(done, ids[k]))[item] + 1;
    assert done.pending.nacked == w.pending.nacked - Members(ids[..k]) by { MoveAllNacked(envid, w, ids[..k]); }
    PrefixMembers(ids, k);
    MovesKeepEntry(envid, w, ids[..k], ids[k]);
    MoveAllAgrees(envid, w, ids[..k]);
  }
}

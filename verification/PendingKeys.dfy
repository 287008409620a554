/** The pending keys in every reachable state, and what a pop, a requeue and a
    finish do to them. */
module PendingKeys {
  import opened ByteStrings
  import opened SortedSets
  import opened AckIds
  import opened WaitingQueue
  import opened Store
  import opened Runs
  import opened Effects

  predicate Distinct(ids: seq<Id>) {
    forall i, j :: 0 <= i < j < |ids| ==> ids[i] != ids[j]
  }

  /** The start times are of exactly the pending items, and every deadline and
      every kept score is of one. */
  predicate Agree(k: Pending) {
    && k.started.Keys == k.nacked.Keys
    && k.timeouts.Keys <= k.nacked.Keys
    && k.prio.Keys <= k.nacked.Keys
  }

  // ---- HSET and ZADD of several fields ----

  lemma MembersSnoc(ids: seq<Bytes>)
    requires ids != []
    ensures Members(ids) == Members(ids[..|ids| - 1]) + {ids[|ids| - 1]}
  {
    assert ids == ids[..|ids| - 1] + [ids[|ids| - 1]];
  }

  lemma {:induction false} PutKeys<V>(m: map<Bytes, V>, keys: seq<Bytes>, values: seq<V>)
    requires |keys| == |values|
    ensures Put(m, keys, values).Keys == m.Keys + Members(keys)
  {
    if keys != [] {
      PutKeys(m, keys[..|keys| - 1], values[..|keys| - 1]);
      MembersSnoc(keys);
    }
  }

  lemma {:induction false} PutAllKeys(m: map<Bytes, int>, keys: seq<Bytes>, value: int)
    ensures PutAll(m, keys, value).Keys == m.Keys + Members(keys)
  {
    if keys != [] {
      PutAllKeys(m, keys[..|keys| - 1], value);
      MembersSnoc(keys);
    }
  }

  lemma {:induction false} PutAllValues(m: map<Bytes, int>, keys: seq<Bytes>, value: int, k: Bytes)
    requires k in m || k in keys
    ensures k in PutAll(m, keys, value)
    ensures PutAll(m, keys, value)[k] == if k in keys then value else m[k]
  {
    if keys != [] {
      var (h, last) := (keys[..|keys| - 1], keys[|keys| - 1]);
      assert keys == h + [last];
      if k in m || k in h {
        PutAllValues(m, h, value, k);
      }
    }
  }

  /** A field set under one of several distinct keys reads back. */
  lemma {:induction false} PutAt<V>(m: map<Bytes, V>, keys: seq<Bytes>, values: seq<V>, i: nat)
    requires |keys| == |values| && Distinct(keys) && i < |keys|
    ensures keys[i] in Put(m, keys, values) && Put(m, keys, values)[keys[i]] == values[i]
  {
    var k := |keys| - 1;
    if i < k {
      PutAt(m, keys[..k], values[..k], i);
      assert keys[i] != keys[k];
    }
  }

  /** A field not set keeps its value. */
  lemma {:induction false} PutOther<V>(m: map<Bytes, V>, keys: seq<Bytes>, values: seq<V>, k: Bytes)
    requires |keys| == |values| && k in m && k !in keys
    ensures k in Put(m, keys, values) && Put(m, keys, values)[k] == m[k]
  {
    if keys != [] {
      PutOther(m, keys[..|keys| - 1], values[..|keys| - 1], k);
    }
  }

  lemma {:induction false} RaisedKeys(t: Zset, ids: seq<Id>, dl: int)
    ensures Raised(t, ids, dl).Keys == if dl > 0 then t.Keys + Members(ids) else t.Keys
  {
    if ids != [] && dl > 0 {
      RaisedKeys(t, ids[..|ids| - 1], dl);
      MembersSnoc(ids);
    }
  }

  /** A re-send never lowers a deadline, and touches only its own IDs. */
  lemma {:induction false} RaisedOnlyRaises(t: Zset, ids: seq<Id>, dl: int, id: Id)
    requires id in t || (dl > 0 && id in ids)
    ensures id in Raised(t, ids, dl)
    ensures Raised(t, ids, dl)[id]
            == if id in ids && dl > 0 && (id !in t || t[id] < dl) then dl else t[id]
  {
    if ids != [] && dl > 0 {
      var (h, last) := (ids[..|ids| - 1], ids[|ids| - 1]);
      assert ids == h + [last];
      if id in t || id in h {
        RaisedOnlyRaises(t, h, dl, id);
      } else {
        RaisedKeys(t, h, dl);
      }
    }
  }

  // ---- what the scripts do to the pending keys ----

  lemma TakenAgrees(k: Pending, ids: seq<Id>, items: seq<Item>, scores: seq<int>, ranked: bool, dl: int, ms: int)
    requires |ids| == |items| == |scores| && Agree(k)
    ensures Agree(Taken(k, ids, items, scores, ranked, dl, ms))
    ensures Taken(k, ids, items, scores, ranked, dl, ms).nacked.Keys == k.nacked.Keys + Members(ids)
  {
    PutKeys(k.nacked, ids, items);
    PutKeys(k.prio, ids, scores);
    PutAllKeys(k.timeouts, ids, dl);
    PutAllKeys(k.started, ids, ms);
  }

  lemma RaisedAgrees(k: Pending, ids: seq<Id>, dl: int)
    requires Agree(k) && Members(ids) <= k.nacked.Keys
    ensures Agree(k.(timeouts := Raised(k.timeouts, ids, dl)))
  {
    RaisedKeys(k.timeouts, ids, dl);
  }

  /** Moving ids back takes them, and only them, out of the pending keys. */
  lemma {:induction false} MoveAllNacked(envid: Bytes -> Bytes, w: Work, ids: seq<Id>)
    ensures MoveAll(envid, w, ids).pending.nacked == w.pending.nacked - Members(ids)
    ensures MoveAll(envid, w, ids).pending.timeouts == w.pending.timeouts - Members(ids)
    ensures w.seqNo <= MoveAll(envid, w, ids).seqNo
    ensures MoveAll(envid, w, ids).queue.Ranked? <==> w.queue.Ranked?
  {
    if ids != [] {
      MoveAllNacked(envid, w, ids[..|ids| - 1]);
      MembersSnoc(ids);
    }
  }

  lemma {:induction false} MoveAllAgrees(envid: Bytes -> Bytes, w: Work, ids: seq<Id>)
    requires Agree(w.pending)
    requires w.queue.Listed? ==> w.pending.prio == map[]
    ensures Agree(MoveAll(envid, w, ids).pending)
    ensures MoveAll(envid, w, ids).queue.Listed? ==> MoveAll(envid, w, ids).pending.prio == map[]
  {
    if ids != [] {
      MoveAllAgrees(envid, w, ids[..|ids| - 1]);
    }
  }

  lemma FrontedWellFormed(w: Waiting, last: nat, item: Bytes, score: int)
    requires WellFormed(w, last)
    requires w.Ranked? ==> last + 1 < MAX_SEQ
    ensures w.Ranked? ==> WellFormed(Fronted(w, last + 1, item, score), last + 1)
    ensures w.Ranked? ==> Fronted(w, last + 1, item, score) == Pushed(w, last + 1, item, score)
  {
    if w.Ranked? {
      StampedAfterPush(w.members, last, item, score);
    }
  }

  lemma {:induction false} MoveAllWellFormed(envid: Bytes -> Bytes, w: Work, ids: seq<Id>)
    requires WellFormed(w.queue, w.seqNo) && MoveAll(envid, w, ids).seqNo < MAX_SEQ
    ensures WellFormed(MoveAll(envid, w, ids).queue, MoveAll(envid, w, ids).seqNo)
  {
    if ids != [] {
      var id := ids[|ids| - 1];
      var w' := MoveAll(envid, w, ids[..|ids| - 1]);
      MoveAllWellFormed(envid, w, ids[..|ids| - 1]);
      if id in w'.pending.nacked {
        FrontedWellFormed(w'.queue, w'.seqNo, w'.pending.nacked[id], ScoreOf(w'.pending, id));
      }
    }
  }

  // ---- every reachable state ----

  ghost predicate Sound(w: Work) {
    && Agree(w.pending)
    && WellFormed(w.queue, w.seqNo)
    && (w.queue.Listed? ==> w.pending.prio == map[])
  }

  /** What the books need of the keys: it outlasts a requeue that fails, whose
      item's start time stays behind. */
  ghost predicate Orderly(w: Work) {
    WellFormed(w.queue, w.seqNo) && w.pending.timeouts.Keys <= w.pending.nacked.Keys
  }

  lemma PushOrderly(w: Work, item: Item, score: int)
    requires Orderly(w) && PushWork(w, item, score).seqNo < MAX_SEQ
    ensures Orderly(PushWork(w, item, score))
  {
    if w.queue.Ranked? {
      StampedAfterPush(w.queue.members, w.seqNo, item, score);
    }
  }

  lemma EmptyIsSound(ranked: bool)
    ensures Sound(EmptyWork(ranked))
  {}

  lemma PushSound(w: Work, item: Item, score: int)
    requires Sound(w) && PushWork(w, item, score).seqNo < MAX_SEQ
    ensures Sound(PushWork(w, item, score))
  {
    PushOrderly(w, item, score);
  }

  lemma TakeSound(w: Work, ids: seq<Id>, dl: int, ms: int)
    requires Sound(w) && |ids| <= Len(w.queue)
    ensures Sound(TakeWork(w, ids, dl, ms))
  {
    var n := |ids|;
    TakenAgrees(w.pending, ids, FrontItems(w.queue, n), FrontScores(w.queue, n), w.queue.Ranked?, dl, ms);
    assert WellFormed(Rest(w.queue, n), w.seqNo) by { RestDrops(w.queue, n, w.seqNo); }
  }

  lemma MoveAllSound(envid: Bytes -> Bytes, w: Work, ids: seq<Id>)
    requires Sound(w) && MoveAll(envid, w, ids).seqNo < MAX_SEQ
    ensures Sound(MoveAll(envid, w, ids))
  {
    assert WellFormed(MoveAll(envid, w, ids).queue,
      MoveAll(envid, w, ids).seqNo) by { MoveAllWellFormed(envid, w, ids); }
    MoveAllAgrees(envid, w, ids);
  }

  lemma HandedOutPending(s: Store, p: Pop)
    requires Resent(s, p)
    ensures Members(HandedOut(s, p)) <= s.work.pending.nacked.Keys
  {}

  lemma PopSound(s: Store, p: Pop, now: int)
    requires Sound(s.work)
    ensures Sound(WorkAfterPop(s, p, now))
  {
    var ids := HandedOut(s, p);
    if Resent(s, p) {
      HandedOutPending(s, p);
      RaisedAgrees(s.work.pending, ids, Deadline(now, p.visibility));
    } else {
      TakeSound(s.work, ids, Deadline(now, p.visibility), Millis(now));
    }
  }

  /** Every call keeps the pending keys in agreement and the queue well formed. */
  lemma SoundStep(envid: Bytes -> Bytes, s: Store, e: Event)
    requires Sound(s.work) && Proper(s, e) && Apply(envid, s, e).work.seqNo < MAX_SEQ
    ensures Sound(Apply(envid, s, e).work)
  {
    WorkOf(envid, s, e);
    match e.call
    case Enqueue(item, score, _, _) => PushSound(s.work, item, score);
    case EnqueueOnce(_, _, item, score, _, _) =>
      if Stores(s, e) {
        PushSound(s.work, item, score);
      }
    case PopBy(_, p) => PopSound(s, p, e.now);
    case RequeueExpired(_, _) => MoveAllSound(envid, s.work, RequeuedIds(s, e));
    case SweepBy(_, _) => SweepSound(envid, s.work, DeadIn(s, e), e.now);
    case CloseBy(_) => MoveAllSound(envid, s.work, RequeuedIds(s, e));
    case PurgeAll => EmptyIsSound(s.work.queue.Ranked?);
    case _ =>
  }

  lemma SweepSound(envid: Bytes -> Bytes, w: Work, dead: set<Owner>, now: int)
    requires Sound(w) && SweptWork(envid, w, dead, now).seqNo < MAX_SEQ
    ensures Sound(SweptWork(envid, w, dead, now))
  {
    var w' := MoveAll(envid, w, UpTo(w.pending.timeouts, now));
    var ids := SortedStrings(OwnedIds(w'.pending.nacked, dead));
    MoveAllNacked(envid, w', ids);
    MoveAllSound(envid, w, UpTo(w.pending.timeouts, now));
    MoveAllSound(envid, w', ids);
  }

  lemma {:induction false} SoundRun(envid: Bytes -> Bytes, s: Store, es: seq<Event>)
    requires Sound(s.work) && ProperRun(envid, s, es)
    ensures Sound(Run(envid, s, es).work)
    decreases |es|
  {
    if es != [] {
      SoundStep(envid, s, es[0]);
      SoundRun(envid, Apply(envid, s, es[0]), es[1..]);
    }
  }
}

/** The three pop scripts are one: the one-item scripts are the batch script at
    one item, and a batch is so many single pops at one clock reading. */
module Agreement {
  import opened ByteStrings
  import opened SortedSets
  import opened AckIds
  import opened WaitingQueue
  import opened Store
  import opened Runs
  import opened Effects
  import opened PendingKeys

  lemma NothingTakenOut(s: Store, p: Pop, now: int)
    ensures TakeOut(s, [], p, now) == s
  {
    NothingTaken(s.work, Deadline(now, p.visibility), Millis(now));
  }

  /** The lean script equals the batch script at want = 1, in state and reply. */
  lemma LeanIsBatchOfOne(s: Store, p: Pop, now: int)
    requires p.want == 1
    ensures LeanPop(s, p, now) == BatchPop(s, p, now)
  {
    var (ids, id, nacked) := (IdsOf(p), FirstId(p), s.work.pending.nacked);
    assert ids == [id] && ids[..1] == [id] && ids[..0] == [];
    assert ids[0] in nacked <==> Held(nacked, ids);
    if id in nacked {
      assert ItemsUnder(nacked, [id]) == [nacked[id]];
    } else if Len(s.work.queue) == 0 {
      NothingTakenOut(s, p, now);
      assert FrontItems(s.work.queue, 0) == [];
    }
  }

  /** The single script equals the lean one for a caller with one slot. */
  lemma SingleIsLeanWithOneSlot(s: Store, p: Pop, now: int)
    requires p.slots == 1
    ensures SinglePop(s, p, now).0 == LeanPop(s, p, now).0
    ensures var (one, lean) := (SinglePop(s, p, now).1, LeanPop(s, p, now).1);
      && (one.Refused? <==> lean.refused)
      && lean.items == if one.Got? then [one.item] else []
  {
    if FirstId(p) !in s.work.pending.nacked && Len(s.work.queue) > 0 {
      assert FrontItems(s.work.queue, 1) == [FrontItems(s.work.queue, 1)[0]];
    }
  }

  /** Single pops under the given IDs in turn, and the items they got. */
  function Singles(s: Store, ids: seq<Id>, p: Pop, now: int): (Store, seq<Item>) {
    if ids == [] then (s, [])
    else NextSingle(Singles(s, ids[..|ids| - 1], p, now), ids[|ids| - 1], p, now)
  }

  function NextSingle(a: (Store, seq<Item>), id: Id, p: Pop, now: int): (Store, seq<Item>) {
    var (t, r) := PopUnder(a.0, id, p, now);
    (t, if r.Got? then a.1 + [r.item] else a.1)
  }

  lemma RestEntries(w: Waiting, k: nat)
    requires k <= Len(w)
    ensures |Entries(w)| == Len(w) && Entries(Rest(w, k)) == Entries(w)[k..]
  {
    LenIsEntries(w);
    match w
    case Listed(items) => assert Entries(Rest(w, k)) == Entries(w)[k..];
    case Ranked(z) => RankedRestDrops(z, k);
  }

  lemma TakeTwice(o: seq<Bytes>, n: nat, m: nat, all: nat)
    requires all == n + m <= |o|
    ensures Take(o, n) == o[..n] && Take(o, all) == o[..all]
    ensures Members(o[..all]) == Members(o[..n]) + Members(Take(o[n..], m))
  {
    assert Take(o[n..], m) == o[n..all];
    assert o[..all] == o[..n] + o[n..all];
  }

  lemma RankedRestTwice(z: Zset, n: nat, m: nat, all: nat)
    requires all == n + m <= |z| && m <= Len(Rest(Ranked(z), n))
    ensures Rest(Rest(Ranked(z), n), m) == Rest(Ranked(z), all)
  {
    var o := Order(z);
    assert |o| == |z| by { OrderIsOrder(z); }
    TakeTwice(o, n, m, all);
    var (first, next) := (Members(o[..n]), Members(Take(o[n..], m)));
    assert Rest(Ranked(z - first), m) == Ranked(z - first - next) by { DropFirst(z, n); }
    MinusTwice(z, first, next);
  }

  lemma MinusTwice(z: Zset, x: set<Bytes>, y: set<Bytes>)
    ensures z - x - y == z - (x + y)
  {}

  /** Two pops leave what one of as many leaves. */
  lemma RestTwice(w: Waiting, n: nat, m: nat, all: nat)
    requires all == n + m <= Len(w) && m <= Len(Rest(w, n))
    ensures Rest(Rest(w, n), m) == Rest(w, all)
  {
    match w
    case Listed(items) => assert items[n..][m..] == items[all..];
    case Ranked(z) => RankedRestTwice(z, n, m, all);
  }

  lemma RestOfRest(w: Waiting, k: nat)
    requires k < Len(w)
    ensures Len(Rest(w, k)) == Len(w) - k
    ensures Rest(Rest(w, k), 1) == Rest(w, k + 1)
    ensures FrontItems(w, k + 1) == FrontItems(w, k) + FrontItems(Rest(w, k), 1)
    ensures FrontScores(w, k + 1) == FrontScores(w, k) + FrontScores(Rest(w, k), 1)
  {
    RestLen(w, k);
    RestTwice(w, k, 1, k + 1);
    assert |Entries(w)| == Len(w) && Entries(Rest(w, k)) == Entries(w)[k..] by { RestEntries(w, k); }
    FrontOneMore(w, Rest(w, k), k);
  }

  lemma FrontOneMore(w: Waiting, rest: Waiting, k: nat)
    requires k < |Entries(w)| && Entries(rest) == Entries(w)[k..]
    ensures FrontItems(w, k + 1) == FrontItems(w, k) + FrontItems(rest, 1)
    ensures FrontScores(w, k + 1) == FrontScores(w, k) + FrontScores(rest, 1)
  {}

  lemma PutOneMore<V>(m: map<Bytes, V>, keys: seq<Bytes>, values: seq<V>, k: nat, v: V)
    requires k < |keys| && |values| == k
    ensures Put(Put(m, keys[..k], values), [keys[k]], [v]) == Put(m, keys[..k + 1], values + [v])
  {
    assert keys[..k + 1][..k] == keys[..k] && (values + [v])[..k] == values;
    var m' := Put(m, keys[..k], values);
    assert Put(m', [keys[k]][..0], [v][..0]) == m';
  }

  lemma PutAllOneMore(m: map<Bytes, int>, keys: seq<Bytes>, value: int, k: nat)
    requires k < |keys|
    ensures PutAll(PutAll(m, keys[..k], value), [keys[k]], value) == PutAll(m, keys[..k + 1], value)
  {
    assert keys[..k + 1][..k] == keys[..k];
    assert PutAll(PutAll(m, keys[..k], value), [keys[k]][..0], value) == PutAll(m, keys[..k], value);
  }

  /** Taking one more item is taking one item after the others. */
  lemma TakeOneMore(w: Work, ids: seq<Id>, k: nat, dl: int, ms: int)
    requires k < |ids| && k < Len(w.queue)
    ensures var w' := TakeWork(w, ids[..k], dl, ms);
      Len(w'.queue) == Len(w.queue) - k && TakeWork(w', [ids[k]], dl, ms) == TakeWork(w, ids[..k + 1], dl, ms)
  {
    RestOfRest(w.queue, k);
    var w' := TakeWork(w, ids[..k], dl, ms);
    var (items, scores) := (FrontItems(w.queue, k), FrontScores(w.queue, k));
    var (item, score) := (FrontItems(w'.queue, 1)[0], FrontScores(w'.queue, 1)[0]);
    assert FrontItems(w'.queue, 1) == [item] && FrontScores(w'.queue, 1) == [score];
    PutOneMore(w.pending.nacked, ids, items, k, item);
    PutOneMore(w.pending.prio, ids, scores, k, score);
    PutAllOneMore(w.pending.timeouts, ids, dl, k);
    PutAllOneMore(w.pending.started, ids, ms, k);
  }

  lemma TakeOutOneMore(s: Store, ids: seq<Id>, k: nat, p: Pop, now: int)
    requires k < |ids| && k < Len(s.work.queue)
    ensures var t := TakeOut(s, ids[..k], p, now);
      Len(t.work.queue) == Len(s.work.queue) - k && TakeOut(t, [ids[k]], p, now) == TakeOut(s, ids[..k + 1], p, now)
  {
    TakeOneMore(s.work, ids, k, Deadline(now, p.visibility), Millis(now));
    BeatOnce(s.owners, k, p, now);
  }

  lemma BeatOnce(o: Owners, k: nat, p: Pop, now: int)
    ensures BeatFor(BeatFor(o, k, p, now), 1, p, now) == BeatFor(o, k + 1, p, now)
  {}

  /** As long as items last, k single pops are a batch of k. */
  lemma {:induction false} SinglesTakeOut(s: Store, ids: seq<Id>, k: nat, p: Pop, now: int)
    requires k <= |ids| && k <= Len(s.work.queue) && Distinct(ids) && s.paused.None?
    requires Members(ids) !! s.work.pending.nacked.Keys
    ensures Singles(s, ids[..k], p, now) == (TakeOut(s, ids[..k], p, now), FrontItems(s.work.queue, k))
  {
    if k == 0 {
      NothingTakenOut(s, p, now);
    } else {
      var (t, id) := (TakeOut(s, ids[..k - 1], p, now), ids[k - 1]);
      SinglesTakeOut(s, ids, k - 1, p, now);
      assert ids[..k][..k - 1] == ids[..k - 1];
      assert id !in t.work.pending.nacked by {
        FreshAmong(s.work.pending.nacked, ids, k - 1, FrontItems(s.work.queue, k - 1));
      }
      TakeOutOneMore(s, ids, k - 1, p, now);
      RestOfRest(s.work.queue, k - 1);
      WetPop(t, id, p, now);
    }
  }

  lemma WetPop(t: Store, id: Id, p: Pop, now: int)
    requires id !in t.work.pending.nacked && t.paused.None? && Len(t.work.queue) > 0
    ensures PopUnder(t, id, p, now) == (TakeOut(t, [id], p, now), Got(FrontItems(t.work.queue, 1)[0]))
    ensures FrontItems(t.work.queue, 1) == [FrontItems(t.work.queue, 1)[0]]
  {}

  lemma FreshAmong(nacked: map<Id, Item>, ids: seq<Id>, k: nat, items: seq<Item>)
    requires k < |ids| && |items| == k && Distinct(ids) && Members(ids) !! nacked.Keys
    ensures forall i :: k <= i < |ids| ==> ids[i] !in Put(nacked, ids[..k], items)
  {
    PutKeys(nacked, ids[..k], items);
    forall i | k <= i < |ids| ensures ids[i] !in ids[..k] {
      assert forall j :: 0 <= j < k ==> ids[..k][j] == ids[j];
    }
  }

  function Idled(s: Store, consumer: Bytes): Store {
    s.(idle := if consumer != [] then s.idle + {consumer} else s.idle)
  }

  lemma DryPop(t: Store, id: Id, p: Pop, now: int)
    requires id !in t.work.pending.nacked && t.paused.None? && Len(t.work.queue) == 0
    ensures PopUnder(t, id, p, now) == (Idled(t, p.consumer), NoItem)
  {}

  lemma IdledTwice(t: Store, consumer: Bytes)
    ensures Idled(Idled(t, consumer), consumer) == Idled(t, consumer)
  {
    assert t.idle + {consumer} + {consumer} == t.idle + {consumer};
  }

  lemma DryStep(s: Store, ids: seq<Id>, k: nat, p: Pop, now: int, t: Store, got: seq<Item>)
    requires k < |ids| && Singles(s, ids[..k], p, now) == (t, got)
    requires ids[k] !in t.work.pending.nacked && t.paused.None? && Len(t.work.queue) == 0
    ensures Singles(s, ids[..k + 1], p, now) == (Idled(t, p.consumer), got)
  {
    assert ids[..k + 1][..k] == ids[..k];
    DryPop(t, ids[k], p, now);
  }

  lemma SinglesNext(s: Store, ids: seq<Id>, k: nat, p: Pop, now: int, t: Store, got: seq<Item>)
    requires 0 < k <= |ids| && Singles(s, ids[..k - 1], p, now) == (t, got)
    ensures Singles(s, ids[..k], p, now) == NextSingle((t, got), ids[k - 1], p, now)
  {
    assert ids[..k][..k - 1] == ids[..k - 1];
  }

  lemma DryNext(t: Store, got: seq<Item>, id: Id, p: Pop, now: int)
    requires id !in t.work.pending.nacked && t.paused.None? && Len(t.work.queue) == 0 && Idled(t, p.consumer) == t
    ensures NextSingle((t, got), id, p, now) == (t, got)
  {
    DryPop(t, id, p, now);
  }

  /** Once a single pop found nothing, the next ones change nothing. */
  lemma {:induction false} SinglesStay(s: Store, ids: seq<Id>, n: nat, k: nat, p: Pop, now: int, t: Store,
                                       got: seq<Item>)
    requires n <= k <= |ids| && Singles(s, ids[..n], p, now) == (t, got) && Idled(t, p.consumer) == t
    requires t.paused.None? && Len(t.work.queue) == 0 && forall i :: n <= i < |ids| ==> ids[i] !in t.work.pending.nacked
    ensures Singles(s, ids[..k], p, now) == (t, got)
    decreases k
  {
    if n < k {
      SinglesStay(s, ids, n, k - 1, p, now, t, got);
      SinglesNext(s, ids, k, p, now, t, got);
      DryNext(t, got, ids[k - 1], p, now);
    }
  }

  /** Once they have run out, a single pop only joins the idle set. */
  lemma SinglesRunDry(s: Store, ids: seq<Id>, n: nat, p: Pop, now: int, t: Store, got: seq<Item>)
    requires n < |ids| && Singles(s, ids[..n], p, now) == (t, got)
    requires t.paused.None? && Len(t.work.queue) == 0 && forall i :: n <= i < |ids| ==> ids[i] !in t.work.pending.nacked
    ensures Singles(s, ids, p, now) == (Idled(t, p.consumer), got)
  {
    DryStep(s, ids, n, p, now, t, got);
    IdledTwice(t, p.consumer);
    SinglesStay(s, ids, n + 1, |ids|, p, now, Idled(t, p.consumer), got);
    assert ids[..|ids|] == ids;
  }

  lemma RestLen(w: Waiting, n: nat)
    requires n <= Len(w)
    ensures Len(Rest(w, n)) == Len(w) - n
  {
    if w.Ranked? {
      OrderIsOrder(w.members);
      DropFirst(w.members, n);
      OrderIsOrder(w.members - Members(Take(Order(w.members), n)));
    }
  }

  /** While the queue is paused, a single pop under a fresh ID does nothing. */
  lemma {:induction false} SinglesRefused(s: Store, ids: seq<Id>, k: nat, p: Pop, now: int)
    requires k <= |ids| && s.paused.Some? && forall i :: 0 <= i < |ids| ==> ids[i] !in s.work.pending.nacked
    ensures Singles(s, ids[..k], p, now) == (s, [])
  {
    if k > 0 {
      SinglesRefused(s, ids, k - 1, p, now);
      assert ids[..k][..k - 1] == ids[..k - 1];
    }
  }

  /** For a caller with no more slots than the batch asks for. */
  lemma FullBatchIsSingles(s: Store, p: Pop, now: int)
    requires IsOwner(p.owner) && p.reservation < UINT64_LIMIT && 1 <= p.want <= MAX_POP
    requires !Resent(s, p) && p.slots == p.want
    ensures (BatchPop(s, p, now).0, BatchPop(s, p, now).1.items) == Singles(s, IdsOf(p), p, now)
  {
    var (ids, n) := (IdsOf(p), Min(p.want, Len(s.work.queue)));
    AckIdsOfCall(p.owner, p.reservation, p.want);
    assert ids[..p.want] == ids;
    RestLen(s.work.queue, n);
    if s.paused.Some? {
      SinglesRefused(s, ids, p.want, p, now);
    } else if n == p.want {
      SinglesTakeOut(s, ids, n, p, now);
    } else {
      var t := TakeOut(s, ids[..n], p, now);
      SinglesTakeOut(s, ids, n, p, now);
      FreshAmong(s.work.pending.nacked, ids, n, FrontItems(s.work.queue, n));
      SinglesRunDry(s, ids, n, p, now, t, FrontItems(s.work.queue, n));
    }
  }

  /** Single pops know no slots. */
  lemma {:induction false} SinglesSlotless(s: Store, ids: seq<Id>, p: Pop, now: int, slots: nat)
    ensures Singles(s, ids, p.(slots := slots), now) == Singles(s, ids, p, now)
  {
    if ids != [] {
      SinglesSlotless(s, ids[..|ids| - 1], p, now, slots);
      PopSlotless(Singles(s, ids[..|ids| - 1], p, now).0, ids[|ids| - 1], p, now, slots);
    }
  }

  lemma PopSlotless(s: Store, id: Id, p: Pop, now: int, slots: nat)
    ensures PopUnder(s, id, p.(slots := slots), now) == PopUnder(s, id, p, now)
  {}

  /** A batch of just what was asked for that empties the queue leaves its caller,
      with slots to spare, idle. */
  predicate FillsAndEmpties(t: Store, got: seq<Item>, p: Pop) {
    p.consumer != [] && Len(t.work.queue) == 0 && |got| == p.want < p.slots
  }

  /** What more slots change of a batch. */
  lemma SlotsToSpare(s: Store, p: Pop, now: int)
    requires !Resent(s, p) && p.want <= p.slots
    ensures var (t, r) := BatchPop(s, p.(slots := p.want), now);
      && BatchPop(s, p, now).1 == r
      && BatchPop(s, p, now).0 == if s.paused.None? && FillsAndEmpties(t, r.items, p) then Idled(t, p.consumer) else t
  {
    assert IdsOf(p.(slots := p.want)) == IdsOf(p);
    if s.paused.None? {
      var n := Min(p.want, Len(s.work.queue));
      AnswersWithRoom(TakeOut(s, IdsOf(p)[..n], p, now), FrontItems(s.work.queue, n), p);
    }
  }

  lemma AnswersWithRoom(t: Store, items: seq<Item>, p: Pop)
    requires |items| <= p.want <= p.slots
    ensures var (u, r) := Answer(t, items, p.(slots := p.want));
      && Answer(t, items, p).1 == r
      && Answer(t, items, p).0 == if FillsAndEmpties(u, r.items, p) then Idled(u, p.consumer) else u
  {}

  /** A batch pop of want items equals want single pops under its IDs in turn at
      one clock reading, in state and in items, when none of its IDs is pending:
      but for a caller with slots to spare, which the batch leaves idle exactly when
      it fills its want and empties the queue, and single pops do not. */
  lemma BatchIsSingles(s: Store, p: Pop, now: int)
    requires IsOwner(p.owner) && p.reservation < UINT64_LIMIT && 1 <= p.want <= MAX_POP
    requires !Resent(s, p) && p.want <= p.slots
    ensures var (t, got) := Singles(s, IdsOf(p), p, now);
      && BatchPop(s, p, now).1.items == got
      && BatchPop(s, p, now).0 == if s.paused.None? && FillsAndEmpties(t, got, p) then Idled(t, p.consumer) else t
  {
    FullBatchIsSingles(s, p.(slots := p.want), now);
    SinglesSlotless(s, IdsOf(p), p, now, p.want);
    assert IdsOf(p.(slots := p.want)) == IdsOf(p);
    SlotsToSpare(s, p, now);
  }
}

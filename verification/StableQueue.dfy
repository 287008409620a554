/** Every run is a run of a plain queue of entries: for a sorted set one that is
    stable by priority, for a list one that takes requeued items at its head. */
module StableQueue {
  import opened ByteStrings
  import opened SortedSets
  import opened AckIds
  import opened WaitingQueue
  import opened Store
  import opened Runs
  import opened Effects
  import opened PendingKeys

  /** Entries waiting in pop order, and entries out under an ID. */
  datatype Line = Line(ranked: bool, waiting: seq<Entry>, pending: map<Id, Entry>)

  datatype Op = Arrive(entry: Entry) | Take(ids: seq<Id>) | Return(ids: seq<Id>) | Finish(id: Id) | Clear | Stay

  function Arrived(l: Line, e: Entry): seq<Entry> {
    if l.ranked then StableInsert(l.waiting, e) else l.waiting + [Entry(e.item, 0)]
  }

  /** An entry that is out goes back as it was: behind those of its score, or to
      the head of a list. */
  function ReturnOne(l: Line, id: Id): Line {
    if id !in l.pending then l
    else
      var e := l.pending[id];
      l.(waiting := if l.ranked then StableInsert(l.waiting, e) else [e] + l.waiting, pending := l.pending - {id})
  }

  function ReturnAll(l: Line, ids: seq<Id>): Line {
    if ids == [] then l else ReturnOne(ReturnAll(l, ids[..|ids| - 1]), ids[|ids| - 1])
  }

  function Step(l: Line, op: Op): Line {
    match op
    case Arrive(e) => l.(waiting := Arrived(l, e))
    case Take(ids) =>
      var n := Min(|ids|, |l.waiting|);
      l.(waiting := l.waiting[n..], pending := Put(l.pending, ids[..n], l.waiting[..n]))
    case Return(ids) => ReturnAll(l, ids)
    case Finish(id) => l.(pending := l.pending - {id})
    case Clear => Line(l.ranked, [], map[])
    case Stay => l
  }

  function Steps(l: Line, ops: seq<Op>): Line
    decreases |ops|
  {
    if ops == [] then l else Steps(Step(l, ops[0]), ops[1..])
  }

  // ---- what Redis holds, as such a queue ----

  function EntryMap(nacked: map<Id, Item>, prio: map<Id, int>, ranked: bool): map<Id, Entry> {
    map id | id in nacked :: Entry(nacked[id], if !ranked then 0 else if id in prio then prio[id] else 1)
  }

  function LineOf(w: Work): Line {
    Line(w.queue.Ranked?, Entries(w.queue), EntryMap(w.pending.nacked, w.pending.prio, w.queue.Ranked?))
  }

  /** The IDs a sweep moves: those past their deadline, then the dead owners'. */
  function SweptIds(envid: Bytes -> Bytes, w: Work, dead: set<Owner>, now: int): seq<Id> {
    var due := UpTo(w.pending.timeouts, now);
    due + SortedStrings(OwnedIds(MoveAll(envid, w, due).pending.nacked, dead))
  }

  /** What a call is to the queue. */
  function OpOf(envid: Bytes -> Bytes, s: Store, e: Event): Op {
    match e.call
    case Enqueue(item, score, _, _) => Arrive(Entry(item, score))
    case EnqueueOnce(_, _, item, score, _, _) => if Stores(s, e) then Arrive(Entry(item, score)) else Stay
    case PopBy(_, p) => if Resent(s, p) then Stay else Take(HandedOut(s, p))
    case Settle(id, _, _, _, _) => if id in s.work.pending.nacked then Finish(id) else Stay
    case RequeueExpired(_, _) => Return(RequeuedIds(s, e))
    case CloseBy(_) => Return(RequeuedIds(s, e))
    case SweepBy(_, _) => Return(SweptIds(envid, s.work, DeadIn(s, e), e.now))
    case PurgeAll => Clear
    case _ => Stay
  }

  function Ops(envid: Bytes -> Bytes, s: Store, es: seq<Event>): (ops: seq<Op>)
    ensures |ops| == |es|
    decreases |es|
  {
    if es == [] then [] else [OpOf(envid, s, es[0])] + Ops(envid, Apply(envid, s, es[0]), es[1..])
  }

  // ---- step by step ----

  lemma RankedArrives(w: Work, item: Item, score: int)
    requires w.queue.Ranked? && WellFormed(w.queue, w.seqNo)
    ensures Entries(PushWork(w, item, score).queue) == StableInsert(Entries(w.queue), Entry(item, score))
  {
    var z := w.queue.members;
    assert PushWork(w, item, score).queue == Pushed(Ranked(z), w.seqNo + 1, item, score);
    PushRefines(z, w.seqNo, item, score);
  }

  lemma ListedArrives(w: Work, item: Item, score: int)
    requires w.queue.Listed?
    ensures Entries(PushWork(w, item, score).queue) == Entries(w.queue) + [Entry(item, 0)]
  {
    assert PushWork(w, item, score).queue == Listed(w.queue.items + [item]);
    assert Entries(Listed(w.queue.items + [item])) == Entries(w.queue) + [Entry(item, 0)];
  }

  lemma ArriveLine(w: Work, item: Item, score: int)
    requires Sound(w)
    ensures LineOf(PushWork(w, item, score)) == Step(LineOf(w), Arrive(Entry(item, score)))
  {
    if w.queue.Ranked? {
      RankedArrives(w, item, score);
    } else {
      ListedArrives(w, item, score);
    }
  }

  lemma {:induction false} PutEntries(nacked: map<Id, Item>, prio: map<Id, int>, ranked: bool,
                                      ids: seq<Id>, items: seq<Item>, scores: seq<int>, es: seq<Entry>)
    requires |ids| == |items| == |scores| == |es|
    requires forall i :: 0 <= i < |ids| ==> es[i] == Entry(items[i], if ranked then scores[i] else 0)
    ensures EntryMap(Put(nacked, ids, items), if ranked then Put(prio, ids, scores) else prio, ranked)
            == Put(EntryMap(nacked, prio, ranked), ids, es)
  {
    if ids != [] {
      var k := |ids| - 1;
      PutEntries(nacked, prio, ranked, ids[..k], items[..k], scores[..k], es[..k]);
    }
  }

  lemma TakeLine(w: Work, ids: seq<Id>, dl: int, ms: int)
    requires Sound(w) && |ids| <= Len(w.queue)
    ensures LineOf(TakeWork(w, ids, dl, ms)) == Step(LineOf(w), Take(ids))
  {
    var (n, q) := (|ids|, Entries(w.queue));
    RestDrops(w.queue, n, w.seqNo);
    assert ids[..n] == ids;
    var scores := FrontScores(w.queue, n);
    assert w.queue.Listed? ==> forall i :: 0 <= i < n ==> q[i].score == 0;
    PutEntries(w.pending.nacked, w.pending.prio, w.queue.Ranked?, ids, FrontItems(w.queue, n), scores, q[..n]);
  }

  lemma LessEntry(nacked: map<Id, Item>, prio: map<Id, int>, ranked: bool, id: Id)
    ensures EntryMap(nacked - {id}, prio - {id}, ranked) == EntryMap(nacked, prio, ranked) - {id}
    ensures !ranked ==> EntryMap(nacked - {id}, prio, ranked) == EntryMap(nacked, prio, ranked) - {id}
  {}

  lemma RankedReturn(envid: Bytes -> Bytes, w: Work, id: Id)
    requires w.queue.Ranked? && WellFormed(w.queue, w.seqNo) && id in w.pending.nacked
    ensures var e := Entry(w.pending.nacked[id], ScoreOf(w.pending, id)); var w' := Move(envid, w, id);
      && Entries(w'.queue) == StableInsert(Entries(w.queue), e) && w'.queue.Ranked?
      && w'.pending.nacked == w.pending.nacked - {id} && w'.pending.prio == w.pending.prio - {id}
  {
    var (z, item, score) := (w.queue.members, w.pending.nacked[id], ScoreOf(w.pending, id));
    assert Move(envid, w, id).queue == Pushed(Ranked(z), w.seqNo + 1, item, score);
    PushRefines(z, w.seqNo, item, score);
  }

  lemma ListedReturn(envid: Bytes -> Bytes, w: Work, id: Id)
    requires w.queue.Listed? && id in w.pending.nacked
    ensures var e := Entry(w.pending.nacked[id], 0); var w' := Move(envid, w, id);
      && Entries(w'.queue) == [e] + Entries(w.queue) && w'.queue.Listed?
      && w'.pending.nacked == w.pending.nacked - {id} && w'.pending.prio == w.pending.prio
  {
    var item := w.pending.nacked[id];
    assert Move(envid, w, id).queue == Listed([item] + w.queue.items);
    assert Entries(Listed([item] + w.queue.items)) == [Entry(item, 0)] + Entries(w.queue);
  }

  lemma ReturnLine(envid: Bytes -> Bytes, w: Work, id: Id)
    requires WellFormed(w.queue, w.seqNo)
    ensures LineOf(Move(envid, w, id)) == ReturnOne(LineOf(w), id)
  {
    if id in w.pending.nacked {
      LessEntry(w.pending.nacked, w.pending.prio, w.queue.Ranked?, id);
      if w.queue.Ranked? {
        RankedReturn(envid, w, id);
      } else {
        ListedReturn(envid, w, id);
      }
    }
  }

  lemma {:induction false} ReturnsLine(envid: Bytes -> Bytes, w: Work, ids: seq<Id>)
    requires WellFormed(w.queue, w.seqNo) && MoveAll(envid, w, ids).seqNo < MAX_SEQ
    ensures LineOf(MoveAll(envid, w, ids)) == ReturnAll(LineOf(w), ids)
  {
    if ids != [] {
      var h := ids[..|ids| - 1];
      ReturnsLine(envid, w, h);
      MoveAllWellFormed(envid, w, h);
      ReturnLine(envid, MoveAll(envid, w, h), ids[|ids| - 1]);
    }
  }

  lemma {:induction false} ReturnTwice(l: Line, ids: seq<Id>, more: seq<Id>)
    ensures ReturnAll(ReturnAll(l, ids), more) == ReturnAll(l, ids + more)
  {
    if more == [] {
      assert ids + more == ids;
    } else {
      var k := |more| - 1;
      ReturnTwice(l, ids, more[..k]);
      assert (ids + more)[..|ids + more| - 1] == ids + more[..k];
    }
  }

  lemma SweptLine(envid: Bytes -> Bytes, w: Work, dead: set<Owner>, now: int)
    requires Sound(w) && SweptWork(envid, w, dead, now).seqNo < MAX_SEQ
    ensures LineOf(SweptWork(envid, w, dead, now)) == Step(LineOf(w), Return(SweptIds(envid, w, dead, now)))
  {
    var due := UpTo(w.pending.timeouts, now);
    var w' := MoveAll(envid, w, due);
    var owned := SortedStrings(OwnedIds(w'.pending.nacked, dead));
    MoveAllNacked(envid, w', owned);
    ReturnsLine(envid, w, due);
    MoveAllWellFormed(envid, w, due);
    ReturnsLine(envid, w', owned);
    ReturnTwice(LineOf(w), due, owned);
  }

  lemma SameLine(w: Work, timeouts: map<Id, int>)
    ensures LineOf(WithDeadlines(w, timeouts)) == Step(LineOf(w), Stay)
  {}

  lemma PopLine(s: Store, p: Pop, now: int)
    requires Sound(s.work)
    ensures LineOf(WorkAfterPop(s, p, now))
      == Step(LineOf(s.work), if Resent(s, p) then Stay else Take(HandedOut(s, p)))
  {
    if Resent(s, p) {
      SameLine(s.work, Raised(s.work.pending.timeouts, HandedOut(s, p), Deadline(now, p.visibility)));
    } else {
      TakeLine(s.work, HandedOut(s, p), Deadline(now, p.visibility), Millis(now));
    }
  }

  lemma FinishLine(envid: Bytes -> Bytes, w: Work, id: Id)
    ensures id in w.pending.nacked ==> LineOf(FinishedWork(envid, w, id)) == Step(LineOf(w), Op.Finish(id))
  {
    LessEntry(w.pending.nacked, w.pending.prio, w.queue.Ranked?, id);
  }

  lemma MovedLine(envid: Bytes -> Bytes, w: Work, ids: seq<Id>)
    requires Sound(w) && MoveAll(envid, w, ids).seqNo < MAX_SEQ
    ensures LineOf(MoveAll(envid, w, ids)) == Step(LineOf(w), Return(ids))
  {
    ReturnsLine(envid, w, ids);
  }

  lemma EmptyLine(ranked: bool)
    ensures LineOf(EmptyWork(ranked)) == Line(ranked, [], map[])
  {
    LenIsEntries(EmptyWork(ranked).queue);
  }

  lemma StoredLine(envid: Bytes -> Bytes, s: Store, e: Event)
    requires Sound(s.work) && (e.call.Enqueue? || e.call.EnqueueOnce?)
    ensures LineOf(WorkStep(envid, s, e)) == Step(LineOf(s.work), OpOf(envid, s, e))
  {
    ArriveLine(s.work, e.call.item, e.call.score);
  }

  lemma TakenLine(envid: Bytes -> Bytes, s: Store, e: Event)
    requires Sound(s.work) && e.call.PopBy?
    ensures LineOf(WorkStep(envid, s, e)) == Step(LineOf(s.work), OpOf(envid, s, e))
  {
    PopLine(s, e.call.pop, e.now);
  }

  lemma SettledLine(envid: Bytes -> Bytes, s: Store, e: Event)
    requires e.call.Settle?
    ensures LineOf(WorkStep(envid, s, e)) == Step(LineOf(s.work), OpOf(envid, s, e))
  {
    FinishLine(envid, s.work, e.call.id);
  }

  lemma RequeuedLine(envid: Bytes -> Bytes, s: Store, e: Event)
    requires Sound(s.work) && (e.call.RequeueExpired? || e.call.CloseBy?) && WorkStep(envid, s, e).seqNo < MAX_SEQ
    ensures LineOf(WorkStep(envid, s, e)) == Step(LineOf(s.work), OpOf(envid, s, e))
  {
    MovedLine(envid, s.work, RequeuedIds(s, e));
  }

  lemma ReapedLine(envid: Bytes -> Bytes, s: Store, e: Event)
    requires Sound(s.work) && e.call.SweepBy? && WorkStep(envid, s, e).seqNo < MAX_SEQ
    ensures LineOf(WorkStep(envid, s, e)) == Step(LineOf(s.work), OpOf(envid, s, e))
  {
    SweptLine(envid, s.work, DeadIn(s, e), e.now);
  }

  lemma ClearedLine(envid: Bytes -> Bytes, s: Store, e: Event)
    requires e.call.PurgeAll?
    ensures LineOf(WorkStep(envid, s, e)) == Step(LineOf(s.work), OpOf(envid, s, e))
  {
    EmptyLine(s.work.queue.Ranked?);
  }

  lemma WorkLine(envid: Bytes -> Bytes, s: Store, e: Event)
    requires Sound(s.work) && WorkStep(envid, s, e).seqNo < MAX_SEQ
    ensures LineOf(WorkStep(envid, s, e)) == Step(LineOf(s.work), OpOf(envid, s, e))
  {
    match e.call
    case Enqueue(_, _, _, _) => StoredLine(envid, s, e);
    case EnqueueOnce(_, _, _, _, _, _) => StoredLine(envid, s, e);
    case PopBy(_, _) => TakenLine(envid, s, e);
    case Settle(_, _, _, _, _) => SettledLine(envid, s, e);
    case RequeueExpired(_, _) => RequeuedLine(envid, s, e);
    case CloseBy(_) => RequeuedLine(envid, s, e);
    case SweepBy(_, _) => ReapedLine(envid, s, e);
    case PurgeAll => ClearedLine(envid, s, e);
    case _ =>
  }

  /** Each call does to the queue what its operation does to the plain one. */
  lemma LineStep(envid: Bytes -> Bytes, s: Store, e: Event)
    requires Sound(s.work) && Proper(s, e) && Apply(envid, s, e).work.seqNo < MAX_SEQ
    ensures LineOf(Apply(envid, s, e).work) == Step(LineOf(s.work), OpOf(envid, s, e))
  {
    WorkOf(envid, s, e);
    WorkLine(envid, s, e);
  }

  lemma {:induction false} LineRun(envid: Bytes -> Bytes, s: Store, es: seq<Event>)
    requires Sound(s.work) && ProperRun(envid, s, es)
    ensures LineOf(Run(envid, s, es).work) == Steps(LineOf(s.work), Ops(envid, s, es))
    decreases |es|
  {
    if es != [] {
      LineStep(envid, s, es[0]);
      SoundStep(envid, s, es[0]);
      LineRun(envid, Apply(envid, s, es[0]), es[1..]);
    }
  }

  /** So from an empty queue, in every run: what waits and what is out is what the
      same operations leave of a plain queue of entries. */
  lemma RunIsStableQueue(envid: Bytes -> Bytes, ranked: bool, es: seq<Event>)
    requires ProperRun(envid, Empty(ranked), es)
    ensures var w := Run(envid, Empty(ranked), es).work;
      var l := Steps(Line(ranked, [], map[]), Ops(envid, Empty(ranked), es));
      && Entries(w.queue) == l.waiting
      && EntryMap(w.pending.nacked, w.pending.prio, ranked) == l.pending
      && (w.queue.Ranked? <==> ranked)
  {
    EmptyIsSound(ranked);
    EmptyLine(ranked);
    LineRun(envid, Empty(ranked), es);
    StepsKeepKind(Line(ranked, [], map[]), Ops(envid, Empty(ranked), es));
  }

  lemma {:induction false} ReturnKeepsKind(l: Line, ids: seq<Id>)
    requires l.ranked ==> ByScore(l.waiting)
    ensures ReturnAll(l, ids).ranked == l.ranked && (l.ranked ==> ByScore(ReturnAll(l, ids).waiting))
  {
    if ids != [] {
      var (l', id) := (ReturnAll(l, ids[..|ids| - 1]), ids[|ids| - 1]);
      ReturnKeepsKind(l, ids[..|ids| - 1]);
      if l.ranked && id in l'.pending {
        StableInsertSorted(l'.waiting, l'.pending[id]);
      }
    }
  }

  lemma StepKeepsKind(l: Line, op: Op)
    requires l.ranked ==> ByScore(l.waiting)
    ensures Step(l, op).ranked == l.ranked && (l.ranked ==> ByScore(Step(l, op).waiting))
  {
    match op
    case Arrive(e) =>
      if l.ranked {
        StableInsertSorted(l.waiting, e);
      }
    case Return(ids) => ReturnKeepsKind(l, ids);
    case _ =>
  }

  /** Its entries are always in score order, for a sorted set. */
  lemma {:induction false} StepsKeepKind(l: Line, ops: seq<Op>)
    requires l.ranked ==> ByScore(l.waiting)
    ensures Steps(l, ops).ranked == l.ranked && (l.ranked ==> ByScore(Steps(l, ops).waiting))
    decreases |ops|
  {
    if ops != [] {
      StepKeepsKind(l, ops[0]);
      StepsKeepKind(Step(l, ops[0]), ops[1..]);
    }
  }
}

/** What the moving scripts leave when Redis refuses a push: a script that fails
    stops there, and what it wrote before stays written. */
module Refusals {
  import opened ByteStrings
  import opened SortedSets
  import opened AckIds
  import opened WaitingQueue
  import opened S = Store
  import opened Runs
  import opened ScriptSteps

  /** Enqueue's push, or move(id), at a push that fails: a sorted set's INCR has
      run, and no more. */
  function PushRefused(w: Work): Work {
    w.(seqNo := NextSeq(w))
  }

  /** listPushBody and zsetPushBody. The second part says whether the script ran to
      its end. */
  function PushUntil(s: S.Store, item: Item, score: int, refused: bool): (S.Store, bool) {
    if refused then (s.(work := PushRefused(s.work)), false) else (S.Push(s, item, score), true)
  }

  /** The same under once(...): the id's key is set only after the push. */
  function PushOnceUntil(s: S.Store, key: Bytes, window: int, item: Item, score: int, now: int, refused: bool)
    : (S.Store, bool)
  {
    if Remembered(s, key, now) then (s, true)
    else if refused then (s.(work := PushRefused(s.work)), false)
    else (S.PushOnce(s, key, window, item, score, now), true)
  }

  /** requeueLoop at a push that fails: the item and its deadline are dropped, and
      in a sorted set INCR has run and the score is dropped too. */
  function RequeueRefused(w: Work, id: Id): Work {
    var k := w.pending;
    w.(seqNo := NextSeq(w),
       pending := Pending(k.nacked - {id}, k.timeouts - {id}, k.started,
                          if w.queue.Ranked? then k.prio - {id} else k.prio))
  }

  /** One turn of a loop that has not stopped; `refused` are the IDs whose item's
      push fails. The second part says whether the loop goes on. */
  function MoveTurn(envid: Bytes -> Bytes, a: (Work, bool), id: Id, refused: set<Id>): (Work, bool) {
    if !a.1 then a
    else if id in refused && id in a.0.pending.nacked then (PushRefused(a.0), false)
    else (Move(envid, a.0, id), true)
  }

  function RequeueTurn(envid: Bytes -> Bytes, a: (Work, bool), id: Id, refused: set<Id>): (Work, bool) {
    if !a.1 then a
    else if id in refused && id in a.0.pending.nacked then (RequeueRefused(a.0, id), false)
    else (Move(envid, a.0, id), true)
  }

  /** A loop of move(id), up to the first push that fails. */
  function MoveUntil(envid: Bytes -> Bytes, w: Work, ids: seq<Id>, refused: set<Id>): (Work, bool) {
    if ids == [] then (w, true)
    else MoveTurn(envid, MoveUntil(envid, w, ids[..|ids| - 1], refused), ids[|ids| - 1], refused)
  }

  /** requeueLoop, up to the first push that fails. */
  function RequeueUntil(envid: Bytes -> Bytes, w: Work, ids: seq<Id>, refused: set<Id>): (Work, bool) {
    if ids == [] then (w, true)
    else RequeueTurn(envid, RequeueUntil(envid, w, ids[..|ids| - 1], refused), ids[|ids| - 1], refused)
  }

  /** releaseBody: the heartbeat and the mark go only after the last move. */
  function ReleaseUntil(envid: Bytes -> Bytes, s: S.Store, owner: Owner, refused: set<Id>): (S.Store, bool) {
    var (w, ok) := MoveUntil(envid, s.work, SortedStrings(IdsWithPrefix(s.work.pending.nacked, owner)), refused);
    (s.(work := w, owners := if ok then OwnersWithout(s.owners, {owner}) else s.owners), ok)
  }

  /** The reaping part of tickBody: the dead are dropped only after the last move. */
  function ReapUntil(envid: Bytes -> Bytes, s: S.Store, ticked: bool, subs: set<Owner>, now: int, refused: set<Id>)
    : (S.Store, bool)
  {
    var dead := Dead(s.owners, ticked, subs, now);
    var (w, ok) := MoveUntil(envid, s.work, SortedStrings(OwnedIds(s.work.pending.nacked, dead)), refused);
    var marked := CountedOwners(s.owners, ticked, subs, now);
    (s.(work := w, owners := if ok then OwnersWithout(marked, dead) else marked), ok)
  }

  /** tickBody. */
  function SweepUntil(envid: Bytes -> Bytes, s: S.Store, me: Owner, heartbeat: int, subs: set<Owner>, now: int,
      refused: set<Id>)
    : (S.Store, bool)
  {
    var (w, ok) := MoveUntil(envid, s.work, UpTo(s.work.pending.timeouts, now), refused);
    var s' := s.(owners := Prepared(s.owners, me, heartbeat, now), work := w);
    if !ok || s.owners.clock.None? then (s', ok)
    else ReapUntil(envid, s', Ticks(s.owners, now), subs, now, refused)
  }

  /** RequeueNackedItems. */
  function RequeueNackedUntil(envid: Bytes -> Bytes, s: S.Store, visibility: int, listing: seq<Id>, now: int,
      refused: set<Id>)
    : (S.Store, bool)
  {
    var ids := if visibility > 0 then UpTo(s.work.pending.timeouts, now) else listing;
    var (w, ok) := RequeueUntil(envid, s.work, ids, refused);
    (s.(work := w), ok)
  }

  /** A call and the pushes of it that Redis refuses: of the item it stores, and of
      the items pending under these IDs. */
  datatype Try = Try(event: Event, refusesItem: bool, refused: set<Id>)

  function Tried(envid: Bytes -> Bytes, s: S.Store, t: Try): (S.Store, bool) {
    var e := t.event;
    match e.call
    case RequeueExpired(visibility, listing) => RequeueNackedUntil(envid, s, visibility, listing, e.now, t.refused)
    case SweepBy(me, heartbeat) => SweepUntil(envid, s, me, heartbeat, e.subs, e.now, t.refused)
    case CloseBy(me) => ReleaseUntil(envid, s, me, t.refused)
    case _ =>
      if t.refusesItem && Stores(s, e) then (s.(work := PushRefused(s.work)), false) else (Apply(envid, s, e), true)
  }

  function TriedAll(envid: Bytes -> Bytes, s: S.Store, ts: seq<Try>): S.Store
    decreases |ts|
  {
    if ts == [] then s else TriedAll(envid, Tried(envid, s, ts[0]).0, ts[1..])
  }

  /** As ProperRun, for calls of which some pushes are refused. */
  predicate ProperTries(envid: Bytes -> Bytes, s: S.Store, ts: seq<Try>)
    decreases |ts|
  {
    ts == [] || (Proper(s, ts[0].event) && Tried(envid, s, ts[0]).0.work.seqNo < MAX_SEQ
                 && ProperTries(envid, Tried(envid, s, ts[0]).0, ts[1..]))
  }

  // ---- the loops turn by turn ----

  lemma TurnAt(envid: Bytes -> Bytes, w: Work, ids: seq<Id>, i: nat, refused: set<Id>)
    requires i < |ids|
    ensures MoveUntil(envid, w, ids[..i + 1], refused)
            == MoveTurn(envid, MoveUntil(envid, w, ids[..i], refused), ids[i], refused)
    ensures RequeueUntil(envid, w, ids[..i + 1], refused)
            == RequeueTurn(envid, RequeueUntil(envid, w, ids[..i], refused), ids[i], refused)
  {
    assert ids[..i + 1][..i] == ids[..i];
  }

  /** A loop that stopped has stopped for good. */
  lemma {:induction false} MoveStopped(envid: Bytes -> Bytes, w: Work, ids: seq<Id>, i: nat, refused: set<Id>)
    requires i <= |ids| && !MoveUntil(envid, w, ids[..i], refused).1
    ensures MoveUntil(envid, w, ids, refused) == MoveUntil(envid, w, ids[..i], refused)
    decreases |ids|
  {
    if i == |ids| {
      assert ids[..i] == ids;
    } else {
      assert ids[..|ids| - 1][..i] == ids[..i];
      MoveStopped(envid, w, ids[..|ids| - 1], i, refused);
    }
  }

  lemma {:induction false} RequeueStopped(envid: Bytes -> Bytes, w: Work, ids: seq<Id>, i: nat, refused: set<Id>)
    requires i <= |ids| && !RequeueUntil(envid, w, ids[..i], refused).1
    ensures RequeueUntil(envid, w, ids, refused) == RequeueUntil(envid, w, ids[..i], refused)
    decreases |ids|
  {
    if i == |ids| {
      assert ids[..i] == ids;
    } else {
      assert ids[..|ids| - 1][..i] == ids[..i];
      RequeueStopped(envid, w, ids[..|ids| - 1], i, refused);
    }
  }

  // ---- with no push refused ----

  lemma {:induction false} NoneRefused(envid: Bytes -> Bytes, w: Work, ids: seq<Id>)
    ensures MoveUntil(envid, w, ids, {}) == (MoveAll(envid, w, ids), true)
    ensures RequeueUntil(envid, w, ids, {}) == (MoveAll(envid, w, ids), true)
  {
    if ids != [] {
      NoneRefused(envid, w, ids[..|ids| - 1]);
    }
  }

  /** Each script then does what its function in module Store says. */
  lemma ScriptsUnrefused(envid: Bytes -> Bytes, s: S.Store, owner: Owner, visibility: int, listing: seq<Id>, now: int)
    ensures ReleaseUntil(envid, s, owner, {}) == (Release(envid, s, owner), true)
    ensures RequeueNackedUntil(envid, s, visibility, listing, now, {})
      == (RequeueNacked(envid, s, visibility, listing, now), true)
  {
    NoneRefused(envid, s.work, SortedStrings(IdsWithPrefix(s.work.pending.nacked, owner)));
    NoneRefused(envid, s.work, if visibility > 0 then UpTo(s.work.pending.timeouts, now) else listing);
  }

  lemma SweepUnrefused(envid: Bytes -> Bytes, s: S.Store, me: Owner, heartbeat: int, subs: set<Owner>, now: int)
    ensures SweepUntil(envid, s, me, heartbeat, subs, now, {}) == (Sweep(envid, s, me, heartbeat, subs, now), true)
  {
    var due := UpTo(s.work.pending.timeouts, now);
    NoneRefused(envid, s.work, due);
    SweepInParts(envid, s, me, heartbeat, subs, now);
    var s' := s.(owners := Prepared(s.owners, me, heartbeat, now), work := MoveAll(envid, s.work, due));
    ReapUnrefused(envid, s', Ticks(s.owners, now), subs, now);
  }

  lemma ReapUnrefused(envid: Bytes -> Bytes, s: S.Store, ticked: bool, subs: set<Owner>, now: int)
    ensures ReapUntil(envid, s, ticked, subs, now, {}) == (Reaped(envid, s, ticked, subs, now), true)
  {
    NoneRefused(envid, s.work, SortedStrings(OwnedIds(s.work.pending.nacked, Dead(s.owners, ticked, subs, now))));
  }
}

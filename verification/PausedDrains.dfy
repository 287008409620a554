/** What a queue object makes of each call's reply: refusals by a pause, failures,
    and the size of the next call. */
module PausedDrains {
  import opened AckIds
  import opened WaitingQueue
  import opened S = Store
  import opened Effects
  import opened Agreement
  import opened Reservations
  import opened Batches

  // ---- refused calls ----

  /** The reservation kept from a failed call is used again when there is room. */
  predicate UsesKept(c: Client, room: nat) {
    c.retry.Some? && c.retry.value.want <= room
  }

  /** The object once a call with that much room has its reservation. */
  function AfterReserve(c: Client, room: nat): Client {
    if UsesKept(c, room) then Client(None, c.ackSeq, c.popLen, c.popRun)
    else Client(c.retry, c.ackSeq + 1, c.popLen, c.popRun)
  }

  /** A call on a paused queue, none of whose IDs is pending, gets nothing and no
      error; it changes nothing in Redis, learns nothing of the length, and keeps
      no reservation. */
  lemma RefusedCall(c: Client, s: S.Store, g: Settings, slots: nat, now: int)
    requires s.paused.Some? && 0 < slots
    requires var r := ReservedFor(c, Limit(slots), Size(c, Limit(slots))).1;
      !Resent(s, PopUnderReservation(g, r, slots))
    ensures Dequeue(c, s, g, slots, Answered, now)
            == (AfterReserve(c, if slots < 1000 then slots else 1000), s, Batch([], [], 0))
  {
    var r := ReservedFor(c, Limit(slots), Size(c, Limit(slots))).1;
    var p := PopUnderReservation(g, r, slots);
    assert Ran(s, p, now) == (s, Reply(0, [], true)) by { PausedRun(s, p, now); }
  }

  lemma PausedRun(s: S.Store, p: Pop, now: int)
    requires s.paused.Some? && !Resent(s, p)
    ensures Ran(s, p, now) == (s, Reply(0, [], true))
  {
    if p.want == 1 {
      assert IdsOf(p)[0] == FirstId(p);
    }
  }

  /** The same of a single pop. */
  lemma RefusedSingle(c: Client, s: S.Store, g: Settings, now: int)
    requires s.paused.Some?
    requires FirstId(PopUnderReservation(g, ReservedFor(c, 1, 1).1, 1)) !in s.work.pending.nacked
    ensures DequeueSingle(c, s, g, Answered, now) == (AfterReserve(c, 1), s, Nothing)
  {}

  // ---- failed calls ----

  /** A call that fails keeps its reservation, unless another failed call's is kept
      already; whether its pop ran makes no difference. */
  lemma FailedCallKeeps(c: Client, s: S.Store, g: Settings, slots: nat, fate: Fate, now: int)
    requires 0 < slots && !fate.Answered?
    ensures var (c', _, b) := Dequeue(c, s, g, slots, fate, now); var room := if slots < 1000 then slots else 1000;
      && b.NoReply? && c'.popLen == c.popLen && c'.popRun == c.popRun
      && c'.ackSeq == (if UsesKept(c, room) then c.ackSeq else c.ackSeq + 1)
      && c'.retry == if c.retry.Some? then c.retry
                     else Some(Reservation(c.ackSeq + 1, Min(room, if c.popLen < 1 then 1 else c.popLen)))
  {}

  // ---- a drain, interrupted or not ----

  /** One call of a drain: when, and whether the queue is paused then. */
  datatype Turn = Turn(now: int, paused: bool)

  function AtTurn(s: S.Store, turn: Turn): S.Store {
    s.(paused := if turn.paused then Some(Millis(turn.now)) else None)
  }

  /** The object, the store and the items gathered after the turns. */
  function Taking(c: Client, s: S.Store, g: Settings, slots: nat, turns: seq<Turn>): (Client, S.Store, seq<Item>)
    decreases |turns|
  {
    if turns == [] then (c, s, [])
    else
      var (c', t, b) := Dequeue(c, AtTurn(s, turns[0]), g, slots, Answered, turns[0].now);
      var (c'', u, items) := Taking(c', t, g, slots, turns[1..]);
      (c'', u, (if b.Batch? then b.items else []) + items)
  }

  /** How many turns find the queue not paused. */
  function Open(turns: seq<Turn>): nat {
    if turns == [] then 0 else (if turns[0].paused then 0 else 1) + Open(turns[1..])
  }

  /** What the object expects after taking n of l items in calls of which some were
      not refused: the items that remain, or with none the items taken since the
      queue was last seen empty. */
  predicate Expects(c: Client, c': Client, l: nat, n: nat, answered: bool) {
    if !answered then c'.popLen == c.popLen && c'.popRun == c.popRun
    else if n < l then c'.popLen == l - n && c'.popRun == c.popRun + n
    else c'.popRun == 0 && c'.popLen == (if c.popRun + l > 0 then c.popRun + l else c.popLen)
  }

  /** An object with no failed call behind it, whose next IDs are not pending. */
  ghost predicate Unfailed(c: Client, s: S.Store, g: Settings, calls: nat) {
    IsOwner(g.owner) && c.retry.None? && Unissued(s, g.owner, c.ackSeq) && c.ackSeq + calls < UINT64_LIMIT
  }

  /** A call that is not refused takes min(slots, 1000, max(1, popLen), length) items. */
  function Asked(c: Client, s: S.Store, slots: nat): nat {
    Min(Min(if slots < 1000 then slots else 1000, if c.popLen < 1 then 1 else c.popLen), Len(s.work.queue))
  }

  /** From c and w the calls took these items: the first ones, in order; what they
      left, and what the object expects. */
  ghost predicate Took(c: Client, w: Waiting, c': Client, w': Waiting, items: seq<Item>, answered: bool) {
    var (l, n) := (Len(w), |items|);
    && n <= l && items == FrontItems(w, n) && w' == Rest(w, n) && Len(w') == l - n
    && c'.retry.None? && Expects(c, c', l, n, answered) && (!answered ==> items == [])
  }

  lemma OneTurn(c: Client, s: S.Store, g: Settings, slots: nat, turn: Turn)
    requires Unfailed(c, s, g, 1) && 0 < slots
    ensures var (c', t, b) := Dequeue(c, AtTurn(s, turn), g, slots, Answered, turn.now);
      && b.Batch? && |b.items| == (if turn.paused then 0 else Asked(c, s, slots))
      && Took(c, s.work.queue, c', t.work.queue, b.items, !turn.paused)
      && c'.ackSeq == c.ackSeq + 1 && Unissued(t, g.owner, c'.ackSeq)
  {
    if turn.paused {
      RefusedTurn(c, s, g, slots, turn);
    } else {
      OneCall(c, AtTurn(s, turn), g, slots, turn.now);
    }
  }

  lemma RefusedTurn(c: Client, s: S.Store, g: Settings, slots: nat, turn: Turn)
    requires Unfailed(c, s, g, 1) && 0 < slots && turn.paused
    ensures Dequeue(c, AtTurn(s, turn), g, slots, Answered, turn.now)
            == (c.(ackSeq := c.ackSeq + 1), AtTurn(s, turn), Batch([], [], 0))
    ensures Unissued(AtTurn(s, turn), g.owner, c.ackSeq + 1)
    ensures Rest(s.work.queue, 0) == s.work.queue && FrontItems(s.work.queue, 0) == []
  {
    RefusedCall(c, AtTurn(s, turn), g, slots, turn.now);
    NothingTaken(s.work, 0, 0);
  }

  lemma ExpectsThen(c: Client, c': Client, c'': Client, l: nat, n: nat, m: nat, first: bool, rest: bool)
    requires n <= l && m <= l - n && (!first ==> n == 0) && (!rest ==> m == 0)
    requires Expects(c, c', l, n, first) && Expects(c', c'', l - n, m, rest)
    ensures Expects(c, c'', l, n + m, first || rest)
  {}

  lemma TookThen(c: Client, w: Waiting, c': Client, w': Waiting, items: seq<Item>, first: bool,
                 c'': Client, w'': Waiting, more: seq<Item>, rest: bool, all: seq<Item>)
    requires Took(c, w, c', w', items, first) && Took(c', w', c'', w'', more, rest) && all == items + more
    ensures Took(c, w, c'', w'', all, first || rest)
  {
    assert all == FrontItems(w, |all|) && w'' == Rest(w, |all|) by { TakenTwice(w, w', |items|, |more|, |all|); }
    assert Expects(c, c'', Len(w), |all|, first || rest) by {
      ExpectsThen(c, c', c'', Len(w), |items|, |more|, first, rest);
    }
  }

  lemma TakenTwice(w: Waiting, w': Waiting, n: nat, m: nat, all: nat)
    requires n <= Len(w) && w' == Rest(w, n) && Len(w') == Len(w) - n && m <= Len(w') && all == n + m
    ensures FrontItems(w, n) + FrontItems(w', m) == FrontItems(w, all)
    ensures Rest(w', m) == Rest(w, all)
  {
    FrontTwice(w, n, m);
    RestTwice(w, n, m, all);
  }

  lemma NothingLeft(w: Waiting)
    ensures Rest(w, 0) == w
  {
    NothingTaken(Work(w, 0, Pending(map[], map[], map[], map[]), map[]), 0, 0);
  }

  /** A drain that a pause interrupts, any number of times and for any number of
      calls, takes the first items in order, and expects next what it would have
      had it not been interrupted. */
  lemma {:induction false} InterruptedDrain(c: Client, s: S.Store, g: Settings, slots: nat, turns: seq<Turn>)
    requires Unfailed(c, s, g, |turns|) && 0 < slots
    ensures var (c', t, items) := Taking(c, s, g, slots, turns);
      Took(c, s.work.queue, c', t.work.queue, items, 0 < Open(turns))
    decreases |turns|
  {
    if turns == [] {
      NothingLeft(s.work.queue);
    } else {
      var (c', t, b) := Dequeue(c, AtTurn(s, turns[0]), g, slots, Answered, turns[0].now);
      OneTurn(c, s, g, slots, turns[0]);
      InterruptedDrain(c', t, g, slots, turns[1..]);
      var (c'', u, items) := Taking(c', t, g, slots, turns[1..]);
      TookThen(c, s.work.queue, c', t.work.queue, b.items, !turns[0].paused,
               c'', u.work.queue, items, 0 < Open(turns[1..]), b.items + items);
    }
  }

  /** Calls of an object that knows the length: each that is not refused takes all it
      has room for. */
  lemma {:induction false} KnownLength(c: Client, s: S.Store, g: Settings, slots: nat, turns: seq<Turn>, l: nat)
    requires Unfailed(c, s, g, |turns|) && 0 < slots && 0 < l && c.popLen == Len(s.work.queue) == l
    requires Rounds(l, Limit(slots)) <= Open(turns)
    ensures |Taking(c, s, g, slots, turns).2| == l
    decreases |turns|
  {
    assert turns != [];
    var (c', t, b) := Dequeue(c, AtTurn(s, turns[0]), g, slots, Answered, turns[0].now);
    OneTurn(c, s, g, slots, turns[0]);
    var left := l - |b.items|;
    assert Len(t.work.queue) == left;
    if turns[0].paused {
      KnownLength(c', t, g, slots, turns[1..], l);
    } else if 0 < left {
      assert |b.items| == Min(Limit(slots), l);
      KnownLength(c', t, g, slots, turns[1..], left);
    } else {
      InterruptedDrain(c', t, g, slots, turns[1..]);
    }
  }

  /** So 1 + ceil((L - 1) / k) calls that are not refused empty a queue of L, and
      leave the object expecting the items taken since it was last seen empty. */
  lemma InterruptedDrainEnds(c: Client, s: S.Store, g: Settings, slots: nat, turns: seq<Turn>)
    requires Unfailed(c, s, g, |turns|) && 0 < slots && 0 < Len(s.work.queue)
    requires 1 + Ceil(Len(s.work.queue) - 1, Limit(slots)) <= Open(turns)
    ensures var (c', t, items) := Taking(c, s, g, slots, turns); var l := Len(s.work.queue);
      items == FrontItems(s.work.queue, l) && Len(t.work.queue) == 0 && c'.popLen == c.popRun + l && c'.popRun == 0
  {
    InterruptedDrain(c, s, g, slots, turns);
    EnoughTurns(c, s, g, slots, turns);
  }

  lemma EnoughTurns(c: Client, s: S.Store, g: Settings, slots: nat, turns: seq<Turn>)
    requires Unfailed(c, s, g, |turns|) && 0 < slots && 0 < Len(s.work.queue)
    requires 1 + Ceil(Len(s.work.queue) - 1, Limit(slots)) <= Open(turns)
    ensures |Taking(c, s, g, slots, turns).2| == Len(s.work.queue)
  {
    RoundsIsCeil(Len(s.work.queue) - 1, Limit(slots));
    AllTaken(c, s, g, slots, turns, Len(s.work.queue) - 1);
  }

  lemma {:induction false} AllTaken(c: Client, s: S.Store, g: Settings, slots: nat, turns: seq<Turn>, most: nat)
    requires Unfailed(c, s, g, |turns|) && 0 < slots && Len(s.work.queue) == most + 1
    requires 1 + Rounds(most, Limit(slots)) <= Open(turns)
    ensures |Taking(c, s, g, slots, turns).2| == most + 1
    decreases |turns|
  {
    var (c', t, b) := Dequeue(c, AtTurn(s, turns[0]), g, slots, Answered, turns[0].now);
    OneTurn(c, s, g, slots, turns[0]);
    if turns[0].paused {
      AllTaken(c', t, g, slots, turns[1..], most);
    } else {
      assert Len(t.work.queue) == most + 1 - |b.items| && 1 <= |b.items|;
      RestTaken(c', t, g, slots, turns[1..], most);
    }
  }

  lemma RestTaken(c: Client, s: S.Store, g: Settings, slots: nat, turns: seq<Turn>, most: nat)
    requires Unfailed(c, s, g, |turns|) && 0 < slots && Len(s.work.queue) <= most
    requires 0 < Len(s.work.queue) ==> c.popLen == Len(s.work.queue)
    requires Rounds(most, Limit(slots)) <= Open(turns)
    ensures |Taking(c, s, g, slots, turns).2| == Len(s.work.queue)
  {
    RoundsGrow(Len(s.work.queue), most, Limit(slots));
    InterruptedDrain(c, s, g, slots, turns);
    if 0 < Len(s.work.queue) {
      KnownLength(c, s, g, slots, turns, Len(s.work.queue));
    }
  }
}

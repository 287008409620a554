/** Ack ID reservations of one queue object under any interleaving of its
    goroutines: the atomic Swap, CompareAndSwap and Add steps of `reserve`, and
    what a call does with its reservation when it returns. */
module Reservations {
  import opened ByteStrings
  import opened AckIds
  import opened Store

  datatype Reservation = Reservation(start: nat, want: nat)

  /** Where a call stands between two of its atomic steps. */
  datatype Phase =
    | Entering(limit: nat, want: nat)                          // about to swap retryPop for nil
    | PuttingBack(limit: nat, want: nat, kept: Reservation)    // no room for it: about to CAS it back
    | Numbering(limit: nat, want: nat)                         // about to add 1 to ackSeq
    | Sending(limit: nat, sent: Reservation)                   // the pop is on its way
    | Failing(failed: Reservation)                             // about to CAS it into retryPop

  /** slot is retryPop; handed lists the reservations whose IDs went to callers,
      sent holds those a pop was sent under, and ran lists those under which Redis
      ran one, in that order. */
  datatype Shared = Shared(slot: Option<Reservation>, ackSeq: nat, calls: map<nat, Phase>, handed: seq<Reservation>,
                           sent: set<Reservation>, ran: seq<Reservation>)

  datatype Step =
    | Enter(call: nat, limit: nat, want: nat)
    | SwapOut(call: nat)
    | PutBack(call: nat)
    | AddOne(call: nat)
    | Succeed(call: nat)
    | Fail(call: nat)
    | Keep(call: nat)
    | RunPop(call: nat)                  // Redis runs the pop a call waits for
    | RunLate(call: nat, r: Reservation) // a copy of a pop sent before arrives late

  function Initial(): Shared {
    Shared(None, 0, map[], [], {}, [])
  }

  function HeldBy(p: Phase): Option<Reservation> {
    match p
    case PuttingBack(_, _, r) => Some(r)
    case Sending(_, r) => Some(r)
    case Failing(r) => Some(r)
    case _ => None
  }

  /** CompareAndSwap(nil, r): a slot that is taken stays, and r is dropped. */
  function Swapped(slot: Option<Reservation>, r: Reservation): Option<Reservation> {
    if slot.None? then Some(r) else slot
  }

  /** One atomic step; a step whose call is not at that point does nothing. */
  function Next(s: Shared, step: Step): Shared {
    var c := step.call;
    if step.Enter? then
      if c in s.calls || step.want < 1 || step.limit < step.want then s
      else s.(calls := s.calls[c := Entering(step.limit, step.want)])
    else if step.RunLate? then
      if step.r in s.sent then s.(ran := s.ran + [step.r]) else s
    else if c !in s.calls then s
    else
      match (step, s.calls[c])
      case (SwapOut(_), Entering(limit, want)) =>
        if s.slot.Some? && s.slot.value.want > limit then
          s.(slot := None, calls := s.calls[c := PuttingBack(limit, want, s.slot.value)])
        else if s.slot.Some? then
          s.(slot := None, calls := s.calls[c := Sending(limit, s.slot.value)], sent := s.sent + {s.slot.value})
        else s.(calls := s.calls[c := Numbering(limit, want)])
      case (PutBack(_), PuttingBack(limit, want, r)) =>
        s.(slot := Swapped(s.slot, r), calls := s.calls[c := Numbering(limit, want)])
      case (AddOne(_), Numbering(limit, want)) =>
        var r := Reservation(s.ackSeq + 1, want);
        s.(ackSeq := s.ackSeq + 1, calls := s.calls[c := Sending(limit, r)], sent := s.sent + {r})
      case (Succeed(_), Sending(_, r)) => s.(calls := s.calls - {c}, handed := s.handed + [r])
      case (Fail(_), Sending(_, r)) => s.(calls := s.calls[c := Failing(r)])
      case (RunPop(_), Sending(_, r)) => s.(ran := s.ran + [r])
      case (Keep(_), Failing(r)) => s.(slot := Swapped(s.slot, r), calls := s.calls - {c})
      case _ => s
  }

  function Interleave(s: Shared, steps: seq<Step>): Shared
    decreases |steps|
  {
    if steps == [] then s else Interleave(Next(s, steps[0]), steps[1..])
  }

  predicate Holds(s: Shared, c: nat, start: nat) {
    c in s.calls && HeldBy(s.calls[c]).Some? && HeldBy(s.calls[c]).value.start == start
  }

  predicate InSlot(s: Shared, start: nat) {
    s.slot.Some? && s.slot.value.start == start
  }

  predicate Handed(s: Shared, i: nat, start: nat) {
    i < |s.handed| && s.handed[i].start == start
  }

  /** A reservation number is in one place: the slot, one call, or one return. */
  ghost predicate OneHolder(s: Shared) {
    && (forall c: nat, start: nat :: Holds(s, c, start) ==> 1 <= start <= s.ackSeq && !InSlot(s, start))
    && (forall c: nat, c': nat, start: nat :: Holds(s, c, start) && Holds(s, c', start) ==> c == c')
    && (forall c: nat, i: nat, start: nat :: Holds(s, c, start) ==> !Handed(s, i, start))
    && (forall i: nat, start: nat :: Handed(s, i, start) ==> 1 <= start <= s.ackSeq && !InSlot(s, start))
    && (forall i: nat, j: nat, start: nat :: Handed(s, i, start) && Handed(s, j, start) ==> i == j)
    && (s.slot.Some? ==> 1 <= s.slot.value.start <= s.ackSeq)
  }

  /** A call sends only reservations it has room for. */
  predicate RoomForSent(s: Shared) {
    forall c :: c in s.calls ==>
      && (s.calls[c].Sending? ==> s.calls[c].sent.want <= s.calls[c].limit)
      && (s.calls[c].Entering? ==> s.calls[c].want <= s.calls[c].limit)
      && (s.calls[c].PuttingBack? ==> s.calls[c].want <= s.calls[c].limit < s.calls[c].kept.want)
      && (s.calls[c].Numbering? ==> s.calls[c].want <= s.calls[c].limit)
  }

  lemma RoomStep(s: Shared, step: Step)
    requires RoomForSent(s)
    ensures RoomForSent(Next(s, step))
  {}

  lemma OneHolderStep(s: Shared, step: Step)
    requires OneHolder(s)
    ensures OneHolder(Next(s, step))
  {
    var (t, k) := (Next(s, step), step.call);
    assert forall c: nat, start: nat :: c != k ==> (Holds(t, c, start) <==> Holds(s, c, start));
    if step.AddOne? && t != s {
      assert forall start: nat :: Holds(t, k, start) <==> start == s.ackSeq + 1;
      assert forall start: nat :: InSlot(t, start) <==> InSlot(s, start);
      assert forall i: nat, start: nat :: Handed(t, i, start) <==> Handed(s, i, start);
    } else if step.SwapOut? && s.slot.Some? && t != s {
      assert forall start: nat :: Holds(t, k, start) <==> InSlot(s, start);
      assert forall i: nat, start: nat :: Handed(t, i, start) <==> Handed(s, i, start);
      assert InSlot(s, s.slot.value.start);
    } else if step.Succeed? && t != s {
      var r := s.calls[k].sent;
      assert Holds(s, k, r.start);
      assert forall start: nat :: !Holds(t, k, start);
      assert forall i: nat, start: nat ::
        Handed(t, i, start) <==> Handed(s, i, start) || (i == |s.handed| && start == r.start);
    } else if (step.PutBack? || step.Keep?) && t != s {
      var r := HeldBy(s.calls[k]).value;
      assert Holds(s, k, r.start);
      assert forall start: nat :: !Holds(t, k, start);
      assert forall start: nat :: InSlot(t, start) <==> InSlot(s, start) || (s.slot.None? && start == r.start);
      assert forall i: nat, start: nat :: Handed(t, i, start) <==> Handed(s, i, start);
    } else {
      assert forall start: nat :: Holds(t, k, start) <==> Holds(s, k, start);
      assert forall i: nat, start: nat :: Handed(t, i, start) <==> Handed(s, i, start);
      assert t.slot == s.slot;
    }
  }

  lemma {:induction false} OneHolderAlways(s: Shared, steps: seq<Step>)
    requires OneHolder(s) && RoomForSent(s)
    ensures OneHolder(Interleave(s, steps)) && RoomForSent(Interleave(s, steps))
    decreases |steps|
  {
    if steps != [] {
      OneHolderStep(s, steps[0]);
      RoomStep(s, steps[0]);
      OneHolderAlways(Next(s, steps[0]), steps[1..]);
    }
  }

  /** Under any interleaving, a reservation is in the retryPop slot or with one
      call, never both, and with no other call; and one that is sent again is
      sent by a call with room for it. */
  lemma HeldOnce(steps: seq<Step>, c: nat, c': nat, start: nat)
    ensures var s := Interleave(Initial(), steps);
      && (Holds(s, c, start) ==> !InSlot(s, start))
      && (Holds(s, c, start) && Holds(s, c', start) ==> c == c')
      && (c in s.calls && s.calls[c].Sending? ==> s.calls[c].sent.want <= s.calls[c].limit)
  {
    OneHolderAlways(Initial(), steps);
  }

  /** No ack ID is ever returned to two callers. */
  lemma NoIdTwice(steps: seq<Step>, owner: Owner, i: nat, j: nat)
    requires IsOwner(owner)
    requires var s := Interleave(Initial(), steps);
      i < j < |s.handed| && s.ackSeq < UINT64_LIMIT && s.handed[i].want <= MAX_POP && s.handed[j].want <= MAX_POP
    ensures var s := Interleave(Initial(), steps);
      forall id :: id in AckIdsOf(owner, s.handed[i].start, s.handed[i].want)
                   ==> id !in AckIdsOf(owner, s.handed[j].start, s.handed[j].want)
  {
    OneHolderAlways(Initial(), steps);
    var s := Interleave(Initial(), steps);
    assert Handed(s, i, s.handed[i].start) && Handed(s, j, s.handed[j].start);
    AckIdsDisjoint(owner, s.handed[i].start, s.handed[i].want, owner, s.handed[j].start, s.handed[j].want);
  }

  // ---- no number is forgotten ----

  /** A reservation goes into a slot that is taken: the step drops it. */
  function DroppedBy(s: Shared, step: Step): set<nat> {
    if (step.Keep? || step.PutBack?) && step.call in s.calls && s.slot.Some? then
      match (step, s.calls[step.call])
      case (Keep(_), Failing(r)) => {r.start}
      case (PutBack(_), PuttingBack(_, _, r)) => {r.start}
      case _ => {}
    else {}
  }

  function DroppedOver(s: Shared, dropped: set<nat>, steps: seq<Step>): set<nat>
    decreases |steps|
  {
    if steps == [] then dropped else DroppedOver(Next(s, steps[0]), dropped + DroppedBy(s, steps[0]), steps[1..])
  }

  ghost predicate Somewhere(s: Shared, n: nat, dropped: set<nat>) {
    || InSlot(s, n) || n in dropped
    || (exists c: nat :: Holds(s, c, n))
    || (exists i: nat :: Handed(s, i, n))
  }

  lemma SomewhereStep(s: Shared, step: Step, n: nat, dropped: set<nat>)
    requires Somewhere(s, n, dropped)
    ensures Somewhere(Next(s, step), n, dropped + DroppedBy(s, step))
  {
    var (t, k) := (Next(s, step), step.call);
    if c: nat :| Holds(s, c, n) {
      if c != k {
        assert Holds(t, c, n);
      } else if step.Succeed? && s.calls[k].Sending? {
        assert Handed(t, |s.handed|, n);
      } else if (step.Keep? && s.calls[k].Failing?) || (step.PutBack? && s.calls[k].PuttingBack?) {
        assert InSlot(t, n) || n in DroppedBy(s, step);
      } else {
        assert Holds(t, k, n);
      }
    } else if i: nat :| Handed(s, i, n) {
      assert Handed(t, i, n);
    } else if InSlot(s, n) {
      assert InSlot(t, n) || Holds(t, k, n);
    }
  }

  ghost predicate NoneForgotten(s: Shared, dropped: set<nat>) {
    forall n: nat :: 1 <= n <= s.ackSeq ==> Somewhere(s, n, dropped)
  }

  lemma NumbersStep(s: Shared, step: Step, dropped: set<nat>)
    requires NoneForgotten(s, dropped)
    ensures NoneForgotten(Next(s, step), dropped + DroppedBy(s, step))
  {
    var t := Next(s, step);
    forall n: nat | 1 <= n <= t.ackSeq ensures Somewhere(t, n, dropped + DroppedBy(s, step)) {
      if n <= s.ackSeq {
        SomewhereStep(s, step, n, dropped);
      } else {
        assert Holds(t, step.call, n);
      }
    }
  }

  lemma {:induction false} NumbersEver(s: Shared, dropped: set<nat>, steps: seq<Step>)
    requires NoneForgotten(s, dropped)
    ensures NoneForgotten(Interleave(s, steps), DroppedOver(s, dropped, steps))
    decreases |steps|
  {
    if steps != [] {
      NumbersStep(s, steps[0], dropped);
      NumbersEver(Next(s, steps[0]), dropped + DroppedBy(s, steps[0]), steps[1..]);
    }
  }

  /** Under any interleaving every number ever drawn is kept in the slot, with a
      call or returned to a caller, or was dropped because the slot was taken. */
  lemma NoNumberForgotten(steps: seq<Step>, n: nat)
    requires 1 <= n <= Interleave(Initial(), steps).ackSeq
    ensures Somewhere(Interleave(Initial(), steps), n, DroppedOver(Initial(), {}, steps))
  {
    NumbersEver(Initial(), {}, steps);
  }

  // ---- a reservation keeps its size ----

  /** sizes records what each number was handed out for. */
  ghost predicate SizesKept(s: Shared, sizes: map<nat, nat>) {
    && (forall n :: n in sizes ==> n <= s.ackSeq)
    && (s.slot.Some? ==> s.slot.value.start in sizes && sizes[s.slot.value.start] == s.slot.value.want)
    && (forall c :: c in s.calls && HeldBy(s.calls[c]).Some? ==>
          && HeldBy(s.calls[c]).value.start in sizes
          && sizes[HeldBy(s.calls[c]).value.start] == HeldBy(s.calls[c]).value.want)
    && (forall i :: 0 <= i < |s.handed| ==> s.handed[i].start in sizes && sizes[s.handed[i].start] == s.handed[i].want)
  }

  function Sizes(s: Shared, sizes: map<nat, nat>, step: Step): map<nat, nat> {
    if step.AddOne? && step.call in s.calls && s.calls[step.call].Numbering? then
      sizes[s.ackSeq + 1 := s.calls[step.call].want]
    else sizes
  }

  /** Each number, once handed out, is for one size for good: a re-sent or a kept
      pop always asks under the same IDs. */
  lemma SizesStep(s: Shared, sizes: map<nat, nat>, step: Step)
    requires SizesKept(s, sizes)
    ensures SizesKept(Next(s, step), Sizes(s, sizes, step))
    ensures forall n :: n in sizes ==> n in Sizes(s, sizes, step) && Sizes(s, sizes, step)[n] == sizes[n]
  {}

  lemma {:induction false} SizesAlways(s: Shared, sizes: map<nat, nat>, steps: seq<Step>) returns (later: map<nat, nat>)
    requires SizesKept(s, sizes)
    ensures SizesKept(Interleave(s, steps), later)
    ensures forall n :: n in sizes ==> n in later && later[n] == sizes[n]
    decreases |steps|
  {
    if steps == [] {
      later := sizes;
    } else {
      SizesStep(s, sizes, steps[0]);
      later := SizesAlways(Next(s, steps[0]), Sizes(s, sizes, steps[0]), steps[1..]);
    }
  }

  predicate Sends(s: Shared, c: nat, r: Reservation) {
    c in s.calls && s.calls[c].Sending? && s.calls[c].sent == r
  }

  /** However far apart, two sends under one reservation number are for the same
      IDs: what re-send safety takes for granted of a call. */
  lemma SentSizeFixed(steps: seq<Step>, more: seq<Step>, c: nat, r: Reservation, c': nat, r': Reservation)
    requires Sends(Interleave(Initial(), steps), c, r)
    requires Sends(Interleave(Interleave(Initial(), steps), more), c', r') && r.start == r'.start
    ensures r == r'
  {
    var sizes := SizesAlways(Initial(), map[], steps);
    var later := SizesAlways(Interleave(Initial(), steps), sizes, more);
  }

  // ---- the order of IDs and the order of pops ----

  /** Every pop that ran was sent, under a number handed out. */
  predicate SentKnown(s: Shared) {
    && (forall r :: r in s.sent ==> 1 <= r.start <= s.ackSeq)
    && (forall i :: 0 <= i < |s.ran| ==> s.ran[i] in s.sent)
    && (forall c :: c in s.calls && s.calls[c].Sending? ==> s.calls[c].sent in s.sent)
  }

  lemma SentKnownStep(s: Shared, step: Step)
    requires OneHolder(s) && SentKnown(s)
    ensures SentKnown(Next(s, step))
    ensures s.ackSeq <= Next(s, step).ackSeq <= s.ackSeq + 1 && s.ran <= Next(s, step).ran
  {
    assert s.slot.Some? ==> 1 <= s.slot.value.start <= s.ackSeq;
  }

  lemma {:induction false} SentKnownAlways(s: Shared, steps: seq<Step>)
    requires OneHolder(s) && SentKnown(s)
    ensures OneHolder(Interleave(s, steps)) && SentKnown(Interleave(s, steps))
    ensures s.ackSeq <= Interleave(s, steps).ackSeq && s.ran <= Interleave(s, steps).ran
    decreases |steps|
  {
    if steps != [] {
      OneHolderStep(s, steps[0]);
      SentKnownStep(s, steps[0]);
      SentKnownAlways(Next(s, steps[0]), steps[1..]);
    }
  }

  /** Where things stood when the number was about to be drawn. */
  function BeforeDraw(s: Shared, steps: seq<Step>, start: nat): Shared
    decreases |steps|
  {
    if steps == [] || start <= Next(s, steps[0]).ackSeq then s
    else BeforeDraw(Next(s, steps[0]), steps[1..], start)
  }

  lemma {:induction false} DrawnNext(s: Shared, steps: seq<Step>, start: nat)
    requires OneHolder(s) && SentKnown(s) && s.ackSeq < start <= Interleave(s, steps).ackSeq
    ensures BeforeDraw(s, steps, start).ackSeq + 1 == start
    decreases |steps|
  {
    OneHolderStep(s, steps[0]);
    SentKnownStep(s, steps[0]);
    if Next(s, steps[0]).ackSeq < start {
      DrawnNext(Next(s, steps[0]), steps[1..], start);
    }
  }

  /** Of two pops under different reservations, in the order Redis ran them, the
      earlier one's IDs sort first exactly when the later one's number had not been
      drawn when the earlier one's was: whatever goroutines are in flight, whatever
      was kept, and with copies that arrive late. */
  lemma RanInDrawOrder(steps: seq<Step>, owner: Owner, i: nat, j: nat, a: nat, b: nat)
    requires var s := Interleave(Initial(), steps);
      && i < j < |s.ran| && s.ran[i].start != s.ran[j].start && s.ackSeq < UINT64_LIMIT && a <= MAX_POP && b <= MAX_POP
    ensures var s := Interleave(Initial(), steps); var (r, r') := (s.ran[i], s.ran[j]);
      Lex(AckId(owner, r.start, a), AckId(owner, r'.start, b))
      <==> !(r'.start <= BeforeDraw(Initial(), steps, r.start).ackSeq)
  {
    SentKnownAlways(Initial(), steps);
    var s := Interleave(Initial(), steps);
    assert s.ran[i] in s.sent && s.ran[j] in s.sent;
    DrawnNext(Initial(), steps, s.ran[i].start);
    AckIdOrder(owner, s.ran[i].start, a, s.ran[j].start, b);
  }

  /** The reservation is in the slot or with a call. */
  ghost predicate Alive(s: Shared, start: nat) {
    InSlot(s, start) || exists c: nat :: Holds(s, c, start)
  }

  predicate NoneLate(steps: seq<Step>) {
    forall i :: 0 <= i < |steps| ==> !steps[i].RunLate?
  }

  /** A number that is neither never comes back, and no call runs under it. */
  lemma GoneStep(s: Shared, step: Step, start: nat)
    requires OneHolder(s) && !Alive(s, start) && start <= s.ackSeq && !step.RunLate?
    ensures !Alive(Next(s, step), start)
    ensures forall i :: |s.ran| <= i < |Next(s, step).ran| ==> Next(s, step).ran[i].start != start
  {
    var (t, k) := (Next(s, step), step.call);
    assert !InSlot(s, start) && !Holds(s, k, start);
    forall c: nat ensures !Holds(t, c, start) {
      assert !Holds(s, c, start);
    }
  }

  lemma {:induction false} GoneStays(s: Shared, steps: seq<Step>, start: nat)
    requires OneHolder(s) && SentKnown(s) && !Alive(s, start) && start <= s.ackSeq && NoneLate(steps)
    ensures forall i :: |s.ran| <= i < |Interleave(s, steps).ran| ==> Interleave(s, steps).ran[i].start != start
    decreases |steps|
  {
    if steps != [] {
      var t := Next(s, steps[0]);
      GoneStep(s, steps[0], start);
      OneHolderStep(s, steps[0]);
      SentKnownStep(s, steps[0]);
      SentKnownAlways(t, steps[1..]);
      GoneStays(t, steps[1..], start);
    }
  }

  /** A pop that runs later under a number drawn before was under way then. */
  lemma {:induction false} LaterWasAlive(s: Shared, steps: seq<Step>, i: nat, j: nat)
    requires OneHolder(s) && SentKnown(s) && NoneLate(steps)
    requires var u := Interleave(s, steps);
      |s.ran| <= i < j < |u.ran| && s.ackSeq < u.ran[i].start <= u.ackSeq
      && u.ran[j].start <= BeforeDraw(s, steps, u.ran[i].start).ackSeq
    ensures var u := Interleave(s, steps); Alive(BeforeDraw(s, steps, u.ran[i].start), u.ran[j].start)
    decreases |steps|
  {
    var (u, t) := (Interleave(s, steps), Next(s, steps[0]));
    if u.ran[i].start <= t.ackSeq {
      if !Alive(s, u.ran[j].start) {
        GoneStays(s, steps, u.ran[j].start);
        assert false;
      }
    } else {
      OneHolderStep(s, steps[0]);
      SentKnownStep(s, steps[0]);
      SentKnownAlways(t, steps[1..]);
      assert forall k :: 0 <= k < |t.ran| ==> u.ran[k] == t.ran[k] && u.ran[k].start <= t.ackSeq;
      LaterWasAlive(t, steps[1..], i, j);
    }
  }

  /** When no copy arrives after its call returned, the earlier pop's IDs sort first
      exactly when the later one's reservation was neither kept in the slot nor with
      another call when the earlier one's number was drawn. */
  lemma RanInOrder(steps: seq<Step>, owner: Owner, i: nat, j: nat, a: nat, b: nat)
    requires NoneLate(steps)
    requires var s := Interleave(Initial(), steps);
      && i < j < |s.ran| && s.ran[i].start != s.ran[j].start && s.ackSeq < UINT64_LIMIT && a <= MAX_POP && b <= MAX_POP
    ensures var s := Interleave(Initial(), steps); var (r, r') := (s.ran[i], s.ran[j]);
      Lex(AckId(owner, r.start, a), AckId(owner, r'.start, b))
      <==> !Alive(BeforeDraw(Initial(), steps, r.start), r'.start)
  {
    RanInDrawOrder(steps, owner, i, j, a, b);
    SentKnownAlways(Initial(), steps);
    var s := Interleave(Initial(), steps);
    assert s.ran[i] in s.sent && s.ran[j] in s.sent;
    var d := BeforeDraw(Initial(), steps, s.ran[i].start);
    BeforeDrawHolds(Initial(), steps, s.ran[i].start);
    if s.ran[j].start <= d.ackSeq {
      LaterWasAlive(Initial(), steps, i, j);
    }
  }

  lemma {:induction false} BeforeDrawHolds(s: Shared, steps: seq<Step>, start: nat)
    requires OneHolder(s)
    ensures OneHolder(BeforeDraw(s, steps, start))
    decreases |steps|
  {
    if steps != [] && Next(s, steps[0]).ackSeq < start {
      OneHolderStep(s, steps[0]);
      BeforeDrawHolds(Next(s, steps[0]), steps[1..], start);
    }
  }

  /** Two calls with no failure, the second of which Redis runs first: nothing is
      ever kept, and the later pop's IDs sort first. */
  function TwoInFlight(): seq<Step> {
    [Enter(0, 1, 1), Enter(1, 1, 1), SwapOut(0), AddOne(0), SwapOut(1), AddOne(1), RunPop(1), RunPop(0)]
  }

  function TwoAfter(calls: map<nat, Phase>, ackSeq: nat, sent: set<Reservation>, ran: seq<Reservation>): Shared {
    Shared(None, ackSeq, calls, [], sent, ran)
  }

  function BothEntering(): Shared {
    TwoAfter(map[0 := Entering(1, 1), 1 := Entering(1, 1)], 0, {}, [])
  }

  function BothSending(ran: seq<Reservation>): Shared {
    var (one, two) := (Reservation(1, 1), Reservation(2, 1));
    TwoAfter(map[0 := Sending(1, one), 1 := Sending(1, two)], 2, {one, two}, ran)
  }

  lemma BothDraw()
    ensures Interleave(BothEntering(), [SwapOut(0), AddOne(0), SwapOut(1), AddOne(1)]) == BothSending([])
  {
    var steps := [SwapOut(0), AddOne(0), SwapOut(1), AddOne(1)];
    var one := Reservation(1, 1);
    var t := TwoAfter(map[0 := Sending(1, one), 1 := Entering(1, 1)], 1, {one}, []);
    TwoSteps(BothEntering(), steps, t);
    TwoSteps(t, steps[2..], BothSending([]));
  }

  lemma SecondRuns()
    ensures Interleave(BothSending([]), [RunPop(1), RunPop(0)]) == BothSending([Reservation(2, 1), Reservation(1, 1)])
  {
    TwoSteps(BothSending([]), [RunPop(1), RunPop(0)], BothSending([Reservation(2, 1), Reservation(1, 1)]));
  }

  lemma {:induction false} InterleaveConcat(s: Shared, steps: seq<Step>, more: seq<Step>)
    ensures Interleave(s, steps + more) == Interleave(Interleave(s, steps), more)
    decreases |steps|
  {
    if steps == [] {
      assert steps + more == more;
    } else {
      assert (steps + more)[1..] == steps[1..] + more;
      InterleaveConcat(Next(s, steps[0]), steps[1..], more);
    }
  }

  lemma InFlightOutOfOrder(owner: Owner)
    ensures var s := Interleave(Initial(), TwoInFlight());
      && s.slot.None? && s.ran == [Reservation(2, 1), Reservation(1, 1)]
      && Lex(AckId(owner, s.ran[1].start, 1), AckId(owner, s.ran[0].start, 1))
  {
    var (enter, draw, run) :=
      ([Enter(0, 1, 1), Enter(1, 1, 1)], [SwapOut(0), AddOne(0), SwapOut(1), AddOne(1)], [RunPop(1), RunPop(0)]);
    assert TwoInFlight() == enter + (draw + run);
    InterleaveConcat(Initial(), enter, draw + run);
    InterleaveConcat(BothEntering(), draw, run);
    TwoSteps(Initial(), enter, BothEntering());
    BothDraw();
    SecondRuns();
    AckIdOrder(owner, 1, 1, 2, 1);
  }

  lemma TwoSteps(s: Shared, steps: seq<Step>, t: Shared)
    requires |steps| >= 2 && Next(Next(s, steps[0]), steps[1]) == t
    ensures Interleave(s, steps) == Interleave(t, steps[2..])
  {
    assert steps[1..][1..] == steps[2..];
  }
}

/** What a caller may count on: while its process sweeps in time, an item it
    popped is its own until the item's deadline. */
module Possession {
  import opened ByteStrings
  import opened SortedSets
  import opened AckIds
  import opened Store
  import opened Runs
  import opened Effects
  import opened PendingKeys
  import opened Orphans
  import opened Resend
  import opened FailureDetector

  /** The call comes before the deadline, and does not finish the item, close its
      owner, purge the queue or requeue every pending item. */
  predicate Leaves(e: Event, id: Id, a: Owner, dl: int) {
    && e.now < dl
    && !(e.call.Settle? && e.call.id == id)
    && !(e.call.CloseBy? && e.call.me == a)
    && !(e.call.RequeueExpired? && e.call.visibility <= 0)
    && !e.call.PurgeAll?
  }

  /** Pending under its ID, and not due before dl. */
  predicate HeldTo(w: Work, id: Id, dl: int) {
    id in w.pending.nacked && id in w.pending.timeouts && dl <= w.pending.timeouts[id]
  }

  lemma NotDue(envid: Bytes -> Bytes, w: Work, id: Id, dl: int, now: int)
    requires HeldTo(w, id, dl) && now < dl
    ensures id in MoveAll(envid, w, UpTo(w.pending.timeouts, now)).pending.nacked
  {
    UpToMembers(w.pending.timeouts, now);
    MoveAllNacked(envid, w, UpTo(w.pending.timeouts, now));
  }

  lemma StaysInStep(envid: Bytes -> Bytes, s: Store, e: Event, a: Owner, id: Id, dl: int)
    requires Proper(s, e) && OwnerOf(id) == a && HeldTo(s.work, id, dl) && Leaves(e, id, a, dl) && a !in DeadIn(s, e)
    ensures id in Apply(envid, s, e).work.pending.nacked
  {
    WorkOf(envid, s, e);
    match e.call
    case PopBy(_, _) => KeptStep(envid, s, e, id);
    case RequeueExpired(_, _) => NotDue(envid, s.work, id, dl, e.now);
    case CloseBy(me) => ReleasedNacked(envid, s.work, me);
    case SweepBy(_, _) => SweptNacked(envid, s.work, DeadIn(s, e), e.now);
    case _ =>
  }

  lemma HeldStep(envid: Bytes -> Bytes, s: Store, e: Event, a: Owner, t: int, id: Id, dl: int)
    requires Proper(s, e) && OwnerOf(id) == a && HeldTo(s.work, id, dl) && Leaves(e, id, a, dl)
    requires Fresh(s.owners, a, t) && t <= e.now && Steady(e.call, a)
    requires e.call.SweepBy? && e.call.me != a ==> OnTime(s.owners, e.now, t)
    ensures HeldTo(Apply(envid, s, e).work, id, dl)
    ensures Apply(envid, s, e).work.pending.nacked[id] == s.work.pending.nacked[id]
    ensures Fresh(Apply(envid, s, e).owners, a, LastSweepBy(s.owners, e, a, t))
  {
    FreshStep(envid, s, e, a, t);
    StaysInStep(envid, s, e, a, id, dl);
    KeptStep(envid, s, e, id);
  }

  /** A fresh owner's pending item stays so in every state of such a run. */
  lemma {:induction false} HeldRun(envid: Bytes -> Bytes, s: Store, es: seq<Event>, a: Owner, t: int, id: Id, dl: int)
    requires ProperRun(envid, s, es) && Fresh(s.owners, a, t) && Punctual(envid, s, es, a, t)
    requires OwnerOf(id) == a && HeldTo(s.work, id, dl) && forall i :: 0 <= i < |es| ==> Leaves(es[i], id, a, dl)
    ensures StayPending(envid, s, es, [id])
    ensures HeldTo(Run(envid, s, es).work, id, dl)
    ensures Run(envid, s, es).work.pending.nacked[id] == s.work.pending.nacked[id]
    decreases |es|
  {
    if es != [] {
      HeldStep(envid, s, es[0], a, t, id, dl);
      HeldRun(envid, Apply(envid, s, es[0]), es[1..], a, LastSweepBy(s.owners, es[0], a, t), id, dl);
    }
  }

  /** A punctual owner is fresh, and punctual from there, at every step. */
  lemma {:induction false} FreshAfter(envid: Bytes -> Bytes, s: Store, es: seq<Event>, fs: seq<Event>, a: Owner, t: int)
    returns (t': int)
    requires ProperRun(envid, s, es + fs) && Fresh(s.owners, a, t) && Punctual(envid, s, es + fs, a, t)
    ensures Fresh(Run(envid, s, es).owners, a, t') && Punctual(envid, Run(envid, s, es), fs, a, t')
    decreases |es|
  {
    if es == [] {
      assert es + fs == fs;
      t' := t;
    } else {
      assert (es + fs)[1..] == es[1..] + fs;
      FreshStep(envid, s, es[0], a, t);
      t' := FreshAfter(envid, Apply(envid, s, es[0]), es[1..], fs, a, LastSweepBy(s.owners, es[0], a, t));
    }
  }

  /** A pop with a timeout that hands out i + 1 items or more, none for the second
      time. */
  predicate Pops(u: Store, e: Event, i: nat) {
    && e.call.PopBy? && !Resent(u, e.call.pop) && 0 < e.call.pop.visibility && 0 <= e.now
    && i < |HandedOut(u, e.call.pop)|
  }

  predicate AllLeave(es: seq<Event>, id: Id, a: Owner, dl: int) {
    forall i :: 0 <= i < |es| ==> Leaves(es[i], id, a, dl)
  }

  /** From u on, in every state of the run, the item of the ID is pending under it. */
  predicate Keeps(envid: Bytes -> Bytes, u: Store, es: seq<Event>, id: Id, item: Item, dl: int) {
    && StayPending(envid, u, es, [id]) && HeldTo(Run(envid, u, es).work, id, dl)
    && Run(envid, u, es).work.pending.nacked[id] == item
  }

  /** The ID under which a pop hands out its item of index i. */
  lemma HandedId(u: Store, p: Pop, i: nat)
    requires i < |HandedOut(u, p)| && IsOwner(p.owner)
    ensures HandedOut(u, p)[i] == IdsOf(p)[i] && HandedOut(u, p)[i] in HandedOut(u, p)
    ensures OwnerOf(HandedOut(u, p)[i]) == p.owner
  {
    AckIdOwner(p.owner, p.reservation, i + 1);
  }

  lemma JustTaken(u: Store, p: Pop, now: int, i: nat)
    requires Sound(u.work) && !Resent(u, p) && 0 < p.visibility && 0 <= now && i < |HandedOut(u, p)|
    requires IsOwner(p.owner) && p.reservation < UINT64_LIMIT && p.want <= MAX_POP
    ensures var (id, w) := (HandedOut(u, p)[i], WorkAfterPop(u, p, now));
      && HeldTo(w, id, now + p.visibility)
      && w.pending.nacked[id] == FrontItems(u.work.queue, |HandedOut(u, p)|)[i]
  {
    HandedId(u, p, i);
    FreshDeadline(u, p, now, HandedOut(u, p)[i]);
    FreshItem(u, p, now, i);
  }

  lemma FromThePop(envid: Bytes -> Bytes, u: Store, es: seq<Event>, t: int, i: nat)
    requires es != [] && Sound(u.work) && Pops(u, es[0], i) && ProperRun(envid, u, es)
    requires Fresh(u.owners, es[0].call.pop.owner, t) && Punctual(envid, u, es, es[0].call.pop.owner, t)
    requires var p := es[0].call.pop; AllLeave(es[1..], HandedOut(u, p)[i], p.owner, es[0].now + p.visibility)
    ensures var p := es[0].call.pop;
      Keeps(envid, Apply(envid, u, es[0]), es[1..], HandedOut(u, p)[i],
            FrontItems(u.work.queue, |HandedOut(u, p)|)[i], es[0].now + p.visibility)
  {
    var p := es[0].call.pop;
    FreshStep(envid, u, es[0], p.owner, t);
    WorkOf(envid, u, es[0]);
    HandedId(u, p, i);
    JustTaken(u, p, es[0].now, i);
    HeldRun(envid, Apply(envid, u, es[0]), es[1..], p.owner, LastSweepBy(u.owners, es[0], p.owner, t),
            HandedOut(u, p)[i], es[0].now + p.visibility);
  }

  lemma SoundHere(envid: Bytes -> Bytes, ranked: bool, before: seq<Event>, es: seq<Event>, rest: seq<Event>)
    requires ProperRun(envid, Empty(ranked), before)
    requires ProperRun(envid, Run(envid, Empty(ranked), before), es + rest)
    ensures Sound(Run(envid, Run(envid, Empty(ranked), before), es).work)
    ensures ProperRun(envid, Run(envid, Run(envid, Empty(ranked), before), es), rest)
  {
    var s := Run(envid, Empty(ranked), before);
    EmptyIsSound(ranked);
    SoundRun(envid, Empty(ranked), before);
    RunConcat(envid, s, es, rest);
    SoundRun(envid, s, es);
  }

  /** In every run: an item that a process popped at `now` with timeout vt > 0 is
      pending under its ID in every state of what follows before now + vt, as long
      as the process sweeps in time and none of those calls finishes the item,
      closes the process, purges or requeues everything. A pop hands out what
      waits or what is pending under its own IDs, so nobody else gets the item. */
  lemma PoppedIsHeld(envid: Bytes -> Bytes, ranked: bool, before: seq<Event>, es: seq<Event>, fs: seq<Event>,
                     u: Store, a: Owner, t: int, i: nat)
    requires ProperRun(envid, Empty(ranked), before) && forall j :: 0 <= j < |before| ==> NotBy(before[j].call, a)
    requires ProperRun(envid, Run(envid, Empty(ranked), before), es + fs) && 0 <= t
      && Punctual(envid, Run(envid, Empty(ranked), before), es + fs, a, t)
    requires u == Run(envid, Run(envid, Empty(ranked), before), es)
    requires fs != [] && Pops(u, fs[0], i) && fs[0].call.pop.owner == a
      && AllLeave(fs[1..], HandedOut(u, fs[0].call.pop)[i], a, fs[0].now + fs[0].call.pop.visibility)
    ensures var p := fs[0].call.pop;
      Keeps(envid, Apply(envid, u, fs[0]), fs[1..], HandedOut(u, p)[i],
            FrontItems(u.work.queue, |HandedOut(u, p)|)[i], fs[0].now + p.visibility)
  {
    UnknownRun(envid, Empty(ranked), before, a);
    SoundHere(envid, ranked, before, es, fs);
    var t' := FreshAfter(envid, Run(envid, Empty(ranked), before), es, fs, a, t);
    FromThePop(envid, u, fs, t', i);
  }
}

/** Runs: any sequence of script calls by any number of processes. A re-sent
    call is simply the same call again, at any later step. */
module Runs {
  import opened ByteStrings
  import opened SortedSets
  import opened AckIds
  import opened WaitingQueue
  import opened Store

  /** The three ack pop scripts: popHead, popOneLenHead and popOneHead. */
  datatype PopScript = BatchScript | LeanScript | SingleScript

  datatype Call =
    | Enqueue(item: Item, score: int, wakes: bool, picks: seq<Owner>)
    | EnqueueOnce(key: Bytes, window: int, item: Item, score: int, wakes: bool, picks: seq<Owner>)
    | PopBy(script: PopScript, pop: Pop)
    | Settle(id: Id, outcome: Outcome, reason: Bytes, keep: int, age: int)
    | RequeueExpired(visibility: int, listing: seq<Id>)
    | SweepBy(me: Owner, heartbeat: int)
    | CloseBy(me: Owner)
    | PurgeAll
    | TrimRecords(keepCompleted: int, ageCompleted: int, keepFailed: int, ageFailed: int)
    | LookIdle(consumer: Bytes)
    | NudgeBy(consumer: Bytes, idle: bool)
    | BecomeIdle(consumer: Bytes)
    | Leave(consumer: Bytes)
    | WakeUp(count: int, picks: seq<Owner>)
    | PauseQueue
    | ResumeQueue(picks: seq<Owner>)

  /** A call as Redis runs it: when, and which owners' channels have a subscriber. */
  datatype Event = Event(now: int, subs: set<Owner>, call: Call)

  /** A pop as the client sends it: a reservation of 1 to 1000 IDs, run by a
      one-item script exactly when it is for one. */
  predicate ProperPop(script: PopScript, p: Pop) {
    && IsOwner(p.owner) && p.reservation < UINT64_LIMIT && 1 <= p.want <= MAX_POP
    && (script.BatchScript? <==> p.want > 1)
  }

  function PopStore(s: Store, script: PopScript, p: Pop, now: int): Store {
    match script
    case BatchScript => BatchPop(s, p, now).0
    case LeanScript => LeanPop(s, p, now).0
    case SingleScript => SinglePop(s, p, now).0
  }

  /** Whether a push stores an item: a repeat of a remembered id does not. */
  predicate Stores(s: Store, e: Event) {
    e.call.Enqueue? || (e.call.EnqueueOnce? && !Remembered(s, e.call.key, e.now))
  }

  function Apply(envid: Bytes -> Bytes, s: Store, e: Event): Store {
    var now := e.now;
    match e.call
    case Enqueue(item, score, wakes, picks) =>
      var s' := Push(s, item, score);
      if wakes then WakeIdle(s', picks, e.subs, Len(s'.work.queue)) else s'
    case EnqueueOnce(key, window, item, score, wakes, picks) =>
      var s' := PushOnce(s, key, window, item, score, now);
      if wakes && Stores(s, e) then WakeIdle(s', picks, e.subs, Len(s'.work.queue)) else s'
    case PopBy(script, p) => PopStore(s, script, p, now)
    case Settle(id, outcome, reason, keep, age) => Finish(envid, s, id, outcome, reason, keep, age, now)
    case RequeueExpired(visibility, listing) => RequeueNacked(envid, s, visibility, listing, now)
    case SweepBy(me, heartbeat) => Sweep(envid, s, me, heartbeat, e.subs, now)
    case CloseBy(me) => Release(envid, s, me)
    case PurgeAll => Purge(s)
    case TrimRecords(kc, ac, kf, af) => s.(records := TrimBoth(s.records, kc, ac, kf, af, now))
    case LookIdle(consumer) => LenIdle(s, consumer)
    case NudgeBy(consumer, idle) => Nudge(s, consumer, idle)
    case BecomeIdle(consumer) => s.(idle := s.idle + {consumer})
    case Leave(consumer) => s.(idle := s.idle - {consumer})
    case WakeUp(count, picks) => WakeIdle(s, picks, e.subs, count)
    case PauseQueue => Pause(s, now)
    case ResumeQueue(picks) => Resume(s, picks, e.subs)
  }

  /** picks lists the idle set, in the order SPOP happens to draw it. */
  predicate Draws(picks: seq<Owner>, idle: set<Owner>) {
    && (forall i, j :: 0 <= i < j < |picks| ==> picks[i] != picks[j])
    && Members(picks) == idle
  }

  predicate Lists(listing: seq<Id>, nacked: map<Id, Item>) {
    && (forall i, j :: 0 <= i < j < |listing| ==> listing[i] != listing[j])
    && Members(listing) == nacked.Keys
  }

  /** e is a call Redis can run in s: what SPOP and HKEYS return is there. */
  predicate Proper(s: Store, e: Event) {
    match e.call
    case Enqueue(_, _, _, picks) => Draws(picks, s.idle)
    case EnqueueOnce(_, _, _, _, _, picks) => Draws(picks, s.idle)
    case PopBy(script, p) => ProperPop(script, p)
    case RequeueExpired(_, listing) => Lists(listing, s.work.pending.nacked)
    case SweepBy(me, _) => IsOwner(me)
    case CloseBy(me) => IsOwner(me)
    case WakeUp(_, picks) => Draws(picks, s.idle)
    case ResumeQueue(picks) => Draws(picks, s.idle)
    case _ => true
  }

  function Run(envid: Bytes -> Bytes, s: Store, es: seq<Event>): Store
    decreases |es|
  {
    if es == [] then s else Run(envid, Apply(envid, s, es[0]), es[1..])
  }

  /** Every call of the run is proper, and the sequence counter stays within
      what Lua numbers hold exactly. */
  predicate ProperRun(envid: Bytes -> Bytes, s: Store, es: seq<Event>)
    decreases |es|
  {
    es == [] || (Proper(s, es[0]) && Apply(envid, s, es[0]).work.seqNo < MAX_SEQ
                 && ProperRun(envid, Apply(envid, s, es[0]), es[1..]))
  }

  /** The clock never runs back over the run. */
  predicate Timely(t: int, es: seq<Event>)
    decreases |es|
  {
    es == [] || (t <= es[0].now && Timely(es[0].now, es[1..]))
  }

  /** A run's first step. */
  lemma RunStep(envid: Bytes -> Bytes, s: Store, e: Event, es: seq<Event>)
    ensures Run(envid, s, [e] + es) == Run(envid, Apply(envid, s, e), es)
    ensures ProperRun(envid, s, [e] + es)
            <==> Proper(s, e) && Apply(envid, s, e).work.seqNo < MAX_SEQ && ProperRun(envid, Apply(envid, s, e), es)
  {
    assert ([e] + es)[1..] == es;
  }

  /** A run's last step. */
  lemma RunSnoc(envid: Bytes -> Bytes, s: Store, es: seq<Event>)
    requires es != []
    ensures Run(envid, s, es) == Apply(envid, Run(envid, s, es[..|es| - 1]), es[|es| - 1])
    decreases |es|
  {
    if |es| > 1 {
      assert es[1..][..|es| - 2] == es[..|es| - 1][1..];
      RunSnoc(envid, Apply(envid, s, es[0]), es[1..]);
    }
  }

  /** A run is a run of its parts. */
  lemma {:induction false} RunConcat(envid: Bytes -> Bytes, s: Store, es: seq<Event>, fs: seq<Event>)
    requires ProperRun(envid, s, es + fs)
    ensures Run(envid, s, es + fs) == Run(envid, Run(envid, s, es), fs)
    ensures ProperRun(envid, s, es) && ProperRun(envid, Run(envid, s, es), fs)
    decreases |es|
  {
    if es == [] {
      assert es + fs == fs;
    } else {
      assert (es + fs)[1..] == es[1..] + fs;
      RunConcat(envid, Apply(envid, s, es[0]), es[1..], fs);
    }
  }

  lemma ThreeSteps(envid: Bytes -> Bytes, s: Store, x: Event, t: Store, y: Event, u: Store, z: Event, v: Store)
    requires Proper(s, x) && t == Apply(envid, s, x) && t.work.seqNo < MAX_SEQ
    requires Proper(t, y) && u == Apply(envid, t, y) && u.work.seqNo < MAX_SEQ
    requires Proper(u, z) && v == Apply(envid, u, z) && v.work.seqNo < MAX_SEQ
    ensures ProperRun(envid, s, [x, y, z]) && Run(envid, s, [x, y, z]) == v
  {
    var none: seq<Event> := [];
    assert [x, y, z] == [x] + ([y] + ([z] + none));
    RunStep(envid, u, z, none);
    RunStep(envid, t, y, [z] + none);
    RunStep(envid, s, x, [y] + ([z] + none));
  }

  /** And a run goes on where another ended. */
  lemma {:induction false} RunAppend(envid: Bytes -> Bytes, s: Store, es: seq<Event>, t: Store, fs: seq<Event>)
    requires ProperRun(envid, s, es) && Run(envid, s, es) == t && ProperRun(envid, t, fs)
    ensures ProperRun(envid, s, es + fs) && Run(envid, s, es + fs) == Run(envid, t, fs)
    decreases |es|
  {
    if es == [] {
      assert es + fs == fs;
    } else {
      assert (es + fs)[1..] == es[1..] + fs;
      RunAppend(envid, Apply(envid, s, es[0]), es[1..], t, fs);
    }
  }

  lemma {:induction false} InOrderIsTimely(t: int, es: seq<Event>)
    requires forall i :: 0 <= i < |es| ==> t <= es[i].now
    requires forall i, j :: 0 <= i < j < |es| ==> es[i].now <= es[j].now
    ensures Timely(t, es)
    decreases |es|
  {
    if es != [] {
      InOrderIsTimely(es[0].now, es[1..]);
    }
  }

  lemma {:induction false} TimelyPrefix(t: int, es: seq<Event>, fs: seq<Event>)
    requires Timely(t, es + fs)
    ensures Timely(t, es)
    decreases |es|
  {
    if es != [] {
      assert (es + fs)[1..] == es[1..] + fs;
      TimelyPrefix(es[0].now, es[1..], fs);
    }
  }
}

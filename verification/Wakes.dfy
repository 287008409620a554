/** The idle set: a wake reaches as many as it should whatever SPOP draws, and a
    consumer that found the queue empty stays reachable until it is woken. */
module Wakes {
  import opened ByteStrings
  import opened SortedSets
  import opened AckIds
  import opened WaitingQueue
  import opened Store
  import opened Runs
  import opened Resend

  lemma MembersHead(picks: seq<Owner>)
    requires picks != []
    ensures Members(picks) == {picks[0]} + Members(picks[1..])
  {
    assert picks == [picks[0]] + picks[1..];
  }

  predicate NoRepeat(picks: seq<Owner>) {
    forall i, j :: 0 <= i < j < |picks| ==> picks[i] != picks[j]
  }

  lemma HeadIsNew(picks: seq<Owner>)
    requires picks != [] && NoRepeat(picks)
    ensures picks[0] !in Members(picks[1..]) && NoRepeat(picks[1..])
  {
    assert forall i :: 0 <= i < |picks| - 1 ==> picks[1..][i] == picks[i + 1];
  }

  /** A wake takes out only members, reaches only subscribed ones, and leaves no
      subscribed one it drew unreached. */
  lemma {:induction false} WakeSets(picks: seq<Owner>, subs: set<Owner>, count: int)
    requires NoRepeat(picks)
    ensures var w := Wake(picks, subs, count);
      && w.reached <= Members(picks) * subs && w.left <= Members(picks) && w.left !! w.reached
      && Members(picks) * subs <= w.reached + w.left
  {
    if count > 0 && picks != [] {
      HeadIsNew(picks);
      MembersHead(picks);
      WakeSets(picks[1..], subs, if picks[0] in subs then count - 1 else count);
    }
  }

  /** It reaches as many as asked for, or else empties the set. */
  lemma {:induction false} WakeCount(picks: seq<Owner>, subs: set<Owner>, count: int)
    requires NoRepeat(picks) && 0 <= count
    ensures var w := Wake(picks, subs, count); |w.reached| <= count && (|w.reached| < count ==> w.left == {})
  {
    if count > 0 && picks != [] {
      HeadIsNew(picks);
      WakeSets(picks[1..], subs, if picks[0] in subs then count - 1 else count);
      WakeCount(picks[1..], subs, if picks[0] in subs then count - 1 else count);
    }
  }

  /** So wake(count) reaches exactly min(count, subscribed idle members), whatever
      SPOP draws, and every other subscribed member stays. */
  lemma WakeReaches(picks: seq<Owner>, subs: set<Owner>, count: int)
    requires NoRepeat(picks) && 0 <= count
    ensures var w := Wake(picks, subs, count);
      && w.reached <= Members(picks) * subs && w.left <= Members(picks) && w.left !! w.reached
      && Members(picks) * subs <= w.reached + w.left
      && |w.reached| == Min(count, |Members(picks) * subs|)
      && (|w.reached| < count ==> w.left == {})
  {
    WakeSets(picks, subs, count);
    WakeCount(picks, subs, count);
    var (w, idle) := (Wake(picks, subs, count), Members(picks) * subs);
    if |w.reached| < count {
      assert w.reached == idle;
    } else {
      SubsetSize(w.reached, idle);
    }
  }

  // ---- what a call does to the idle set ----

  /** The wake a call runs, if any: over which draws, and for how many. An
      enqueue wakes up to one consumer per item then waiting. */
  function WakeOf(s: Store, e: Event): Option<(seq<Owner>, int)> {
    match e.call
    case Enqueue(item, score, wakes, picks) =>
      if wakes then Some((picks, Len(PushWork(s.work, item, score).queue))) else None
    case EnqueueOnce(_, _, item, score, wakes, picks) =>
      if wakes && Stores(s, e) then Some((picks, Len(PushWork(s.work, item, score).queue))) else None
    case WakeUp(count, picks) => Some((picks, count))
    case ResumeQueue(picks) => if s.paused.Some? then Some((picks, Len(s.work.queue))) else None
    case _ => None
  }

  /** The idle set after a call. */
  function IdleStep(s: Store, e: Event): set<Owner> {
    match e.call
    case PopBy(script, p) => PopStore(s, script, p, e.now).idle
    case LookIdle(consumer) => LenIdle(s, consumer).idle
    case NudgeBy(consumer, idle) => Nudge(s, consumer, idle).idle
    case BecomeIdle(consumer) => s.idle + {consumer}
    case Leave(consumer) => s.idle - {consumer}
    case _ =>
      match WakeOf(s, e)
      case Some((picks, count)) => Wake(picks, e.subs, count).left
      case None => s.idle
  }

  lemma IdleOf(envid: Bytes -> Bytes, s: Store, e: Event)
    ensures Apply(envid, s, e).idle == IdleStep(s, e)
  {
    match e.call
    case PopBy(_, _) =>
    case Enqueue(_, _, _, _) =>
    case EnqueueOnce(_, _, _, _, _, _) =>
    case _ =>
  }

  /** The members a call draws from the idle set, and those its PUBLISH reaches. */
  function Drawn(s: Store, e: Event): set<Owner> {
    match WakeOf(s, e)
    case Some((picks, count)) => s.idle - Wake(picks, e.subs, count).left
    case None => {}
  }

  function Reached(s: Store, e: Event): set<Owner> {
    match WakeOf(s, e)
    case Some((picks, count)) => Wake(picks, e.subs, count).reached
    case None => {}
  }

  /** The consumer itself leaves: by its nudge that saw items, or by Close. */
  predicate LeavesItself(s: Store, e: Event, c: Owner) {
    || (e.call.NudgeBy? && e.call.consumer == c && Len(s.work.queue) > 0)
    || (e.call.Leave? && e.call.consumer == c)
  }

  /** An idle consumer leaves the idle set only by a SPOP followed by a PUBLISH
      to it, which reaches it if it is subscribed, by its own nudge that saw
      items, or by its own leave. */
  lemma LeavesIdleOnlyWoken(envid: Bytes -> Bytes, s: Store, e: Event, c: Owner)
    requires Proper(s, e) && (e.call.WakeUp? ==> 0 <= e.call.count)
    requires c in s.idle && c !in Apply(envid, s, e).idle
    ensures LeavesItself(s, e, c) || (c in Drawn(s, e) && (c in e.subs ==> c in Reached(s, e)))
  {
    IdleOf(envid, s, e);
    match e.call
    case PopBy(script, p) => PopsOnlyJoin(s, script, p, e.now);
    case _ =>
      match WakeOf(s, e) {
        case Some((picks, count)) => WakeReaches(picks, e.subs, count);
        case None =>
      }
  }

  lemma PopsOnlyJoin(s: Store, script: PopScript, p: Pop, now: int)
    ensures s.idle <= PopStore(s, script, p, now).idle <= s.idle + {p.consumer}
  {
    match script
    case BatchScript => BatchOnlyJoins(s, p, now);
    case LeanScript =>
    case SingleScript =>
  }

  lemma BatchOnlyJoins(s: Store, p: Pop, now: int)
    ensures s.idle <= BatchPop(s, p, now).0.idle <= s.idle + {p.consumer}
  {}

  /** No lost wake: after a push, a requeue's wake or a resume, either every
      subscribed idle consumer was reached, or as many were as items wait. */
  lemma NoLostWake(envid: Bytes -> Bytes, s: Store, e: Event)
    requires Proper(s, e) && WakeOf(s, e).Some? && 0 <= WakeOf(s, e).value.1
    ensures |Reached(s, e)| == Min(WakeOf(s, e).value.1, |s.idle * e.subs|)
    ensures var t := Apply(envid, s, e);
      && Reached(s, e) <= s.idle * e.subs
      && t.idle == s.idle - Drawn(s, e)
      && (t.idle * e.subs != {} ==> |Reached(s, e)| == WakeOf(s, e).value.1)
  {
    IdleOf(envid, s, e);
    var (picks, count) := WakeOf(s, e).value;
    WakeReaches(picks, e.subs, count);
    assert Draws(picks, s.idle);
  }

  /** How many items a call has room for: DequeueWithAckId has one slot. */
  function Room(script: PopScript, p: Pop): nat {
    if script.SingleScript? then 1 else p.slots
  }

  predicate RefusedBy(s: Store, script: PopScript, p: Pop, now: int) {
    match script
    case BatchScript => BatchPop(s, p, now).1.refused
    case LeanScript => LeanPop(s, p, now).1.refused
    case SingleScript => SinglePop(s, p, now).1.Refused?
  }

  /** The call is a Len of c's on an empty queue, or an ack pop of c's that is not
      refused, leaves the queue empty and gets fewer items than it has room for. */
  predicate ComesUpShort(s: Store, e: Event, c: Owner) {
    c != [] &&
    match e.call
    case LookIdle(consumer) => consumer == c && Len(s.work.queue) == 0
    case PopBy(script, p) =>
      && p.consumer == c && !RefusedBy(s, script, p, e.now)
      && Len(PopStore(s, script, p, e.now).work.queue) == 0 && |ItemsTo(s, script, p, e.now)| < Room(script, p)
    case _ => false
  }

  /** A Len or an ack pop makes its consumer idle exactly when it comes up short:
      one that empties the queue with room to spare does too. */
  lemma ShortLookJoins(envid: Bytes -> Bytes, s: Store, e: Event, c: Owner)
    requires Proper(s, e) && (e.call.LookIdle? || e.call.PopBy?) && c !in s.idle
    ensures c in Apply(envid, s, e).idle <==> ComesUpShort(s, e, c)
  {
    IdleOf(envid, s, e);
    match e.call
    case PopBy(script, p) => ShortPopJoins(s, script, p, e.now, c);
    case _ =>
  }

  lemma ShortPopJoins(s: Store, script: PopScript, p: Pop, now: int, c: Owner)
    requires ProperPop(script, p) && c !in s.idle
    ensures c in PopStore(s, script, p, now).idle
            <==> c != [] && p.consumer == c && !RefusedBy(s, script, p, now)
                 && Len(PopStore(s, script, p, now).work.queue) == 0
                 && |ItemsTo(s, script, p, now)| < Room(script, p)
  {
    match script
    case BatchScript => ShortBatchJoins(s, p, now, c);
    case LeanScript => ShortLeanJoins(s, p, now, c);
    case SingleScript => MissedSingleJoins(s, p, now, c);
  }

  lemma ShortLeanJoins(s: Store, p: Pop, now: int, c: Owner)
    requires c !in s.idle
    ensures var (t, r) := LeanPop(s, p, now);
      c in t.idle <==> c != [] && p.consumer == c && !r.refused && Len(t.work.queue) == 0 && |r.items| < p.slots
  {
    var id := FirstId(p);
    if id in s.work.pending.nacked {
      AnswerJoins(HandBack(s, [id], p, now), [s.work.pending.nacked[id]], p, c);
    } else if s.paused.None? && Len(s.work.queue) == 0 {
      AnswerJoins(s, [], p, c);
    } else if s.paused.None? {
      AnswerJoins(TakeOut(s, [id], p, now), FrontItems(s.work.queue, 1), p, c);
    }
  }

  lemma AnswerJoins(s: Store, items: seq<Item>, p: Pop, c: Owner)
    requires c !in s.idle
    ensures var (t, r) := Answer(s, items, p);
      && (c in t.idle <==> c != [] && p.consumer == c && Len(t.work.queue) == 0 && |r.items| < p.slots)
      && !r.refused
  {}

  lemma MissedSingleJoins(s: Store, p: Pop, now: int, c: Owner)
    requires c !in s.idle
    ensures var (t, r) := SinglePop(s, p, now);
      c in t.idle <==> c != [] && p.consumer == c && r.NoItem? && Len(t.work.queue) == 0
  {}

  lemma ShortBatchJoins(s: Store, p: Pop, now: int, c: Owner)
    requires c !in s.idle
    ensures var (t, r) := BatchPop(s, p, now);
      c in t.idle <==> c != [] && p.consumer == c && !r.refused && Len(t.work.queue) == 0 && |r.items| < p.slots
  {}

  /** Who is idle after a call: a nudge puts back its consumer only if the queue is
      empty and it says it is idle, and takes it out when items wait. */
  predicate IsIdleAfter(s: Store, e: Event, c: Owner) {
    match e.call
    case NudgeBy(consumer, idle) =>
      if consumer != c then c in s.idle else Len(s.work.queue) == 0 && (idle || c in s.idle)
    case BecomeIdle(consumer) => consumer == c || c in s.idle
    case Leave(consumer) => consumer != c && c in s.idle
    case _ => c in s.idle - Drawn(s, e) || ComesUpShort(s, e, c)
  }

  lemma IdleExactly(envid: Bytes -> Bytes, s: Store, e: Event, c: Owner)
    requires Proper(s, e) && (e.call.WakeUp? ==> 0 <= e.call.count)
    ensures c in Apply(envid, s, e).idle <==> IsIdleAfter(s, e, c)
  {
    if e.call.PopBy? || e.call.LookIdle? {
      if c !in s.idle {
        ShortLookJoins(envid, s, e, c);
      } else if c !in Apply(envid, s, e).idle {
        LeavesIdleOnlyWoken(envid, s, e, c);
      }
    } else {
      IdleOf(envid, s, e);
      if WakeOf(s, e).Some? {
        WakeReaches(WakeOf(s, e).value.0, e.subs, WakeOf(s, e).value.1);
      }
    }
  }

  /** The call is a Len or an ack pop of c's that finds the queue empty. */
  predicate FindsNothing(s: Store, e: Event, c: Owner) {
    && c != [] && Len(s.work.queue) == 0
    && (e.call.LookIdle? || e.call.PopBy?)
    && (e.call.LookIdle? ==> e.call.consumer == c)
    && (e.call.PopBy? ==>
          && e.call.pop.consumer == c && s.paused.None? && 0 < e.call.pop.slots
          && forall i :: 0 <= i < e.call.pop.want ==> IdsOf(e.call.pop)[i] !in s.work.pending.nacked)
  }

  /** It is in the idle set from that same step on. */
  lemma EmptyLookJoins(envid: Bytes -> Bytes, s: Store, e: Event, c: Owner)
    requires Proper(s, e) && FindsNothing(s, e, c)
    ensures c in Apply(envid, s, e).idle
  {
    match e.call
    case PopBy(script, p) => MissJoins(s, script, p, e.now);
    case _ =>
  }

  lemma MissJoins(s: Store, script: PopScript, p: Pop, now: int)
    requires ProperPop(script, p) && p.consumer != [] && Len(s.work.queue) == 0 && s.paused.None? && 0 < p.slots
    requires forall i :: 0 <= i < p.want ==> IdsOf(p)[i] !in s.work.pending.nacked
    ensures p.consumer in PopStore(s, script, p, now).idle
  {
    assert IdsOf(p)[0] == FirstId(p);
    if script.BatchScript? {
      RestOfNone(s.work.queue);
    }
  }

  lemma RestOfNone(w: Waiting)
    requires Len(w) == 0
    ensures Len(Rest(w, 0)) == 0
  {
    if w.Ranked? {
      assert w.members == map[];
    }
  }

  /** An idle consumer stays in the idle set through any run without such a step. */
  lemma {:induction false} StaysReachable(envid: Bytes -> Bytes, s: Store, es: seq<Event>, c: Owner)
    requires ProperRun(envid, s, es) && c in s.idle && Undisturbed(envid, s, es, c)
    ensures c in Run(envid, s, es).idle
    decreases |es|
  {
    if es != [] {
      if c !in Apply(envid, s, es[0]).idle {
        LeavesIdleOnlyWoken(envid, s, es[0], c);
      }
      StaysReachable(envid, Apply(envid, s, es[0]), es[1..], c);
    }
  }

  predicate Undisturbed(envid: Bytes -> Bytes, s: Store, es: seq<Event>, c: Owner)
    decreases |es|
  {
    es == [] || (!LeavesItself(s, es[0], c) && c !in Drawn(s, es[0])
                 && (es[0].call.WakeUp? ==> 0 <= es[0].call.count)
                 && Undisturbed(envid, Apply(envid, s, es[0]), es[1..], c))
  }
}

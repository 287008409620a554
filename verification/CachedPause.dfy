/** Where the cached pause flag comes from, and that a process's own Pause or
    Resume stands: later replies to earlier calls set nothing. */
module CachedPause {
  import opened PauseHooks

  // ---- one step of a thread and of the loop ----

  /** What a thread's step is followed by. */
  predicate Follows(s: Setter, gen: nat, s': Setter) {
    match s
    case Bumping(p) => s' == Setting(p)
    case Checking(g, p) => g == gen && s' == Setting(p)
    case Setting(_) => s' == Kicking
    case BumpingHint => s' == Flagging
    case Flagging => s' == Kicking
    case Kicking => false
  }

  /** A thread's step moves that thread on or ends it, and no other. */
  ghost predicate ThreadMoved(c: Cache, t: nat, d: Cache) {
    && (forall u :: u != t ==> (u in d.setters <==> u in c.setters))
    && (forall u :: u != t && u in d.setters ==> d.setters[u] == c.setters[u])
    && (t in d.setters ==> t in c.setters && Follows(c.setters[t], c.gen, d.setters[t]))
    && d.loop == c.loop && d.key == c.key && c.gen <= d.gen
    && d.paused == if t in c.setters && c.setters[t].Setting? then c.setters[t].state else c.paused
  }

  lemma SetterKeeps(c: Cache, t: nat)
    ensures var d := SetterNext(c, t);
      && d.loop == c.loop && d.key == c.key && c.gen <= d.gen
      && d.paused == if t in c.setters && c.setters[t].Setting? then c.setters[t].state else c.paused
  {}

  lemma SetterFollows(c: Cache, t: nat)
    ensures var d := SetterNext(c, t);
      && d.setters == (if t in d.setters then c.setters[t := d.setters[t]] else c.setters - {t})
      && (t in d.setters ==> t in c.setters && Follows(c.setters[t], c.gen, d.setters[t]))
  {
    if t in c.setters {
      match c.setters[t]
      case Bumping(p) =>
      case Checking(g, p) =>
      case Setting(p) =>
      case _ =>
    }
  }

  lemma SetterMoves(c: Cache, t: nat)
    ensures ThreadMoved(c, t, SetterNext(c, t))
  {
    SetterKeeps(c, t);
    SetterFollows(c, t);
    OneMoved(c.setters, t, SetterNext(c, t).setters);
  }

  lemma OneMoved(m: map<nat, Setter>, t: nat, m': map<nat, Setter>)
    requires m' == if t in m' then m[t := m'[t]] else m - {t}
    ensures forall u :: u != t ==> (u in m' <==> u in m)
    ensures forall u :: u != t && u in m' ==> m'[u] == m[u]
  {}

  /** The loop reads the key, compares gen with what it was, and stores. */
  predicate LoopMoved(c: Cache, readFails: bool, d: Cache) {
    && d.setters == c.setters && d.key == c.key && d.gen == c.gen
    && (d.loop.Reading? ==> d.loop.seen == c.gen)
    && (d.loop.Comparing? ==> c.loop.Reading? && !readFails && d.loop == Comparing(c.loop.seen, c.key))
    && (d.loop.Storing? ==> c.loop.Comparing? && c.loop.seen == c.gen && d.loop.state == c.loop.state)
    && d.paused == if c.loop.Storing? then c.loop.state else c.paused
  }

  lemma LoopKeeps(c: Cache, readFails: bool)
    ensures var d := LoopNext(c, readFails);
      && d.setters == c.setters && d.key == c.key && d.gen == c.gen
      && d.paused == if c.loop.Storing? then c.loop.state else c.paused
  {}

  lemma LoopMoves(c: Cache, readFails: bool)
    ensures LoopMoved(c, readFails, LoopNext(c, readFails))
  {
    LoopKeeps(c, readFails);
    match c.loop
    case Marking =>
    case Reading(g) =>
    case Comparing(g, p) =>
    case _ =>
  }

  // ---- whose word the flag is ----

  /** What each thread was started with, what the loop last read of the key, and
      the state that was last written to the flag. */
  datatype Trace = Trace(given: map<nat, bool>, read: bool, flag: bool)

  function TraceNext(c: Cache, r: Trace, step: Step): Trace {
    match step
    case StartSet(t, p) => if t in c.setters then r else r.(given := r.given[t := p])
    case StartObserve(t, _, p) => if t in c.setters then r else r.(given := r.given[t := p])
    case SetterStep(t) =>
      if t in c.setters && c.setters[t].Setting? && t in r.given then r.(flag := r.given[t]) else r
    case LoopStep(readFails) =>
      if c.loop.Reading? && !readFails then r.(read := c.key)
      else if c.loop.Storing? then r.(flag := r.read)
      else r
    case _ => r
  }

  function TraceOf(c: Cache, r: Trace, steps: seq<Step>): Trace
    decreases |steps|
  {
    if steps == [] then r else TraceOf(Next(c, steps[0]), TraceNext(c, r, steps[0]), steps[1..])
  }

  /** The state a thread is to set, if it is one that sets the flag. */
  predicate Carries(s: Setter, p: bool) {
    match s
    case Bumping(q) => q == p
    case Checking(_, q) => q == p
    case Setting(q) => q == p
    case _ => true
  }

  predicate SetsFlag(s: Setter) {
    s.Bumping? || s.Checking? || s.Setting?
  }

  predicate Traced(c: Cache, r: Trace) {
    && r.flag == c.paused
    && (forall t :: t in c.setters && SetsFlag(c.setters[t]) ==> t in r.given && Carries(c.setters[t], r.given[t]))
    && (c.loop.Comparing? || c.loop.Storing? ==> c.loop.state == r.read)
  }

  lemma TracedStart(c: Cache, r: Trace, t: nat, setter: Setter)
    requires Traced(c, r) && (setter.Bumping? || setter.Checking?)
    ensures Traced(Started(c, t, setter), if t in c.setters then r else r.(given := r.given[t := setter.state]))
  {}

  lemma TracedHint(c: Cache, r: Trace, t: nat)
    requires Traced(c, r)
    ensures Traced(Started(c, t, BumpingHint), r)
  {}

  lemma TracedSetter(c: Cache, r: Trace, t: nat, d: Cache)
    requires Traced(c, r) && ThreadMoved(c, t, d)
    ensures Traced(d, TraceNext(c, r, SetterStep(t)))
  {
    forall u | u in d.setters && SetsFlag(d.setters[u]) ensures u in r.given && Carries(d.setters[u], r.given[u]) {
      assert u in c.setters;
    }
  }

  lemma TracedLoop(c: Cache, r: Trace, readFails: bool, d: Cache)
    requires Traced(c, r) && LoopMoved(c, readFails, d)
    ensures Traced(d, TraceNext(c, r, LoopStep(readFails)))
  {}

  lemma TracedStep(c: Cache, r: Trace, step: Step)
    requires Traced(c, r)
    ensures Traced(Next(c, step), TraceNext(c, r, step))
  {
    match step
    case SetterStep(t) =>
      SetterMoves(c, t);
      TracedSetter(c, r, t, SetterNext(c, t));
    case LoopStep(readFails) =>
      LoopMoves(c, readFails);
      TracedLoop(c, r, readFails, LoopNext(c, readFails));
    case KeyChanges(_) =>
    case StartSet(t, p) => TracedStart(c, r, t, Bumping(p));
    case StartObserve(t, seen, p) => TracedStart(c, r, t, Checking(seen, p));
    case StartHint(t) => TracedHint(c, r, t);
  }

  /** In every run the flag is the state given to the thread that last swapped it, or
      what the loop last read of the key, whichever was written last. */
  lemma {:induction false} FlagIsTraced(c: Cache, r: Trace, steps: seq<Step>)
    requires Traced(c, r)
    ensures Traced(Interleave(c, steps), TraceOf(c, r, steps))
    decreases |steps|
  {
    if steps != [] {
      TracedStep(c, r, steps[0]);
      FlagIsTraced(Next(c, steps[0]), TraceNext(c, r, steps[0]), steps[1..]);
    }
  }

  lemma FlagIsLastWritten(key: bool, steps: seq<Step>)
    ensures Interleave(Initial(key), steps).paused
            == TraceOf(Initial(key), Trace(map[], false, false), steps).flag
  {
    FlagIsTraced(Initial(key), Trace(map[], false, false), steps);
  }

  // ---- stale replies ----

  /** How often a Pause, a Resume or a control message moved gen on. */
  function Bumps(c: Cache, steps: seq<Step>): nat
    decreases |steps|
  {
    if steps == [] then 0 else (if BumpsGen(c, steps[0]) then 1 else 0) + Bumps(Next(c, steps[0]), steps[1..])
  }

  predicate BumpsGen(c: Cache, step: Step) {
    step.SetterStep? && step.thread in c.setters
    && (c.setters[step.thread].Bumping? || c.setters[step.thread].BumpingHint?)
  }

  lemma GenStep(c: Cache, step: Step)
    ensures Next(c, step).gen == c.gen + if BumpsGen(c, step) then 1 else 0
  {
    match step
    case SetterStep(t) =>
    case LoopStep(readFails) =>
    case _ =>
  }

  lemma {:induction false} GenCountsBumps(c: Cache, steps: seq<Step>)
    ensures Interleave(c, steps).gen == c.gen + Bumps(c, steps)
    decreases |steps|
  {
    if steps != [] {
      GenStep(c, steps[0]);
      GenCountsBumps(Next(c, steps[0]), steps[1..]);
    }
  }

  predicate NotOwn(steps: seq<Step>, t: nat) {
    forall i :: 0 <= i < |steps| ==> steps[i] != SetterStep(t)
  }

  /** A thread moves only by its own steps. */
  lemma OthersWait(c: Cache, step: Step, t: nat)
    requires t in c.setters && step != SetterStep(t)
    ensures var d := Next(c, step); t in d.setters && d.setters[t] == c.setters[t]
  {
    match step
    case SetterStep(u) => SetterMoves(c, u);
    case LoopStep(readFails) => LoopMoves(c, readFails);
    case _ =>
  }

  lemma {:induction false} ThreadWaits(c: Cache, steps: seq<Step>, t: nat)
    requires t in c.setters && NotOwn(steps, t)
    ensures var d := Interleave(c, steps); t in d.setters && d.setters[t] == c.setters[t]
    decreases |steps|
  {
    if steps != [] {
      assert steps[0] != SetterStep(t);
      OthersWait(c, steps[0], t);
      ThreadWaits(Next(c, steps[0]), steps[1..], t);
    }
  }

  /** A pop or a sweep goes out at c; its reply p is observed after `out`, and its
      check comes after `until`. It goes on to set the flag exactly when no Pause,
      Resume or control message came in all that time; otherwise it sets nothing. */
  lemma StaleReplySetsNothing(c: Cache, out: seq<Step>, t: nat, p: bool, until: seq<Step>)
    requires t !in Interleave(c, out).setters && NotOwn(until, t)
    ensures var seen := Next(Interleave(c, out), StartObserve(t, c.gen, p));
      var d := Interleave(seen, until); var e := Next(d, SetterStep(t));
      if Bumps(c, out) + Bumps(seen, until) == 0 then t in e.setters && e.setters[t] == Setting(p)
      else e == d.(setters := d.setters - {t})
  {
    var seen := Next(Interleave(c, out), StartObserve(t, c.gen, p));
    GenCountsBumps(c, out);
    GenCountsBumps(seen, until);
    ThreadWaits(seen, until, t);
  }

  // ---- a process's own Pause or Resume ----

  /** Nothing under way can still set the other state: threads that do not check gen
      carry p, those that check saw it before g, and so did the loop. */
  predicate OnlySets(c: Cache, p: bool, g: nat) {
    && c.key == p && g <= c.gen
    && (forall u :: u in c.setters && (c.setters[u].Bumping? || c.setters[u].Setting?) ==> c.setters[u].state == p)
    && (forall u :: u in c.setters && c.setters[u].Checking? ==> c.setters[u].state == p || c.setters[u].seen < g)
    && (c.loop.Storing? ==> c.loop.state == p)
    && (c.loop.Comparing? ==> c.loop.state == p || c.loop.seen < g)
  }

  /** A later step that does not bring the other state: no other Pause or Resume,
      and a reply to a call from before g or one that read p. */
  predicate Agrees(step: Step, p: bool, g: nat) {
    match step
    case StartSet(_, q) => q == p
    case StartObserve(_, seen, q) => q == p || seen < g
    case KeyChanges(q) => q == p
    case _ => true
  }

  /** The flag is p, or the thread that sets it has yet to. */
  predicate Stands(c: Cache, t: nat, p: bool) {
    c.paused == p || (t in c.setters && c.setters[t] == Setting(p))
  }

  lemma OnlySetsStart(c: Cache, p: bool, g: nat, t: nat, setter: Setter)
    requires OnlySets(c, p, g)
    requires (setter.Bumping? ==> setter.state == p) && (setter.Checking? ==> setter.state == p || setter.seen < g)
    requires !setter.Setting?
    ensures OnlySets(Started(c, t, setter), p, g)
  {}

  lemma OnlySetsSetter(c: Cache, p: bool, g: nat, u: nat, d: Cache)
    requires OnlySets(c, p, g) && ThreadMoved(c, u, d)
    ensures OnlySets(d, p, g)
  {}

  lemma OnlySetsLoop(c: Cache, p: bool, g: nat, readFails: bool, d: Cache)
    requires OnlySets(c, p, g) && LoopMoved(c, readFails, d)
    ensures OnlySets(d, p, g)
  {}

  lemma OnlySetsStep(c: Cache, p: bool, g: nat, step: Step)
    requires OnlySets(c, p, g) && Agrees(step, p, g)
    ensures OnlySets(Next(c, step), p, g)
  {
    match step
    case SetterStep(u) =>
      SetterMoves(c, u);
      OnlySetsSetter(c, p, g, u, SetterNext(c, u));
    case LoopStep(readFails) =>
      LoopMoves(c, readFails);
      OnlySetsLoop(c, p, g, readFails, LoopNext(c, readFails));
    case KeyChanges(_) =>
    case StartSet(t, q) => OnlySetsStart(c, p, g, t, Bumping(q));
    case StartObserve(t, seen, q) => OnlySetsStart(c, p, g, t, Checking(seen, q));
    case StartHint(t) => OnlySetsStart(c, p, g, t, BumpingHint);
  }

  lemma StandsStep(c: Cache, t: nat, p: bool, g: nat, step: Step)
    requires OnlySets(c, p, g) && Stands(c, t, p)
    ensures Stands(Next(c, step), t, p)
  {
    match step
    case SetterStep(u) =>
      SetterMoves(c, u);
      StandsSetter(c, t, p, g, u, SetterNext(c, u));
    case LoopStep(readFails) => LoopMoves(c, readFails);
    case _ =>
  }

  lemma StandsSetter(c: Cache, t: nat, p: bool, g: nat, u: nat, d: Cache)
    requires OnlySets(c, p, g) && Stands(c, t, p) && ThreadMoved(c, u, d)
    ensures Stands(d, t, p)
  {
    assert t in c.setters && t !in d.setters ==> t == u;
  }

  lemma {:induction false} StandsEver(c: Cache, t: nat, p: bool, g: nat, steps: seq<Step>)
    requires OnlySets(c, p, g) && Stands(c, t, p) && forall i :: 0 <= i < |steps| ==> Agrees(steps[i], p, g)
    ensures OnlySets(Interleave(c, steps), p, g) && Stands(Interleave(c, steps), t, p)
    decreases |steps|
  {
    if steps != [] {
      OnlySetsStep(c, p, g, steps[0]);
      StandsStep(c, t, p, g, steps[0]);
      StandsEver(Next(c, steps[0]), t, p, g, steps[1..]);
    }
  }

  /** When the thread is about to move gen on: no other thread is between a Pause or
      a Resume of the other state and its swap, and the loop is not about to store
      it. */
  predicate NoneAgainst(c: Cache, p: bool) {
    && c.key == p
    && (forall u :: u in c.setters && (c.setters[u].Bumping? || c.setters[u].Setting?) ==> c.setters[u].state == p)
    && (c.loop.Storing? ==> c.loop.state == p)
  }

  /** Replies and reads carry a gen that was. */
  predicate SeenBefore(c: Cache) {
    && (forall u :: u in c.setters && c.setters[u].Checking? ==> c.setters[u].seen <= c.gen)
    && ((c.loop.Comparing? || c.loop.Reading?) ==> c.loop.seen <= c.gen)
  }

  predicate SeenInTime(c: Cache, step: Step) {
    step.StartObserve? ==> step.seen <= c.gen
  }

  predicate AllSeenInTime(c: Cache, steps: seq<Step>)
    decreases |steps|
  {
    steps == [] || (SeenInTime(c, steps[0]) && AllSeenInTime(Next(c, steps[0]), steps[1..]))
  }

  lemma SeenStep(c: Cache, step: Step)
    requires SeenBefore(c) && SeenInTime(c, step)
    ensures SeenBefore(Next(c, step))
  {
    match step
    case SetterStep(t) =>
      SetterMoves(c, t);
      SeenSetter(c, t, SetterNext(c, t));
    case LoopStep(readFails) =>
      LoopMoves(c, readFails);
      SeenLoop(c, readFails, LoopNext(c, readFails));
    case _ =>
  }

  lemma SeenSetter(c: Cache, t: nat, d: Cache)
    requires SeenBefore(c) && ThreadMoved(c, t, d)
    ensures SeenBefore(d)
  {}

  lemma SeenLoop(c: Cache, readFails: bool, d: Cache)
    requires SeenBefore(c) && LoopMoved(c, readFails, d)
    ensures SeenBefore(d)
  {}

  lemma {:induction false} SeenEver(c: Cache, steps: seq<Step>)
    requires SeenBefore(c) && AllSeenInTime(c, steps)
    ensures SeenBefore(Interleave(c, steps))
    decreases |steps|
  {
    if steps != [] {
      SeenStep(c, steps[0]);
      SeenEver(Next(c, steps[0]), steps[1..]);
    }
  }

  /** A Pause (p) or Resume of this process, whatever else its goroutines do: from
      its own swap on, with no Pause, Resume or message that says otherwise, the
      flag is p; and whenever all is at rest after it the hooks were told p. */
  lemma OwnCallStands(key: bool, before: seq<Step>, t: nat, p: bool, until: seq<Step>, after: seq<Step>)
    requires t !in Interleave(Initial(key), before).setters && NotOwn(until, t)
    requires var c := Next(Interleave(Initial(key), before), StartSet(t, p)); var d := Interleave(c, until);
      && AllSeenInTime(Initial(key), before) && AllSeenInTime(c, until) && NoneAgainst(d, p)
      && forall i :: 0 <= i < |after| ==> Agrees(after[i], p, d.gen + 1)
    ensures var c := Next(Interleave(Initial(key), before), StartSet(t, p)); var d := Interleave(c, until);
      var e := Interleave(Next(d, SetterStep(t)), after);
      && Stands(e, t, p)
      && (AtRest(e) && t !in e.setters ==>
            e.paused == p && e.told == p && (if e.calls == [] then !p else e.calls[|e.calls| - 1] == p))
  {
    var s := Interleave(Initial(key), before);
    var c := Next(s, StartSet(t, p));
    var d := Interleave(c, until);
    assert SeenBefore(d) by {
      SeenEver(Initial(key), before);
      SeenStep(s, StartSet(t, p));
      SeenEver(c, until);
    }
    assert NothingLost(d) && Alternating(d) by {
      NothingLostEver(Initial(key), before);
      StepLosesNothing(s, StartSet(t, p));
      NothingLostEver(c, until);
    }
    ThreadWaits(c, until, t);
    FromTheBump(d, t, p, after);
  }

  lemma FromTheBump(d: Cache, t: nat, p: bool, after: seq<Step>)
    requires SeenBefore(d) && NothingLost(d) && Alternating(d) && NoneAgainst(d, p)
    requires t in d.setters && d.setters[t] == Bumping(p)
    requires forall i :: 0 <= i < |after| ==> Agrees(after[i], p, d.gen + 1)
    ensures var e := Interleave(Next(d, SetterStep(t)), after);
      && Stands(e, t, p)
      && (AtRest(e) && t !in e.setters ==>
            e.paused == p && e.told == p && (if e.calls == [] then !p else e.calls[|e.calls| - 1] == p))
  {
    var d' := Next(d, SetterStep(t));
    BumpSets(d, t, p);
    StandsEver(d', t, p, d.gen + 1, after);
    StepLosesNothing(d, SetterStep(t));
    NothingLostEver(d', after);
  }

  lemma BumpSets(d: Cache, t: nat, p: bool)
    requires SeenBefore(d) && NoneAgainst(d, p) && t in d.setters && d.setters[t] == Bumping(p)
    ensures OnlySets(Next(d, SetterStep(t)), p, d.gen + 1) && Stands(Next(d, SetterStep(t)), t, p)
  {}

  // ---- a hint ----

  /** The flag is p, or a thread or the loop is on the way to reading or setting it. */
  ghost predicate Heeded(c: Cache, p: bool) {
    || c.paused == p || c.recheck || c.loop.Marking? || c.loop.Storing?
    || ((c.loop.Reading? || c.loop.Comparing?) && c.loop.seen == c.gen)
    || exists u :: u in c.setters && (c.setters[u].Flagging? || c.setters[u].Setting?)
  }

  /** What Heeded takes of a thread's step: a hint sets recheck, and whoever moves
      gen on is about to set the flag or recheck. */
  lemma HintFollows(c: Cache, t: nat)
    ensures var d := SetterNext(c, t);
      && (t in c.setters && c.setters[t].Flagging? ==> d.recheck)
      && (c.recheck ==> d.recheck)
      && (d.gen != c.gen ==> t in d.setters && (d.setters[t].Flagging? || d.setters[t].Setting?))
  {}

  lemma HeededSetter(c: Cache, p: bool, g: nat, t: nat, d: Cache)
    requires OnlySets(c, p, g) && Heeded(c, p) && ThreadMoved(c, t, d)
    requires (t in c.setters && c.setters[t].Flagging? ==> d.recheck) && (c.recheck ==> d.recheck)
    requires d.gen != c.gen ==> t in d.setters && (d.setters[t].Flagging? || d.setters[t].Setting?)
    ensures Heeded(d, p)
  {
    if u :| u in c.setters && (c.setters[u].Flagging? || c.setters[u].Setting?) {
      if u != t {
        assert u in d.setters && d.setters[u] == c.setters[u];
      }
    }
  }

  lemma HeededLoop(c: Cache, p: bool, g: nat)
    requires OnlySets(c, p, g) && Heeded(c, p)
    ensures Heeded(LoopNext(c, false), p)
  {
    var d := LoopNext(c, false);
    if u :| u in c.setters && (c.setters[u].Flagging? || c.setters[u].Setting?) {
      assert u in d.setters && d.setters[u] == c.setters[u];
    }
  }

  lemma HeededStart(c: Cache, p: bool, t: nat, setter: Setter)
    requires Heeded(c, p)
    ensures Heeded(Started(c, t, setter), p)
  {
    var d := Started(c, t, setter);
    if u :| u in c.setters && (c.setters[u].Flagging? || c.setters[u].Setting?) {
      assert u in d.setters && d.setters[u] == c.setters[u];
    }
  }

  lemma HeededStep(c: Cache, p: bool, g: nat, step: Step)
    requires OnlySets(c, p, g) && Heeded(c, p) && step != LoopStep(true)
    ensures Heeded(Next(c, step), p)
  {
    match step
    case SetterStep(t) =>
      SetterMoves(c, t);
      HintFollows(c, t);
      HeededSetter(c, p, g, t, SetterNext(c, t));
    case LoopStep(_) => HeededLoop(c, p, g);
    case StartSet(u, q) => HeededStart(c, p, u, Bumping(q));
    case StartObserve(u, seen, q) => HeededStart(c, p, u, Checking(seen, q));
    case StartHint(u) => HeededStart(c, p, u, BumpingHint);
    case KeyChanges(_) => assert Next(c, step).setters == c.setters;
  }

  lemma {:induction false} HeededEver(c: Cache, p: bool, g: nat, steps: seq<Step>)
    requires OnlySets(c, p, g) && Heeded(c, p)
    requires forall i :: 0 <= i < |steps| ==> Agrees(steps[i], p, g) && steps[i] != LoopStep(true)
    ensures OnlySets(Interleave(c, steps), p, g) && Heeded(Interleave(c, steps), p)
    decreases |steps|
  {
    if steps != [] {
      HeededStep(c, p, g, steps[0]);
      OnlySetsStep(c, p, g, steps[0]);
      HeededEver(Next(c, steps[0]), p, g, steps[1..]);
    }
  }

  /** Nothing is under way and no thread is about to set the flag or recheck. */
  predicate AllDone(c: Cache) {
    AtRest(c) && forall u :: u in c.setters ==> !c.setters[u].Flagging? && !c.setters[u].Setting?
  }

  /** A "paused:" message that comes while the key says p, and goes on to, with
      nothing that says otherwise: once all is done, and no read of the key failed,
      the flag is p and the hooks were told it. */
  lemma HintIsHeeded(key: bool, before: seq<Step>, t: nat, until: seq<Step>, after: seq<Step>)
    requires t !in Interleave(Initial(key), before).setters && NotOwn(until, t)
    requires var c := Next(Interleave(Initial(key), before), StartHint(t)); var d := Interleave(c, until);
      && AllSeenInTime(Initial(key), before) && AllSeenInTime(c, until) && NoneAgainst(d, d.key)
      && forall i :: 0 <= i < |after| ==> Agrees(after[i], d.key, d.gen + 1) && after[i] != LoopStep(true)
    ensures var c := Next(Interleave(Initial(key), before), StartHint(t)); var d := Interleave(c, until);
      var e := Interleave(Next(d, SetterStep(t)), after);
      AllDone(e) ==>
        e.paused == d.key && e.told == d.key && (if e.calls == [] then !d.key else e.calls[|e.calls| - 1] == d.key)
  {
    var s := Interleave(Initial(key), before);
    var c := Next(s, StartHint(t));
    var d := Interleave(c, until);
    assert SeenBefore(d) by {
      SeenEver(Initial(key), before);
      SeenStep(s, StartHint(t));
      SeenEver(c, until);
    }
    assert NothingLost(d) && Alternating(d) by {
      NothingLostEver(Initial(key), before);
      StepLosesNothing(s, StartHint(t));
      NothingLostEver(c, until);
    }
    ThreadWaits(c, until, t);
    FromTheHint(d, t, after);
  }

  lemma FromTheHint(d: Cache, t: nat, after: seq<Step>)
    requires SeenBefore(d) && NothingLost(d) && Alternating(d) && NoneAgainst(d, d.key)
    requires t in d.setters && d.setters[t] == BumpingHint
    requires forall i :: 0 <= i < |after| ==> Agrees(after[i], d.key, d.gen + 1) && after[i] != LoopStep(true)
    ensures var e := Interleave(Next(d, SetterStep(t)), after);
      AllDone(e) ==>
        e.paused == d.key && e.told == d.key && (if e.calls == [] then !d.key else e.calls[|e.calls| - 1] == d.key)
  {
    var d' := Next(d, SetterStep(t));
    HintBumps(d, t);
    HeededEver(d', d.key, d.gen + 1, after);
    StepLosesNothing(d, SetterStep(t));
    NothingLostEver(d', after);
  }

  lemma HintBumps(d: Cache, t: nat)
    requires SeenBefore(d) && NoneAgainst(d, d.key) && t in d.setters && d.setters[t] == BumpingHint
    ensures OnlySets(Next(d, SetterStep(t)), d.key, d.gen + 1) && Heeded(Next(d, SetterStep(t)), d.key)
  {
    assert Next(d, SetterStep(t)).setters[t] == Flagging;
  }
}

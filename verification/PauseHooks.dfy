/** The cached pause flag and its hooks, under any interleaving of the threads
    that set the flag, control messages and pauseLoop: the one-slot kick loses
    no change. */
module PauseHooks {

  /** Where a thread that sets the flag stands between two atomic steps. */
  datatype Setter =
    | Bumping(state: bool)               // Pause, Resume, "resumed": about to move gen on
    | Checking(seen: nat, state: bool)   // observe: about to compare gen
    | Setting(state: bool)               // setPaused: about to swap the flag
    | BumpingHint                        // "paused:": about to move gen on
    | Flagging                           // "paused:": about to set recheck
    | Kicking                            // about to kick

  /** Where pauseLoop stands. */
  datatype Loop =
    | Waiting
    | Kicked                             // took the kick: about to swap recheck
    | Marking                            // about to load gen
    | Reading(seen: nat)                 // about to read the key
    | Comparing(seen: nat, state: bool)  // about to compare gen
    | Storing(state: bool)               // about to store the flag
    | Loading                            // about to load the flag
    | Calling                            // about to call the hooks

  /** calls lists the states the hooks were called with; key is <base>:paused. */
  datatype Cache = Cache(paused: bool, gen: nat, kick: bool, recheck: bool, told: bool,
                         loop: Loop, setters: map<nat, Setter>, calls: seq<bool>, key: bool)

  datatype Step =
    | StartSet(thread: nat, state: bool)             // Pause, Resume or a "resumed" message
    | StartObserve(thread: nat, seen: nat, state: bool) // a pop or a sweep reply
    | StartHint(thread: nat)                         // a "paused:" message
    | SetterStep(thread: nat)
    | LoopStep(readFails: bool)
    | KeyChanges(state: bool)

  function Initial(key: bool): Cache {
    Cache(false, 0, false, false, false, Waiting, map[], [], key)
  }

  function Started(c: Cache, thread: nat, setter: Setter): (d: Cache)
    ensures d.calls == c.calls && d.told == c.told && d.loop == c.loop
  {
    if thread in c.setters then c else c.(setters := c.setters[thread := setter])
  }

  /** Only the loop calls hooks. */
  function SetterNext(c: Cache, t: nat): (d: Cache)
    ensures d.calls == c.calls && d.told == c.told && d.loop == c.loop
  {
    if t !in c.setters then c
    else
      match c.setters[t]
      case Bumping(p) => c.(gen := c.gen + 1, setters := c.setters[t := Setting(p)])
      case Checking(g, p) =>
        if c.gen == g then c.(setters := c.setters[t := Setting(p)]) else c.(setters := c.setters - {t})
      case Setting(p) =>
        if c.paused != p then c.(paused := p, setters := c.setters[t := Kicking])
        else c.(setters := c.setters - {t})
      case BumpingHint => c.(gen := c.gen + 1, setters := c.setters[t := Flagging])
      case Flagging => c.(recheck := true, setters := c.setters[t := Kicking])
      case Kicking => c.(kick := true, setters := c.setters - {t})
  }

  function LoopNext(c: Cache, readFails: bool): (d: Cache)
    ensures d.setters == c.setters && (c.loop.Waiting? || d.kick == c.kick)
  {
    match c.loop
    case Waiting => if c.kick then c.(kick := false, loop := Kicked) else c
    case Kicked => c.(recheck := false, loop := if c.recheck then Marking else Loading)
    case Marking => c.(loop := Reading(c.gen))
    case Reading(g) => c.(loop := if readFails then Loading else Comparing(g, c.key))
    case Comparing(g, p) => c.(loop := if c.gen == g then Storing(p) else Loading)
    case Storing(p) => c.(paused := p, loop := Loading)
    case Loading => if c.paused == c.told then c.(loop := Waiting) else c.(told := c.paused, loop := Calling)
    case Calling => c.(calls := c.calls + [c.told], loop := Waiting)
  }

  function Next(c: Cache, step: Step): Cache {
    match step
    case StartSet(t, p) => Started(c, t, Bumping(p))
    case StartObserve(t, g, p) => Started(c, t, Checking(g, p))
    case StartHint(t) => Started(c, t, BumpingHint)
    case SetterStep(t) => SetterNext(c, t)
    case LoopStep(readFails) => LoopNext(c, readFails)
    case KeyChanges(p) => c.(key := p)
  }

  function Interleave(c: Cache, steps: seq<Step>): Cache
    decreases |steps|
  {
    if steps == [] then c else Interleave(Next(c, steps[0]), steps[1..])
  }

  /** A kick is buffered, or some thread is about to buffer one. */
  predicate KickComing(c: Cache) {
    c.kick || exists t :: t in c.setters && c.setters[t].Kicking?
  }

  /** The loop has a kick in hand and has yet to load the flag. */
  predicate BeforeLoad(l: Loop) {
    l.Kicked? || l.Marking? || l.Reading? || l.Comparing? || l.Storing? || l.Loading?
  }

  /** A change not yet told, or a hint not yet looked at, has a kick coming or
      the loop at work on it. */
  predicate NothingLost(c: Cache) {
    && (c.paused != c.told ==> KickComing(c) || BeforeLoad(c.loop))
    && (c.recheck ==> KickComing(c) || c.loop.Kicked?)
  }

  /** The hooks were called with true, false, true, ... and told is the last. */
  predicate Alternating(c: Cache) {
    && (forall i :: 0 <= i < |c.calls| ==> (c.calls[i] <==> i % 2 == 0))
    && (c.loop.Calling? ==> (c.told <==> |c.calls| % 2 == 0))
    && (!c.loop.Calling? ==> (c.told <==> |c.calls| % 2 == 1))
  }

  lemma KickSurvives(c: Cache, t: nat)
    requires t !in c.setters || !c.setters[t].Kicking?
    ensures KickComing(c) ==> KickComing(SetterNext(c, t))
  {
    if !c.kick && KickComing(c) {
      var u :| u in c.setters && c.setters[u].Kicking?;
      assert u in SetterNext(c, t).setters && SetterNext(c, t).setters[u].Kicking?;
    }
  }

  lemma SetterLosesNothing(c: Cache, t: nat)
    requires NothingLost(c)
    ensures NothingLost(SetterNext(c, t))
  {
    var d := SetterNext(c, t);
    if t in c.setters && c.setters[t].Kicking? {
      assert d.kick;
    } else {
      KickSurvives(c, t);
      if t in c.setters && t in d.setters && d.setters[t].Kicking? {
        assert KickComing(d);
      }
    }
  }

  lemma StartLosesNothing(c: Cache, t: nat, setter: Setter)
    requires NothingLost(c)
    ensures NothingLost(Started(c, t, setter))
  {
    var d := Started(c, t, setter);
    if !c.kick && KickComing(c) {
      var u :| u in c.setters && c.setters[u].Kicking?;
      assert u in d.setters && d.setters[u].Kicking?;
    }
  }

  lemma KeyLosesNothing(c: Cache, p: bool)
    requires NothingLost(c)
    ensures NothingLost(c.(key := p))
  {
    assert KickComing(c.(key := p)) <==> KickComing(c);
  }

  lemma NextLosesNothing(c: Cache, step: Step)
    requires NothingLost(c)
    ensures NothingLost(Next(c, step))
  {
    match step
    case StartSet(t, p) => StartLosesNothing(c, t, Bumping(p));
    case StartObserve(t, g, p) => StartLosesNothing(c, t, Checking(g, p));
    case StartHint(t) => StartLosesNothing(c, t, BumpingHint);
    case SetterStep(t) => SetterLosesNothing(c, t);
    case LoopStep(readFails) => LoopLosesNothing(c, readFails);
    case KeyChanges(p) => KeyLosesNothing(c, p);
  }

  lemma StepLosesNothing(c: Cache, step: Step)
    requires NothingLost(c) && Alternating(c)
    ensures NothingLost(Next(c, step)) && Alternating(Next(c, step))
  {
    NextLosesNothing(c, step);
    if step.LoopStep? {
      LoopAlternates(c, step.readFails);
    }
  }

  lemma LoopLosesNothing(c: Cache, readFails: bool)
    requires NothingLost(c)
    ensures NothingLost(LoopNext(c, readFails))
  {
    assert !c.loop.Waiting? ==> (KickComing(c) <==> KickComing(LoopNext(c, readFails)));
  }

  lemma LoopAlternates(c: Cache, readFails: bool)
    requires Alternating(c)
    ensures Alternating(LoopNext(c, readFails))
  {
    var d := LoopNext(c, readFails);
    if c.loop.Calling? {
      CallAlternates(c.calls, c.told);
      assert d.calls == c.calls + [c.told] && d.told == c.told && d.loop.Waiting?;
    } else {
      assert d.calls == c.calls;
      assert if d.loop.Calling? then d.told != c.told else d.told == c.told;
    }
  }

  lemma CallAlternates(calls: seq<bool>, told: bool)
    requires (forall i :: 0 <= i < |calls| ==> (calls[i] <==> i % 2 == 0)) && (told <==> |calls| % 2 == 0)
    ensures var calls' := calls + [told];
      (forall i :: 0 <= i < |calls'| ==> (calls'[i] <==> i % 2 == 0)) && (told <==> |calls'| % 2 == 1)
  {}

  lemma {:induction false} NothingLostEver(c: Cache, steps: seq<Step>)
    requires NothingLost(c) && Alternating(c)
    ensures NothingLost(Interleave(c, steps)) && Alternating(Interleave(c, steps))
    decreases |steps|
  {
    if steps != [] {
      StepLosesNothing(c, steps[0]);
      NothingLostEver(Next(c, steps[0]), steps[1..]);
    }
  }

  /** Nothing is under way: the loop waits, no kick is buffered, and no thread is
      between its change and its kick. */
  predicate AtRest(c: Cache) {
    c.loop.Waiting? && !c.kick && forall t :: t in c.setters ==> !c.setters[t].Kicking?
  }

  /** Whatever the interleaving, at rest the hooks have been told the cached flag
      and no hint waits to be looked at. */
  lemma AtRestAllTold(key: bool, steps: seq<Step>)
    ensures var c := Interleave(Initial(key), steps);
      AtRest(c) ==> c.told == c.paused && !c.recheck && (c.paused <==> |c.calls| % 2 == 1)
  {
    NothingLostEver(Initial(key), steps);
  }

  /** Hook calls strictly alternate, starting with true; the last one is the
      cached state whenever the loop is at rest. */
  lemma CallsAlternate(key: bool, steps: seq<Step>, i: nat)
    ensures var c := Interleave(Initial(key), steps);
      && (i < |c.calls| ==> (c.calls[i] <==> i % 2 == 0))
      && (AtRest(c) && c.calls != [] ==> c.calls[|c.calls| - 1] == c.paused)
  {
    NothingLostEver(Initial(key), steps);
  }
}

/** The pause flag over runs: who set it, when, and what it stops. */
module PauseFlag {
  import opened ByteStrings
  import opened WaitingQueue
  import opened Store
  import opened Runs
  import opened Effects
  import opened Agreement
  import opened Resend

  /** The k-th call is the first Pause after the last Resume. */
  predicate PausesAt(es: seq<Event>, k: int) {
    && 0 <= k < |es| && es[k].call.PauseQueue?
    && (forall j :: k < j < |es| ==> !es[j].call.ResumeQueue?)
    && (forall j :: 0 <= j < k && es[j].call.PauseQueue? ==> exists m :: j < m < k && es[m].call.ResumeQueue?)
  }

  lemma FlagStep(envid: Bytes -> Bytes, s: Store, e: Event)
    ensures var p := Apply(envid, s, e).paused;
      && (e.call.PauseQueue? ==> p == if s.paused.Some? then s.paused else Some(e.now / 1000))
      && (e.call.ResumeQueue? ==> p == None)
      && (!e.call.PauseQueue? && !e.call.ResumeQueue? ==> p == s.paused)
  {
    match e.call
    case PopBy(_, _) =>
    case _ =>
  }

  /** The last call, if any, is no Resume and no first Pause. */
  lemma PausesBefore(es: seq<Event>, k: int)
    requires es != [] && 0 <= k < |es| - 1
    ensures PausesAt(es, k) <==> PausesAt(es[..|es| - 1], k) && !es[|es| - 1].call.ResumeQueue?
  {
    var h := es[..|es| - 1];
    assert forall j :: 0 <= j < |h| ==> h[j] == es[j];
    if PausesAt(h, k) && !es[|es| - 1].call.ResumeQueue? {
      forall j | 0 <= j < k && es[j].call.PauseQueue? ensures exists m :: j < m < k && es[m].call.ResumeQueue? {
        var m :| j < m < k && h[m].call.ResumeQueue?;
        assert es[m].call.ResumeQueue?;
      }
    }
    if PausesAt(es, k) {
      forall j | 0 <= j < k && h[j].call.PauseQueue? ensures exists m :: j < m < k && h[m].call.ResumeQueue? {
        var m :| j < m < k && es[m].call.ResumeQueue?;
        assert h[m].call.ResumeQueue?;
      }
    }
  }

  /** Of the Pauses since the last Resume there is a first, unless there is none. */
  lemma {:induction false} FirstPause(es: seq<Event>, k: nat)
    requires k < |es| && es[k].call.PauseQueue? && forall j :: k < j < |es| ==> !es[j].call.ResumeQueue?
    ensures exists i :: 0 <= i <= k && PausesAt(es, i)
  {
    if j :| 0 <= j < k && es[j].call.PauseQueue? && forall m :: j < m < k ==> !es[m].call.ResumeQueue? {
      FirstPause(es, j);
    } else {
      assert PausesAt(es, k);
    }
  }

  /** Some Pause came after the last Resume. */
  ghost predicate Stopped(es: seq<Event>) {
    exists k :: PausesAt(es, k)
  }

  /** From a queue that is not paused, over any run: the flag is there exactly when
      a Pause came after the last Resume, and tells the millisecond of the first. */
  lemma {:induction false} FlagIsLastWord(envid: Bytes -> Bytes, s: Store, es: seq<Event>)
    requires s.paused.None?
    ensures Run(envid, s, es).paused.Some? <==> Stopped(es)
    ensures forall k :: PausesAt(es, k) ==> Run(envid, s, es).paused == Some(es[k].now / 1000)
    decreases |es|
  {
    if es != [] {
      var (h, n) := (es[..|es| - 1], |es| - 1);
      FlagIsLastWord(envid, s, h);
      RunSnoc(envid, s, es);
      FlagStep(envid, Run(envid, s, h), es[n]);
      LastPauses(es);
      forall k | PausesAt(es, k) ensures Run(envid, s, es).paused == Some(es[k].now / 1000) {
        if k < n {
          PausesBefore(es, k);
        }
      }
      if Stopped(h) && !es[n].call.ResumeQueue? {
        var k :| PausesAt(h, k);
        PausesBefore(es, k);
      }
    }
  }

  /** The last call is that Pause exactly when no earlier one is. */
  lemma LastPauses(es: seq<Event>)
    requires es != []
    ensures PausesAt(es, |es| - 1) <==> es[|es| - 1].call.PauseQueue? && !Stopped(es[..|es| - 1])
  {
    var (h, n) := (es[..|es| - 1], |es| - 1);
    if es[n].call.PauseQueue? {
      if Stopped(h) {
        var k :| PausesAt(h, k);
        PausesBefore(es, k);
        assert h[k] == es[k];
      } else if !PausesAt(es, n) {
        var j :| 0 <= j < n && es[j].call.PauseQueue? && forall m :: j < m < n ==> !es[m].call.ResumeQueue?;
        assert h[j] == es[j];
        FirstPause(h, j);
      }
    }
  }

  // ---- what it stops ----

  /** A pop under new IDs, at the end of any run: while a Pause holds it changes
      nothing and gets nothing, */
  lemma PausedPopsNothing(envid: Bytes -> Bytes, s: Store, es: seq<Event>, script: PopScript, p: Pop, now: int)
    requires s.paused.None? && Stopped(es) && ProperPop(script, p) && !Resent(Run(envid, s, es), p)
    ensures PopStore(Run(envid, s, es), script, p, now) == Run(envid, s, es)
    ensures ItemsTo(Run(envid, s, es), script, p, now) == []
  {
    FlagIsLastWord(envid, s, es);
    FreshPopUnderPause(Run(envid, s, es), script, p, now);
  }

  /** and with none, or after the Resume, it takes as many of the first items as it
      asks for. */
  lemma ResumedPopTakes(envid: Bytes -> Bytes, s: Store, es: seq<Event>, script: PopScript, p: Pop, now: int)
    requires s.paused.None? && !Stopped(es) && ProperPop(script, p) && !Resent(Run(envid, s, es), p)
    ensures var u := Run(envid, s, es); var n := Min(p.want, Len(u.work.queue));
      && ItemsTo(u, script, p, now) == FrontItems(u.work.queue, n)
      && PopStore(u, script, p, now).work.queue == Rest(u.work.queue, n)
      && Len(PopStore(u, script, p, now).work.queue) == Len(u.work.queue) - n
  {
    var u := Run(envid, s, es);
    FlagIsLastWord(envid, s, es);
    PopEffect(u, script, p, now);
    ItemsToCaller(u, script, p, now);
    RestLen(u.work.queue, |HandedOut(u, p)|);
  }
}

/** EnqueueOnce over runs: exactly when a push of an id stores its item. */
module Dedup {
  import opened ByteStrings
  import opened WaitingQueue
  import opened Store
  import opened Runs
  import opened PendingKeys
  import opened Conservation

  /** The call counts one more job as submitted. */
  predicate Counts(envid: Bytes -> Bytes, s: Store, e: Event) {
    Apply(envid, s, e).stats.submitted == s.stats.submitted + 1
  }

  /** The i-th call of the run is an EnqueueOnce of the id that stored its item. */
  predicate StoredAt(envid: Bytes -> Bytes, s: Store, es: seq<Event>, i: int, key: Bytes) {
    && 0 <= i < |es| && es[i].call.EnqueueOnce? && es[i].call.key == key
    && Counts(envid, Run(envid, s, es[..i]), es[i])
  }

  /** When the window of the i-th call ends. */
  function EndOf(es: seq<Event>, i: nat): int
    requires i < |es| && es[i].call.EnqueueOnce?
  {
    es[i].now + es[i].call.window
  }

  /** EnqueueOnce with no window is a plain Enqueue. */
  predicate Windowed(c: Call) {
    c.EnqueueOnce? ==> 0 <= c.window
  }

  lemma DedupStep(envid: Bytes -> Bytes, s: Store, e: Event)
    ensures e.call.EnqueueOnce? ==> (Counts(envid, s, e) <==> !(e.call.key in s.dedup && e.now <= s.dedup[e.call.key]))
    ensures var d := Apply(envid, s, e).dedup;
      d == if e.call.EnqueueOnce? && Counts(envid, s, e) then s.dedup[e.call.key := e.now + e.call.window] else s.dedup
  {
    if e.call.EnqueueOnce? {
      OnceStep(envid, s, e);
    } else {
      OtherStep(envid, s, e);
    }
  }

  lemma OtherStep(envid: Bytes -> Bytes, s: Store, e: Event)
    requires !e.call.EnqueueOnce?
    ensures Apply(envid, s, e).dedup == s.dedup
  {
    match e.call
    case PopBy(_, _) =>
    case _ =>
  }

  lemma OnceStep(envid: Bytes -> Bytes, s: Store, e: Event)
    requires e.call.EnqueueOnce?
    ensures Counts(envid, s, e) <==> !(e.call.key in s.dedup && e.now <= s.dedup[e.call.key])
    ensures Apply(envid, s, e).dedup
            == if Counts(envid, s, e) then s.dedup[e.call.key := e.now + e.call.window] else s.dedup
  {}

  lemma StoredBefore(envid: Bytes -> Bytes, s: Store, es: seq<Event>, i: int, key: Bytes)
    requires es != [] && 0 <= i < |es| - 1
    ensures StoredAt(envid, s, es, i, key) <==> StoredAt(envid, s, es[..|es| - 1], i, key)
  {
    assert es[..|es| - 1][..i] == es[..i];
  }

  /** What the id's key tells: the stored push that is remembered, whose window
      ends no sooner than any other's. */
  ghost predicate Remembers(envid: Bytes -> Bytes, s: Store, es: seq<Event>, key: Bytes, dedup: map<Bytes, int>) {
    && (forall i :: StoredAt(envid, s, es, i, key) ==> key in dedup && EndOf(es, i) <= dedup[key])
    && (key in dedup ==> exists i :: StoredAt(envid, s, es, i, key) && EndOf(es, i) == dedup[key])
  }

  lemma RemembersMore(envid: Bytes -> Bytes, s: Store, es: seq<Event>, key: Bytes)
    requires es != [] && Windowed(es[|es| - 1].call)
    requires Remembers(envid, s, es[..|es| - 1], key, Run(envid, s, es[..|es| - 1]).dedup)
    ensures Remembers(envid, s, es, key, Run(envid, s, es).dedup)
  {
    var (h, n) := (es[..|es| - 1], |es| - 1);
    var (u, d) := (Run(envid, s, h), Run(envid, s, es).dedup);
    RunSnoc(envid, s, es);
    DedupStep(envid, u, es[n]);
    forall i | StoredAt(envid, s, es, i, key) ensures key in d && EndOf(es, i) <= d[key] {
      if i < n {
        StoredBefore(envid, s, es, i, key);
        assert EndOf(h, i) == EndOf(es, i);
      }
    }
    if key in d {
      if StoredAt(envid, s, es, n, key) {
        assert EndOf(es, n) == d[key];
      } else {
        var i :| StoredAt(envid, s, h, i, key) && EndOf(h, i) == u.dedup[key];
        StoredBefore(envid, s, es, i, key);
        assert EndOf(es, i) == d[key];
      }
    }
  }

  lemma {:induction false} RemembersRun(envid: Bytes -> Bytes, s: Store, es: seq<Event>, key: Bytes)
    requires s.dedup == map[] && forall i :: 0 <= i < |es| ==> Windowed(es[i].call)
    ensures Remembers(envid, s, es, key, Run(envid, s, es).dedup)
    decreases |es|
  {
    if es != [] {
      RemembersRun(envid, s, es[..|es| - 1], key);
      RemembersMore(envid, s, es, key);
    }
  }

  /** The id's last stored push was within its window. */
  ghost predicate Taken(envid: Bytes -> Bytes, s: Store, es: seq<Event>, key: Bytes, now: int) {
    exists i :: StoredAt(envid, s, es, i, key) && now <= EndOf(es, i)
  }

  /** After any run from an empty queue, whatever finished, was removed or purged
      in between: an EnqueueOnce adds its item and counts it exactly when no stored
      push of its id has its window reach to now; otherwise it changes nothing. */
  lemma StoresUnlessTaken(envid: Bytes -> Bytes, ranked: bool, es: seq<Event>, e: Event)
    requires ProperRun(envid, Empty(ranked), es) && forall i :: 0 <= i < |es| ==> Windowed(es[i].call)
    requires e.call.EnqueueOnce? && Proper(Run(envid, Empty(ranked), es), e)
      && Apply(envid, Run(envid, Empty(ranked), es), e).work.seqNo < MAX_SEQ
    ensures var u := Run(envid, Empty(ranked), es); var v := Apply(envid, u, e);
      if Taken(envid, Empty(ranked), es, e.call.key, e.now) then v == u
      else v.stats.submitted == u.stats.submitted + 1 && Total(v.work) == Total(u.work) + multiset{e.call.item}
  {
    var u := Run(envid, Empty(ranked), es);
    RemembersRun(envid, Empty(ranked), es, e.call.key);
    DedupStep(envid, u, e);
    EmptyIsSound(ranked);
    SoundRun(envid, Empty(ranked), es);
    TotalStep(envid, u, e);
    if Taken(envid, Empty(ranked), es, e.call.key, e.now) {
      var i :| StoredAt(envid, Empty(ranked), es, i, e.call.key) && e.now <= EndOf(es, i);
      assert !Counts(envid, u, e);
    }
  }

  /** Two pushes of one id that both store are more than the first one's window
      apart, whatever runs between them, re-sends of either included. */
  lemma StoredPushesApart(envid: Bytes -> Bytes, s: Store, es: seq<Event>, i: int, j: int, key: Bytes)
    requires s.dedup == map[] && forall k :: 0 <= k < |es| ==> Windowed(es[k].call)
    requires StoredAt(envid, s, es, i, key) && StoredAt(envid, s, es, j, key) && i < j
    ensures EndOf(es, i) < es[j].now
  {
    var h := es[..j];
    assert h[..i] == es[..i];
    RemembersRun(envid, s, h, key);
    assert StoredAt(envid, s, h, i, key) && EndOf(h, i) == EndOf(es, i);
    DedupStep(envid, Run(envid, s, h), es[j]);
  }
}

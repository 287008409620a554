/** Job Records and their two indexes in step, and what trims leave. */
module JobRecords {
  import opened ByteStrings
  import opened SortedSets
  import opened Store
  import opened Runs

  // ---- what a trim leaves ----

  function Larger(a: int, b: int): int {
    if a > b then a else b
  }

  /** How many of size members, the oldest aged of them too old, are too old or
      beyond the newest keep. */
  function InExcess(size: nat, aged: nat, keep: int, age: int): nat {
    if keep <= 0 || age <= 0 then size else Larger(aged, size - keep)
  }

  lemma ExcessBounds(size: nat, aged: nat, keep: int, age: int)
    requires aged <= size
    ensures InExcess(size, aged, keep, age) <= size
  {}

  function Excess(z: Zset, keep: int, age: int, now: int): nat {
    InExcess(|z|, |UpTo(z, Cutoff(now, age))|, keep, age)
  }

  function After(z: Zset, keep: int, age: int, now: int): Zset {
    z - TrimmedAway(z, keep, age, now)
  }

  lemma TakeIsPrefix(o: seq<Bytes>, n: nat)
    ensures Take(o, n) == o[..Min(|o|, n)]
  {}

  lemma PrefixUnion(o: seq<Bytes>, a: nat, b: nat)
    requires a <= |o| && b <= |o|
    ensures Members(o[..a]) + Members(o[..b]) == Members(o[..Larger(a, b)])
  {
    if a > b {
      assert o[..b] == o[..a][..b];
    } else {
      assert o[..a] == o[..b][..a];
    }
  }

  lemma ExcessFits(z: Zset, keep: int, age: int, now: int)
    ensures |Order(z)| == |z| && |UpTo(z, Cutoff(now, age))| <= |z| && Excess(z, keep, age, now) <= |z|
  {
    UpToFits(z, Cutoff(now, age));
    ExcessBounds(|z|, |UpTo(z, Cutoff(now, age))|, keep, age);
  }

  /** The aged up to 1000 and those over up to 1000 are one prefix. */
  lemma TwoPrefixes(o: seq<Bytes>, aged: seq<Bytes>, keep: int, age: int)
    requires aged <= o && 0 < keep && 0 < age
    ensures InExcess(|o|, |aged|, keep, age) <= |o|
    ensures Members(Take(aged, MAX_TRIM)) + (if |o| - keep > 0 then Members(Take(o, Min(|o| - keep, MAX_TRIM))) else {})
            == Members(o[..Min(InExcess(|o|, |aged|, keep, age), MAX_TRIM)])
  {
    var a := Min(|aged|, MAX_TRIM);
    TakeIsPrefix(aged, MAX_TRIM);
    assert aged[..a] == o[..a];
    if |o| - keep > 0 {
      TakeIsPrefix(o, Min(|o| - keep, MAX_TRIM));
      PrefixUnion(o, a, Min(|o| - keep, MAX_TRIM));
    }
  }

  lemma RetainedTrim(z: Zset, keep: int, age: int, hi: int)
    requires 0 < keep && 0 < age
    ensures InExcess(|z|, |UpTo(z, hi)|, keep, age) <= |Order(z)|
    ensures Members(Take(UpTo(z, hi), MAX_TRIM))
            + (if |z| - keep > 0 then Members(Take(Order(z), Min(|z| - keep, MAX_TRIM))) else {})
            == Members(Order(z)[..Min(InExcess(|z|, |UpTo(z, hi)|, keep, age), MAX_TRIM)])
  {
    UpToFits(z, hi);
    UpToIsPrefix(z, hi);
    TwoPrefixes(Order(z), UpTo(z, hi), keep, age);
  }

  /** A trim drops exactly the oldest of what is in excess, up to 1000. */
  lemma TrimIsPrefix(z: Zset, keep: int, age: int, now: int)
    ensures Excess(z, keep, age, now) <= |Order(z)|
    ensures TrimmedAway(z, keep, age, now) == Members(Order(z)[..Min(Excess(z, keep, age, now), MAX_TRIM)])
  {
    ExcessFits(z, keep, age, now);
    if keep <= 0 || age <= 0 {
      TakeIsPrefix(Order(z), MAX_TRIM);
    } else {
      RetainedTrim(z, keep, age, Cutoff(now, age));
    }
  }

  lemma TrimsOnlyMembers(z: Zset, keep: int, age: int, now: int)
    ensures TrimmedAway(z, keep, age, now) <= z.Keys
  {
    TrimIsPrefix(z, keep, age, now);
    OrderIsOrder(z);
    var n := Min(Excess(z, keep, age, now), MAX_TRIM);
    assert forall i :: 0 <= i < n ==> Order(z)[i] in z;
  }

  lemma TrimDropsPrefix(z: Zset, keep: int, age: int, now: int)
    ensures Excess(z, keep, age, now) <= |Order(z)|
    ensures Order(After(z, keep, age, now)) == Order(z)[Min(Excess(z, keep, age, now), MAX_TRIM)..]
  {
    TrimIsPrefix(z, keep, age, now);
    DropFirst(z, Min(Excess(z, keep, age, now), MAX_TRIM));
  }

  /** Members are in score order, so the old ones are those before a place. */
  lemma AgedPlaces(z: Zset, hi: int, i: nat)
    requires i < |Order(z)|
    ensures Order(z)[i] in z && (i < |UpTo(z, hi)| <==> z[Order(z)[i]] <= hi)
  {
    OrderIsOrder(z);
    UpToIsPrefix(z, hi);
    UpToMembers(z, hi);
    var o := Order(z);
    assert o[i] in z;
    var aged := UpTo(z, hi);
    if i < |aged| {
      assert aged[i] == o[i];
    } else {
      OrderDistinct(z, o);
      assert forall j :: 0 <= j < |aged| ==> aged[j] == o[j] && o[j] != o[i];
    }
  }

  /** Dropping the first d members drops the aged first. */
  lemma AgedAfterDrop(z: Zset, d: nat, hi: int)
    requires d <= |Order(z)|
    ensures var z' := z - Members(Order(z)[..d]);
      |UpTo(z', hi)| == if |UpTo(z, hi)| > d then |UpTo(z, hi)| - d else 0
  {
    var z' := z - Members(Order(z)[..d]);
    DropFirst(z, d);
    UpToIsPrefix(z, hi);
    UpToIsPrefix(z', hi);
    var (a, a') := (|UpTo(z, hi)|, |UpTo(z', hi)|);
    if a' < |Order(z')| {
      AgedPlaces(z', hi, a');
      AgedPlaces(z, hi, d + a');
    }
    if a' > 0 {
      AgedPlaces(z', hi, a' - 1);
      AgedPlaces(z, hi, d + a' - 1);
    }
  }

  lemma TrimSize(z: Zset, keep: int, age: int, now: int)
    ensures |After(z, keep, age, now)| == |z| - Min(Excess(z, keep, age, now), MAX_TRIM)
  {
    TrimDropsPrefix(z, keep, age, now);
    ExcessFits(z, keep, age, now);
    OrderIsOrder(After(z, keep, age, now));
  }

  /** Each trim lowers the excess by what it drops. */
  lemma ExcessAfterTrim(z: Zset, keep: int, age: int, now: int)
    ensures Excess(After(z, keep, age, now), keep, age, now)
            == Excess(z, keep, age, now) - Min(Excess(z, keep, age, now), MAX_TRIM)
  {
    var n := Min(Excess(z, keep, age, now), MAX_TRIM);
    TrimSize(z, keep, age, now);
    TrimIsPrefix(z, keep, age, now);
    AgedAfterDrop(z, n, Cutoff(now, age));
    ExcessFits(z, keep, age, now);
    ExcessDrops(|z|, |UpTo(z, Cutoff(now, age))|, keep, age);
  }

  lemma ExcessDrops(size: nat, aged: nat, keep: int, age: int)
    requires aged <= size
    ensures var e := InExcess(size, aged, keep, age); var n := Min(e, MAX_TRIM);
      n <= size && InExcess(size - n, if aged > n then aged - n else 0, keep, age) == e - n
  {}

  function Trims(z: Zset, k: nat, keep: int, age: int, now: int): Zset {
    if k == 0 then z else Trims(After(z, keep, age, now), k - 1, keep, age, now)
  }

  /** Dropping n and then m is dropping n + m. */
  lemma DropTwice(o: seq<Bytes>, o1: seq<Bytes>, o2: seq<Bytes>, n: nat, m: nat, total: nat)
    requires n <= |o| && o1 == o[n..] && m <= |o1| && o2 == o1[m..] && total == n + m
    ensures total <= |o| && o2 == o[total..]
  {}

  lemma StepsAddUp(e: nat, k: nat)
    requires k > 0
    ensures var n := Min(e, MAX_TRIM); Min(e, MAX_TRIM * k) == n + Min(e - n, MAX_TRIM * (k - 1))
  {}

  /** k trims drop the oldest min(excess, 1000 k): so ceil(excess / 1000) of them
      leave nothing in excess, and one does when the excess is at most 1000. */
  lemma {:induction false} TrimsReach(z: Zset, k: nat, keep: int, age: int, now: int)
    ensures Min(Excess(z, keep, age, now), MAX_TRIM * k) <= |Order(z)|
    ensures Order(Trims(z, k, keep, age, now)) == Order(z)[Min(Excess(z, keep, age, now), MAX_TRIM * k)..]
    decreases k
  {
    if k == 0 {
      assert Order(z)[0..] == Order(z);
    } else {
      var (e, z1) := (Excess(z, keep, age, now), After(z, keep, age, now));
      var (n, m) := (Min(e, MAX_TRIM), Min(e - Min(e, MAX_TRIM), MAX_TRIM * (k - 1)));
      TrimsReach(z1, k - 1, keep, age, now);
      var last := Order(Trims(z1, k - 1, keep, age, now));
      assert last == Order(z1)[m..] by { ExcessAfterTrim(z, keep, age, now); }
      DropTwice(Order(z), Order(z1), last, n, m, Min(e, MAX_TRIM * k)) by {
        TrimDropsPrefix(z, keep, age, now);
        ExcessAfterTrim(z, keep, age, now);
        StepsAddUp(e, k);
      }
    }
  }

  /** What is not in excess is exactly the newest keep that are not too old. */
  lemma NotInExcess(z: Zset, keep: int, age: int, now: int, i: nat)
    requires 0 < keep && 0 < age && i < |Order(z)|
    ensures Order(z)[i] in z
    ensures Excess(z, keep, age, now) <= i <==> now - age < z[Order(z)[i]] && |Order(z)| - i <= keep
  {
    ExcessFits(z, keep, age, now);
    AgedPlaces(z, Cutoff(now, age), i);
    ExcessPlaces(|z|, |UpTo(z, Cutoff(now, age))|, keep, age, i);
  }

  lemma ExcessPlaces(size: nat, aged: nat, keep: int, age: int, i: nat)
    requires 0 < keep && 0 < age && aged <= size
    ensures InExcess(size, aged, keep, age) <= i <==> aged <= i && size - i <= keep
  {}

  /** One trim leaves the oldest but 1000 of what is in excess, and all that is not:
      the newest keep that are not too old. */
  lemma TrimKeepsExactly(z: Zset, keep: int, age: int, now: int, i: nat)
    requires i < |Order(z)|
    ensures Order(z)[i] in z
    ensures Order(z)[i] !in TrimmedAway(z, keep, age, now)
            <==> 1000 <= i || (0 < keep && 0 < age && now - age < z[Order(z)[i]] && |Order(z)| - i <= keep)
  {
    OrderIsOrder(z);
    assert Order(z)[i] in z;
    TrimIsPrefix(z, keep, age, now);
    var n := Min(Excess(z, keep, age, now), MAX_TRIM);
    assert Order(z)[i] in Members(Order(z)[..n]) <==> i < n by { AtPlace(z, i, n); }
    if 0 < keep && 0 < age {
      NotInExcess(z, keep, age, now, i);
    }
  }

  lemma AtPlace(z: Zset, i: nat, n: nat)
    requires i < |Order(z)| && n <= |Order(z)|
    ensures Order(z)[i] in Members(Order(z)[..n]) <==> i < n
  {
    OrderIsOrder(z);
    OrderDistinct(z, Order(z));
    assert i < n ==> Order(z)[..n][i] == Order(z)[i];
  }

  /** The i-th oldest job of a state and its record after a trim at ms. */
  predicate TrimmedRight(r: Records, t: Records, outcome: Outcome, keep: int, age: int, ms: int, i: nat)
    requires i < |Order(IndexOf(r, outcome))|
  {
    var (z, z') := (IndexOf(r, outcome), IndexOf(t, outcome));
    var job := Order(z)[i];
    && job in z && z'.Keys <= z.Keys
    && (job in z' <==> 1000 <= i || (0 < keep && 0 < age && ms - age < z[job] && |Order(z)| - i <= keep))
    && (job !in z' ==> job !in t.jobs)
  }

  /** A trim of both states trims each by its own retention, at the call's
      millisecond, and drops the records of what it trims. */
  lemma TrimsByOwnRetention(envid: Bytes -> Bytes, s: Store, e: Event, outcome: Outcome, i: nat)
    requires e.call.TrimRecords? && i < |Order(IndexOf(s.records, outcome))|
    ensures var c := e.call;
      var (keep, age) := if outcome.Completed? then (c.keepCompleted, c.ageCompleted) else (c.keepFailed, c.ageFailed);
      TrimmedRight(s.records, Apply(envid, s, e).records, outcome, keep, age, e.now / 1000, i)
  {
    var c := e.call;
    var t := TrimBoth(s.records, c.keepCompleted, c.ageCompleted, c.keepFailed, c.ageFailed, e.now);
    assert Apply(envid, s, e).records == t by { TrimIs(envid, s, e, t); }
    BothByOwnRetention(s.records, c.keepCompleted, c.ageCompleted, c.keepFailed, c.ageFailed, e.now, outcome, i);
  }

  lemma TrimIs(envid: Bytes -> Bytes, s: Store, e: Event, t: Records)
    requires e.call.TrimRecords?
    requires t == TrimBoth(s.records, e.call.keepCompleted, e.call.ageCompleted, e.call.keepFailed, e.call.ageFailed,
                           e.now)
    ensures Apply(envid, s, e) == s.(records := t)
  {}

  lemma BothByOwnRetention(r: Records, kc: int, ac: int, kf: int, af: int, now: int, outcome: Outcome, i: nat)
    requires i < |Order(IndexOf(r, outcome))|
    ensures var (keep, age) := if outcome.Completed? then (kc, ac) else (kf, af);
      TrimmedRight(r, TrimBoth(r, kc, ac, kf, af, now), outcome, keep, age, now / 1000, i)
  {
    TrimmedBoth(r, kc, ac, kf, af, now);
    OwnRetention(r, TrimBoth(r, kc, ac, kf, af, now), kc, ac, kf, af, now / 1000, outcome, i);
  }

  lemma OwnRetention(r: Records, t: Records, kc: int, ac: int, kf: int, af: int, ms: int, outcome: Outcome, i: nat)
    requires t.completed == r.completed - TrimmedAway(r.completed, kc, ac, ms)
    requires t.failed == r.failed - TrimmedAway(r.failed, kf, af, ms)
    requires t.jobs == r.jobs - TrimmedAway(r.completed, kc, ac, ms) - TrimmedAway(r.failed, kf, af, ms)
    requires i < |Order(IndexOf(r, outcome))|
    ensures var (keep, age) := if outcome.Completed? then (kc, ac) else (kf, af);
      TrimmedRight(r, t, outcome, keep, age, ms, i)
  {
    if outcome.Completed? {
      IndexTrimmed(r.completed, t.completed, t.jobs, kc, ac, ms, i);
    } else {
      IndexTrimmed(r.failed, t.failed, t.jobs, kf, af, ms, i);
    }
  }

  lemma IndexTrimmed(z: Zset, z': Zset, jobs: map<Bytes, Record>, keep: int, age: int, now: int, i: nat)
    requires z' == z - TrimmedAway(z, keep, age, now) && jobs.Keys !! TrimmedAway(z, keep, age, now)
    requires i < |Order(z)|
    ensures Order(z)[i] in z && z'.Keys <= z.Keys
    ensures Order(z)[i] in z'
            <==> 1000 <= i || (0 < keep && 0 < age && now - age < z[Order(z)[i]] && |Order(z)| - i <= keep)
    ensures Order(z)[i] !in z' ==> Order(z)[i] !in jobs
  {
    TrimKeepsExactly(z, keep, age, now, i);
  }

  lemma TrimmedBoth(r: Records, kc: int, ac: int, kf: int, af: int, now: int)
    ensures var (t, ms) := (TrimBoth(r, kc, ac, kf, af, now), now / 1000);
      && t.completed == r.completed - TrimmedAway(r.completed, kc, ac, ms)
      && t.failed == r.failed - TrimmedAway(r.failed, kf, af, ms)
      && t.jobs == r.jobs - TrimmedAway(r.completed, kc, ac, ms) - TrimmedAway(r.failed, kf, af, ms)
  {}

  // ---- the indexes over runs ----

  /** A job is completed or failed, not both, and has a record only in its index. */
  predicate InStep(r: Records) {
    && r.completed.Keys !! r.failed.Keys
    && r.jobs.Keys <= r.completed.Keys + r.failed.Keys
  }

  /** And every indexed job has its record. */
  predicate AllRecorded(r: Records) {
    r.jobs.Keys == r.completed.Keys + r.failed.Keys
  }

  lemma TrimInStep(r: Records, outcome: Outcome, keep: int, age: int, now: int)
    requires InStep(r)
    ensures InStep(Trim(r, outcome, keep, age, now))
    ensures AllRecorded(r) ==> AllRecorded(Trim(r, outcome, keep, age, now))
  {
    var gone := TrimmedAway(IndexOf(r, outcome), keep, age, now);
    TrimsOnlyMembers(IndexOf(r, outcome), keep, age, now);
    LessBoth(r, outcome, gone);
  }

  lemma LessBoth(r: Records, outcome: Outcome, gone: set<Bytes>)
    requires InStep(r) && gone <= IndexOf(r, outcome).Keys
    ensures var r' := WithIndex(r, outcome, IndexOf(r, outcome) - gone).(jobs := r.jobs - gone);
      InStep(r') && (AllRecorded(r) ==> AllRecorded(r'))
  {
    match outcome
    case Completed => assert r.completed.Keys - gone + r.failed.Keys == r.completed.Keys + r.failed.Keys - gone;
    case Failed => assert r.completed.Keys + (r.failed.Keys - gone) == r.completed.Keys + r.failed.Keys - gone;
  }

  lemma FiledInStep(r: Records, job: Bytes, record: Record, keeps: bool)
    requires InStep(r)
    ensures InStep(Filed(r, job, record, keeps))
    ensures keeps && AllRecorded(r) ==> AllRecorded(Filed(r, job, record, keeps))
  {}

  predicate KeepsRecords(c: Call) {
    c.Settle? ==> c.keep > 0 && c.age > 0
  }

  /** How a call changes the records: a finish files one, trims drop some. */
  function RecordsStep(envid: Bytes -> Bytes, s: Store, e: Event): Records {
    match e.call
    case Settle(id, outcome, reason, keep, age) =>
      if id in s.work.pending.nacked then
        Trim(Filed(s.records, JobId(envid, s.work.pending.nacked[id], id),
                   RecordOf(envid, s.work, id, outcome, reason, e.now), keep > 0 && age > 0),
             outcome, keep, age, Millis(e.now))
      else s.records
    case TrimRecords(kc, ac, kf, af) => TrimBoth(s.records, kc, ac, kf, af, e.now)
    case PurgeAll => Records(map[], map[], map[])
    case _ => s.records
  }

  lemma RecordsAre(envid: Bytes -> Bytes, s: Store, e: Event)
    ensures Apply(envid, s, e).records == RecordsStep(envid, s, e)
  {
    match e.call
    case PopBy(script, p) =>
    case _ =>
  }

  lemma FinishInStep(r: Records, job: Bytes, record: Record, outcome: Outcome, keep: int, age: int, now: int)
    requires InStep(r)
    ensures var r' := Trim(Filed(r, job, record, keep > 0 && age > 0), outcome, keep, age, now);
      InStep(r') && (keep > 0 && age > 0 && AllRecorded(r) ==> AllRecorded(r'))
  {
    FiledInStep(r, job, record, keep > 0 && age > 0);
    TrimInStep(Filed(r, job, record, keep > 0 && age > 0), outcome, keep, age, now);
  }

  lemma TrimBothInStep(r: Records, kc: int, ac: int, kf: int, af: int, now: int)
    requires InStep(r)
    ensures InStep(TrimBoth(r, kc, ac, kf, af, now))
    ensures AllRecorded(r) ==> AllRecorded(TrimBoth(r, kc, ac, kf, af, now))
  {
    TrimInStep(r, Completed, kc, ac, Millis(now));
    TrimInStep(Trim(r, Completed, kc, ac, Millis(now)), Failed, kf, af, Millis(now));
  }

  lemma TrimmedInStep(envid: Bytes -> Bytes, s: Store, e: Event)
    requires InStep(s.records) && e.call.TrimRecords?
    ensures InStep(Apply(envid, s, e).records)
    ensures AllRecorded(s.records) && KeepsRecords(e.call) ==> AllRecorded(Apply(envid, s, e).records)
  {
    var c := e.call;
    var t := TrimBoth(s.records, c.keepCompleted, c.ageCompleted, c.keepFailed, c.ageFailed, e.now);
    TrimBothInStep(s.records, c.keepCompleted, c.ageCompleted, c.keepFailed, c.ageFailed, e.now);
    assert Apply(envid, s, e).records == t by { TrimIs(envid, s, e, t); }
  }

  lemma SettledInStep(envid: Bytes -> Bytes, s: Store, e: Event)
    requires InStep(s.records) && e.call.Settle?
    ensures InStep(Apply(envid, s, e).records)
    ensures AllRecorded(s.records) && KeepsRecords(e.call) ==> AllRecorded(Apply(envid, s, e).records)
  {
    var c := e.call;
    if c.id in s.work.pending.nacked {
      var job := JobId(envid, s.work.pending.nacked[c.id], c.id);
      var record := RecordOf(envid, s.work, c.id, c.outcome, c.reason, e.now);
      var t := Trim(Filed(s.records, job, record, c.keep > 0 && c.age > 0), c.outcome, c.keep, c.age, Millis(e.now));
      FinishInStep(s.records, job, record, c.outcome, c.keep, c.age, Millis(e.now));
      assert Apply(envid, s, e).records == t by { SettleIs(envid, s, e, t); }
    }
  }

  lemma SettleIs(envid: Bytes -> Bytes, s: Store, e: Event, t: Records)
    requires e.call.Settle? && e.call.id in s.work.pending.nacked
    requires t == Trim(Filed(s.records, JobId(envid, s.work.pending.nacked[e.call.id], e.call.id),
                             RecordOf(envid, s.work, e.call.id, e.call.outcome, e.call.reason, e.now),
                             e.call.keep > 0 && e.call.age > 0),
                       e.call.outcome, e.call.keep, e.call.age, Millis(e.now))
    ensures Apply(envid, s, e).records == t
  {}

  lemma OthersKeepRecords(envid: Bytes -> Bytes, s: Store, e: Event)
    requires !e.call.Settle? && !e.call.TrimRecords? && !e.call.PurgeAll?
    ensures Apply(envid, s, e).records == s.records
  {
    match e.call
    case PopBy(_, _) =>
    case _ =>
  }

  lemma InStepStep(envid: Bytes -> Bytes, s: Store, e: Event)
    requires InStep(s.records)
    ensures InStep(Apply(envid, s, e).records)
    ensures AllRecorded(s.records) && KeepsRecords(e.call) ==> AllRecorded(Apply(envid, s, e).records)
  {
    if e.call.Settle? {
      SettledInStep(envid, s, e);
    } else if e.call.TrimRecords? {
      TrimmedInStep(envid, s, e);
    } else if !e.call.PurgeAll? {
      OthersKeepRecords(envid, s, e);
    }
  }

  lemma {:induction false} InStepRun(envid: Bytes -> Bytes, s: Store, es: seq<Event>)
    requires InStep(s.records)
    ensures InStep(Run(envid, s, es).records)
    ensures AllRecorded(s.records) && (forall i :: 0 <= i < |es| ==> KeepsRecords(es[i].call))
            ==> AllRecorded(Run(envid, s, es).records)
    decreases |es|
  {
    if es != [] {
      InStepStep(envid, s, es[0]);
      InStepRun(envid, Apply(envid, s, es[0]), es[1..]);
    }
  }

  /** In every reachable state no job is both completed and failed and every
      record is indexed; with positive retention every indexed job has one. */
  lemma RecordsInStep(envid: Bytes -> Bytes, ranked: bool, es: seq<Event>)
    ensures var r := Run(envid, Empty(ranked), es).records;
      && r.completed.Keys !! r.failed.Keys
      && r.jobs.Keys <= r.completed.Keys + r.failed.Keys
      && ((forall i :: 0 <= i < |es| ==> KeepsRecords(es[i].call)) ==> r.jobs.Keys == r.completed.Keys + r.failed.Keys)
  {
    InStepRun(envid, Empty(ranked), es);
  }

  /** A finish at now keeps its job's record exactly when the retention keeps any
      and, in its state's index with the job at now, the job is among the newest
      keep or past the oldest 1000. */
  lemma RecordKept(r: Records, job: Bytes, record: Record, keep: int, age: int, now: int)
    requires record.finishedAt == now
    ensures var z := IndexOf(r, record.state)[job := now];
      job in Trim(Filed(r, job, record, keep > 0 && age > 0), record.state, keep, age, now).jobs
      <==> 0 < keep && 0 < age && (|z| - |Ahead(z, job)| <= keep || MAX_TRIM <= |Ahead(z, job)|)
  {
    if keep > 0 && age > 0 {
      var z := IndexOf(r, record.state)[job := now];
      var (e, i) := (Excess(z, keep, age, now), |Ahead(z, job)|);
      TrimIsPrefix(z, keep, age, now);
      OrderIsOrder(z);
      PlaceIn(z, job, Min(e, MAX_TRIM));
      NotInExcess(z, keep, age, now, i);
      FiledIndex(r, job, record);
    }
  }

  lemma FiledIndex(r: Records, job: Bytes, record: Record)
    ensures var f := Filed(r, job, record, true);
      IndexOf(f, record.state) == IndexOf(r, record.state)[job := record.finishedAt] && job in f.jobs
  {}

  /** So the last to finish keeps its record. */
  lemma NewestIsKept(r: Records, job: Bytes, record: Record, keep: int, age: int, now: int)
    requires record.finishedAt == now && 0 < keep && 0 < age
    requires forall m :: m in IndexOf(r, record.state) && m != job ==> IndexOf(r, record.state)[m] < now
    ensures job in Trim(Filed(r, job, record, true), record.state, keep, age, now).jobs
  {
    var z := IndexOf(r, record.state)[job := now];
    NewestAhead(z, job);
    RecordKept(r, job, record, keep, age, now);
  }

  lemma NewestAhead(z: Zset, job: Bytes)
    requires job in z && forall m :: m in z && m != job ==> z[m] < z[job]
    ensures |Ahead(z, job)| == |z| - 1
  {
    BeforeIrreflexive(z, job);
    assert Ahead(z, job) == z.Keys - {job};
  }

  /** A finish that keeps no record drops the job's record but not its place in
      its state's index, which the trim then drops only from the oldest 1000: an
      indexed job is left without its record exactly when it stands past them. */
  lemma RecordlessJob(r: Records, job: Bytes, record: Record, keep: int, age: int, now: int)
    requires InStep(r) && AllRecorded(r) && (keep <= 0 || age <= 0)
    ensures var t := Trim(Filed(r, job, record, false), record.state, keep, age, now);
      var z := IndexOf(r, record.state);
      && (AllRecorded(t) <==> job !in z || job in Order(z)[..Min(|Order(z)|, MAX_TRIM)])
      && (!AllRecorded(t) ==> job in IndexOf(t, record.state) && job !in t.jobs)
  {
    var (z, y) := (IndexOf(r, record.state), IndexOf(r, Other(record.state)));
    var gone := TrimmedAway(z, keep, age, now);
    TakeIsPrefix(Order(z), MAX_TRIM);
    TrimsOnlyMembers(z, keep, age, now);
    UnrecordedTrim(r, job, record, gone);
    RecordlessSets(r.jobs.Keys, z.Keys, y.Keys, gone, job);
  }

  /** The key sets after a filing without a record and a trim of gone. */
  lemma UnrecordedTrim(r: Records, job: Bytes, record: Record, gone: set<Bytes>)
    ensures var f := Filed(r, job, record, false);
      var t := WithIndex(f, record.state, IndexOf(f, record.state) - gone).(jobs := f.jobs - gone);
      && IndexOf(f, record.state) == IndexOf(r, record.state)
      && t.jobs.Keys == r.jobs.Keys - {job} - gone
      && IndexOf(t, record.state).Keys == IndexOf(r, record.state).Keys - gone
      && IndexOf(t, Other(record.state)).Keys == IndexOf(r, Other(record.state)).Keys - {job}
      && (AllRecorded(t) <==> t.jobs.Keys == IndexOf(t, record.state).Keys + IndexOf(t, Other(record.state)).Keys)
  {
    match record.state
    case Completed =>
    case Failed =>
  }

  lemma RecordlessSets(jobs: set<Bytes>, z: set<Bytes>, y: set<Bytes>, gone: set<Bytes>, job: Bytes)
    requires jobs == z + y && z !! y && gone <= z
    ensures jobs - {job} - gone == (z - gone) + (y - {job}) <==> job !in z || job in gone
  {
    if job in z && job !in gone {
      assert job in (z - gone) + (y - {job});
    } else {
      assert forall j :: j in jobs - {job} - gone <==> j in (z - gone) + (y - {job});
    }
  }

  // ---- a fixed retention bounds each index ----

  predicate Retains(c: Call, outcome: Outcome, keep: int, age: int) {
    && (c.Settle? && c.outcome == outcome ==> c.keep == keep && c.age == age)
    && (c.TrimRecords? ==>
          if outcome.Completed? then c.keepCompleted == keep && c.ageCompleted == age
          else c.keepFailed == keep && c.ageFailed == age)
  }

  /** The state's index under a fixed retention never holds more than keep, and
      with no age to keep for, nothing. */
  predicate Bounded(r: Records, outcome: Outcome, keep: int, age: int) {
    |IndexOf(r, outcome)| <= if keep > 0 && age > 0 then keep else 0
  }

  lemma FiledIndexes(r: Records, job: Bytes, record: Record, keeps: bool)
    ensures |IndexOf(Filed(r, job, record, keeps), record.state)|
            <= |IndexOf(r, record.state)| + (if keeps then 1 else 0)
    ensures |IndexOf(Filed(r, job, record, keeps), Other(record.state))| <= |IndexOf(r, Other(record.state))|
  {
    var (z, y) := (IndexOf(r, record.state), IndexOf(r, Other(record.state)));
    assert z[job := record.finishedAt].Keys == z.Keys + {job};
    assert (y - {job}).Keys == y.Keys - {job};
  }

  lemma RecordsStepBounded(envid: Bytes -> Bytes, s: Store, e: Event, outcome: Outcome, keep: int, age: int)
    requires Bounded(s.records, outcome, keep, age) && Retains(e.call, outcome, keep, age)
    ensures Bounded(RecordsStep(envid, s, e), outcome, keep, age)
  {
    match e.call
    case Settle(id, done, reason, k, a) =>
      if id in s.work.pending.nacked {
        var record := RecordOf(envid, s.work, id, done, reason, e.now);
        SettledBounded(s.records, JobId(envid, s.work.pending.nacked[id], id), record, k, a, Millis(e.now), outcome,
          keep, age);
      }
    case TrimRecords(kc, ac, kf, af) =>
      TrimSize(s.records.completed, kc, ac, Millis(e.now));
      TrimSize(s.records.failed, kf, af, Millis(e.now));
    case _ =>
  }

  lemma BoundedStep(envid: Bytes -> Bytes, s: Store, e: Event, outcome: Outcome, keep: int, age: int)
    requires Bounded(s.records, outcome, keep, age) && Retains(e.call, outcome, keep, age)
    ensures Bounded(Apply(envid, s, e).records, outcome, keep, age)
  {
    RecordsAre(envid, s, e);
    RecordsStepBounded(envid, s, e, outcome, keep, age);
  }

  lemma SettledBounded(r: Records, job: Bytes, record: Record, k: int, a: int, now: int, outcome: Outcome, keep: int,
      age: int)
    requires Bounded(r, outcome, keep, age) && (record.state == outcome ==> k == keep && a == age)
    ensures Bounded(Trim(Filed(r, job, record, k > 0 && a > 0), record.state, k, a, now), outcome, keep, age)
  {
    var r' := Filed(r, job, record, k > 0 && a > 0);
    FiledIndexes(r, job, record, k > 0 && a > 0);
    TrimSize(IndexOf(r', record.state), k, a, now);
    if record.state != outcome {
      assert outcome == Other(record.state);
    }
  }

  lemma {:induction false} BoundedRun(envid: Bytes -> Bytes, s: Store, es: seq<Event>, outcome: Outcome, keep: int,
      age: int)
    requires Bounded(s.records, outcome, keep, age)
    requires forall i :: 0 <= i < |es| ==> Retains(es[i].call, outcome, keep, age)
    ensures Bounded(Run(envid, s, es).records, outcome, keep, age)
    decreases |es|
  {
    if es != [] {
      BoundedStep(envid, s, es[0], outcome, keep, age);
      BoundedRun(envid, Apply(envid, s, es[0]), es[1..], outcome, keep, age);
    }
  }
}

/** A run in which an indexed job loses its record: more than 1000 jobs finish, and
    the last one's envelope id is pushed and finished again with no retention. */
module RecordlessRun {
  import opened ByteStrings
  import opened SortedSets
  import opened AckIds
  import opened WaitingQueue
  import opened Store
  import opened Runs
  import opened Resend
  import opened JobRecords
  import opened ScriptSteps

  /** Items that are their own envelope ids. */
  function Itself(item: Bytes): Bytes {
    item
  }

  function Name(n: nat): (name: Bytes)
    ensures |name| == n
  {
    seq(n, i => 0)
  }

  const KEEP: int := 2000
  const AGE: int := 10_000

  function At(n: nat): int {
    1000 * n
  }

  lemma MillisAt(n: nat)
    ensures Millis(At(n)) == n
  {}

  // ---- the state after n jobs ----

  function Indexed(n: nat): (z: Zset)
    ensures forall m :: m in z <==> 1 <= |m| <= n && m == Name(|m|)
    ensures forall m :: m in z ==> z[m] == |m|
  {
    if n == 0 then map[] else Indexed(n - 1)[Name(n) := n]
  }

  function Recorded(n: nat): (jobs: map<Bytes, Record>)
    ensures jobs.Keys == Indexed(n).Keys
  {
    if n == 0 then map[] else Recorded(n - 1)[Name(n) := Record(Completed, Name(n), Some(n), n, 1, None)]
  }

  /** A list queue with this work, counters and records, and nothing else. */
  function With(w: Work, stats: Stats, r: Records): Store {
    Empty(false).(work := w, stats := stats, records := r)
  }

  function RecordsAfter(n: nat): Records {
    Records(Recorded(n), Indexed(n), map[])
  }

  function AfterJobs(n: nat): Store {
    With(EmptyWork(false), Stats(n, n, 0), RecordsAfter(n))
  }

  /** A run from an empty queue after which n jobs are done. */
  ghost predicate Does(es: seq<Event>, n: nat) {
    ProperRun(Itself, Empty(false), es) && Run(Itself, Empty(false), es) == AfterJobs(n)
  }

  lemma {:induction false} IndexedSize(n: nat)
    ensures |Indexed(n)| == n
  {
    if n > 0 {
      IndexedSize(n - 1);
      var names := Indexed(n - 1).Keys;
      assert Name(n) !in names && Indexed(n).Keys == names + {Name(n)};
      assert |Indexed(n)| == |Indexed(n).Keys| == |names| + 1;
    }
  }

  // ---- one job ----

  function PopFor(owner: Owner, n: nat): Pop {
    Pop(owner, n, 1, 0, 0, [], 1)
  }

  function PopEvent(owner: Owner, n: nat): Event {
    Event(At(n), {}, PopBy(LeanScript, PopFor(owner, n)))
  }

  function FinishEvent(owner: Owner, n: nat, keep: int, age: int): Event {
    Event(At(n), {}, Settle(AckId(owner, n, 1), Completed, [], keep, age))
  }

  /** The item is pushed, popped under reservation n, and acknowledged. */
  function JobRun(owner: Owner, item: Item, n: nat, keep: int, age: int): seq<Event> {
    [PushOf(item, At(n)), PopEvent(owner, n), FinishEvent(owner, n, keep, age)]
  }

  function Waiting1(item: Item): Work {
    EmptyWork(false).(queue := Listed([item]))
  }

  function Pending1(id: Id, item: Item, n: nat): Work {
    EmptyWork(false).(pending := Pending(map[id := item], map[], map[id := n], map[]))
  }

  function RecordFor(item: Item, n: nat): Record {
    Record(Completed, item, Some(n), n, 1, None)
  }

  function FiledFor(r: Records, item: Item, n: nat, keep: int, age: int): Records {
    Trim(Filed(r, item, RecordFor(item, n), keep > 0 && age > 0), Completed, keep, age, n)
  }

  function Plus(stats: Stats, submitted: nat, completed: nat): Stats {
    Stats(stats.submitted + submitted, stats.completed + completed, stats.failed)
  }

  /** A job through an otherwise empty queue changes only the counters and the
      records. */
  lemma JobDone(stats: Stats, r: Records, owner: Owner, item: Item, n: nat, keep: int, age: int)
    requires IsOwner(owner) && n < UINT64_LIMIT && item != []
    ensures var (s, es) := (With(EmptyWork(false), stats, r), JobRun(owner, item, n, keep, age));
      && ProperRun(Itself, s, es)
      && Run(Itself, s, es) == With(EmptyWork(false), Plus(stats, 1, 1), FiledFor(r, item, n, keep, age))
  {
    var s1 := With(Waiting1(item), Plus(stats, 1, 0), r);
    var s2 := With(Pending1(AckId(owner, n, 1), item, n), Plus(stats, 1, 0), r);
    var s3 := With(EmptyWork(false), Plus(stats, 1, 1), FiledFor(r, item, n, keep, age));
    JobCallsProper(stats, r, owner, item, n, keep, age);
    JobPushed(stats, r, item, n);
    JobPopped(Plus(stats, 1, 0), r, owner, item, n);
    JobFinished(stats, r, owner, item, n, keep, age);
    ThreeSteps(Itself, With(EmptyWork(false), stats, r), PushOf(item, At(n)), s1, PopEvent(owner, n), s2,
               FinishEvent(owner, n, keep, age), s3);
  }

  lemma JobCallsProper(stats: Stats, r: Records, owner: Owner, item: Item, n: nat, keep: int, age: int)
    requires IsOwner(owner) && n < UINT64_LIMIT
    ensures Proper(With(EmptyWork(false), stats, r), PushOf(item, At(n)))
    ensures Proper(With(Waiting1(item), Plus(stats, 1, 0), r), PopEvent(owner, n))
    ensures Proper(With(Pending1(AckId(owner, n, 1), item, n), Plus(stats, 1, 0), r), FinishEvent(owner, n, keep, age))
  {}

  lemma JobPushed(stats: Stats, r: Records, item: Item, n: nat)
    ensures Apply(Itself, With(EmptyWork(false), stats, r), PushOf(item, At(n)))
      == With(Waiting1(item), Plus(stats, 1, 0), r)
  {
    assert [] + [item] == [item];
  }

  lemma JobPopped(stats: Stats, r: Records, owner: Owner, item: Item, n: nat)
    ensures Apply(Itself, With(Waiting1(item), stats, r), PopEvent(owner, n))
            == With(Pending1(AckId(owner, n, 1), item, n), stats, r)
  {
    MillisAt(n);
    var (s, id) := (With(Waiting1(item), stats, r), AckId(owner, n, 1));
    var items := FrontItems(s.work.queue, 1);
    assert FirstId(PopFor(owner, n)) == id;
    var ids: seq<Id> := [id];
    assert items == [item] && [item][1..] == [];
    assert ids[..0] == [] && items[..0] == [];
    assert Put(s.work.pending.nacked, ids[..0], items[..0]) == map[];
    assert PutAll(s.work.pending.started, ids[..0], n) == map[];
  }

  lemma JobFinished(stats: Stats, r: Records, owner: Owner, item: Item, n: nat, keep: int, age: int)
    requires item != []
    ensures Apply(Itself, With(Pending1(AckId(owner, n, 1), item, n), Plus(stats, 1, 0), r),
      FinishEvent(owner, n, keep, age))
            == With(EmptyWork(false), Plus(stats, 1, 1), FiledFor(r, item, n, keep, age))
  {
    assert Plus(Plus(stats, 1, 0), 0, 1) == Plus(stats, 1, 1);
    OneFinished(Plus(stats, 1, 0), r, owner, item, n, keep, age);
  }

  lemma OneFinished(stats: Stats, r: Records, owner: Owner, item: Item, n: nat, keep: int, age: int)
    requires item != []
    ensures Apply(Itself, With(Pending1(AckId(owner, n, 1), item, n), stats, r), FinishEvent(owner, n, keep, age))
            == With(EmptyWork(false), Plus(stats, 0, 1), FiledFor(r, item, n, keep, age))
  {
    MillisAt(n);
    WorkFinished(AckId(owner, n, 1), item, n);
    assert RecordOf(Itself, Pending1(AckId(owner, n, 1), item, n), AckId(owner, n, 1), Completed, [], At(n))
      == RecordFor(item, n);
  }

  lemma WorkFinished(id: Id, item: Item, n: nat)
    requires item != []
    ensures FinishedWork(Itself, Pending1(id, item, n), id) == EmptyWork(false)
  {
    assert map[id := item] - {id} == map[] && map[id := n] - {id} == map[];
  }

  // ---- n jobs ----

  /** Up to 2000 jobs within 10 seconds, no trim drops any. */
  lemma NothingTrimmed(n: nat)
    requires n <= KEEP
    ensures TrimmedAway(Indexed(n), KEEP, AGE, n) == {}
  {
    IndexedSize(n);
    UpToMembers(Indexed(n), Cutoff(n, AGE));
    NoMembers(UpTo(Indexed(n), Cutoff(n, AGE)));
  }

  lemma TrimsNone(r: Records, n: nat)
    requires TrimmedAway(r.completed, KEEP, AGE, n) == {}
    ensures Trim(r, Completed, KEEP, AGE, n) == r
  {
    assert r.completed - {} == r.completed && r.jobs - {} == r.jobs;
  }

  lemma FiledOnto(jobs: map<Bytes, Record>, z: Zset, item: Item, n: nat)
    requires TrimmedAway(z[item := n], KEEP, AGE, n) == {}
    ensures FiledFor(Records(jobs, z, map[]), item, n, KEEP, AGE)
            == Records(jobs[item := RecordFor(item, n)], z[item := n], map[])
  {
    var r' := Records(jobs[item := RecordFor(item, n)], z[item := n], map[]);
    var none: Zset := map[];
    assert none - {item} == none;
    assert Filed(Records(jobs, z, map[]), item, RecordFor(item, n), true) == r';
    TrimsNone(r', n);
  }

  lemma FiledNext(n: nat)
    requires 0 < n <= KEEP
    ensures FiledFor(RecordsAfter(n - 1), Name(n), n, KEEP, AGE) == RecordsAfter(n)
  {
    NothingTrimmed(n);
    FiledOnto(Recorded(n - 1), Indexed(n - 1), Name(n), n);
  }

  lemma NextJob(owner: Owner, n: nat) returns (fs: seq<Event>)
    requires IsOwner(owner) && 0 < n <= KEEP
    ensures ProperRun(Itself, AfterJobs(n - 1), fs) && Run(Itself, AfterJobs(n - 1), fs) == AfterJobs(n)
  {
    JobDone(Stats(n - 1, n - 1, 0), RecordsAfter(n - 1), owner, Name(n), n, KEEP, AGE);
    FiledNext(n);
    fs := JobRun(owner, Name(n), n, KEEP, AGE);
  }

  lemma MoreJobs(owner: Owner, n: nat, h: seq<Event>) returns (es: seq<Event>)
    requires IsOwner(owner) && 0 < n <= KEEP
    requires Does(h, n - 1)
    ensures Does(es, n)
  {
    var fs := NextJob(owner, n);
    RunAppend(Itself, Empty(false), h, AfterJobs(n - 1), fs);
    es := h + fs;
  }

  lemma NoJobs() returns (es: seq<Event>)
    ensures Does(es, 0)
  {
    es := [];
  }

  /** A run from an empty queue that finishes n jobs. */
  lemma {:induction false} JobsDone(owner: Owner, n: nat) returns (es: seq<Event>)
    requires IsOwner(owner) && n <= KEEP
    ensures Does(es, n)
  {
    es := NoJobs();
    if n > 0 {
      var h := JobsDone(owner, n - 1);
      es := MoreJobs(owner, n, h);
    }
  }

  /** The last job stands past the oldest n - 1. */
  lemma LastPlace(n: nat)
    requires 0 < n
    ensures Name(n) in Indexed(n) && |Order(Indexed(n))| == n && Name(n) !in Order(Indexed(n))[..n - 1]
  {
    var (z, m) := (Indexed(n), Name(n));
    IndexedSize(n);
    OrderIsOrder(z);
    assert m in Order(z);
    var k :| 0 <= k < n && Order(z)[k] == m;
    if k < n - 1 {
      var y := Order(z)[n - 1];
      assert y in z && Before(z, Order(z)[k], Order(z)[n - 1]);
    }
    OrderDistinct(z, Order(z));
  }

  function FiledAgain(n: nat): Records {
    FiledFor(RecordsAfter(n), Name(n), n + 1, 0, 0)
  }

  /** A run of n jobs, and one in which the last one's envelope id is then pushed,
      popped and finished with no retention. */
  lemma DoneAgain(owner: Owner, n: nat) returns (es: seq<Event>)
    requires IsOwner(owner) && 0 < n <= KEEP
    ensures Run(Itself, Empty(false), es).records == RecordsAfter(n)
    ensures ProperRun(Itself, Empty(false), es + JobRun(owner, Name(n), n + 1, 0, 0))
    ensures Run(Itself, Empty(false), es + JobRun(owner, Name(n), n + 1, 0, 0)).records == FiledAgain(n)
  {
    es := JobsDone(owner, n);
    JobDone(Stats(n, n, 0), RecordsAfter(n), owner, Name(n), n + 1, 0, 0);
    RunAppend(Itself, Empty(false), es, AfterJobs(n), JobRun(owner, Name(n), n + 1, 0, 0));
  }

  lemma AllInStep(n: nat)
    ensures InStep(RecordsAfter(n)) && AllRecorded(RecordsAfter(n))
  {}

  /** With more than 1000 jobs, all recorded and indexed, before the last finish,
      its job stays in the index and has no record. */
  lemma RecordlessRun(owner: Owner, n: nat) returns (es: seq<Event>)
    requires IsOwner(owner) && MAX_TRIM < n <= KEEP
    ensures var again := JobRun(owner, Name(n), n + 1, 0, 0);
      var (before, after) := (Run(Itself, Empty(false), es).records, Run(Itself, Empty(false), es + again).records);
      && ProperRun(Itself, Empty(false), es + again)
      && InStep(before) && AllRecorded(before) && |before.completed| == n
      && Name(n) in after.completed && Name(n) !in after.jobs
  {
    es := DoneAgain(owner, n);
    IndexedSize(n);
    AllInStep(n);
    LastPlace(n);
    LosesRecord(Recorded(n), Indexed(n), Name(n), n - 1, n + 1);
  }

  lemma LosesRecord(jobs: map<Bytes, Record>, z: Zset, job: Bytes, place: nat, now: nat)
    requires jobs.Keys == z.Keys && job in z
    requires MAX_TRIM <= place <= |Order(z)| && job !in Order(z)[..place]
    ensures var t := FiledFor(Records(jobs, z, map[]), job, now, 0, 0); job in t.completed && job !in t.jobs
  {
    var first := Order(z)[..MAX_TRIM];
    assert job !in first by {
      assert first == Order(z)[..place][..MAX_TRIM];
    }
    RecordlessJob(Records(jobs, z, map[]), job, RecordFor(job, now), 0, 0, now);
  }
}

/** One queue's Redis keys, and what each script does to them, as functions on
    values. Class Redis runs the scripts step by step against these. Times are
    microseconds; `envid` is the envelope id of an item (empty: none). */
module Store {
  import opened ByteStrings
  import opened SortedSets
  import opened AckIds
  import opened WaitingQueue

  type Item = Bytes

  datatype Option<+T> = None | Some(value: T)

  /** Processing items: `:nacked`, `:timeouts`, `:started` and `:prio`. */
  datatype Pending = Pending(nacked: map<Id, Item>, timeouts: Zset, started: map<Id, int>, prio: map<Id, int>)

  /** The items and what goes with them: the queue key, `:seq`, the pending
      keys and `:attempts`. */
  datatype Work = Work(queue: Waiting, seqNo: nat, pending: Pending, attempts: map<Bytes, nat>)

  /** What sweeps know of owners: `:heartbeats`, its clock and `:presence`. */
  datatype Owners = Owners(heartbeats: Zset, clock: Option<int>, presence: Zset)

  datatype Stats = Stats(submitted: nat, completed: nat, failed: nat)

  datatype Outcome = Completed | Failed

  /** A Job Record; reason is there for a failed job. */
  datatype Record = Record(state: Outcome, item: Item, startedAt: Option<int>, finishedAt: int,
                           attempts: int, reason: Option<Bytes>)

  datatype Records = Records(jobs: map<Bytes, Record>, completed: Zset, failed: Zset)

  datatype Store = Store(work: Work, owners: Owners, idle: set<Owner>, paused: Option<int>,
                         dedup: map<Bytes, int>, stats: Stats, records: Records)

  const SECOND: int := 1_000_000
  const MIN_HEARTBEAT: int := 5 * SECOND
  const SWEEP_GAP: int := 2 * SECOND
  const CLOCK_STEP: int := SECOND / 2
  const PRESENCE_GRACE: int := 2_500_000
  const MAX_EXPIRED: nat := 100
  const MAX_LIVE: nat := 1000
  const MAX_TRIM: nat := 1000

  function EmptyWork(ranked: bool): Work {
    Work(if ranked then Ranked(map[]) else Listed([]), 0, Pending(map[], map[], map[], map[]), map[])
  }

  function Empty(ranked: bool): Store {
    Store(EmptyWork(ranked), Owners(map[], None, map[]), {}, None, map[], Stats(0, 0, 0), Records(map[], map[], map[]))
  }

  // ---- clock helpers (deadlineFn) ----

  function Deadline(now: int, timeout: int): int {
    if timeout <= 0 then 0 else now + timeout
  }

  function Millis(now: int): int {
    now / 1000
  }

  // ---- enqueue (listPushBody, zsetPushBody, once) ----

  function NextSeq(w: Work): nat {
    if w.queue.Ranked? then w.seqNo + 1 else w.seqNo
  }

  function PushWork(w: Work, item: Item, score: int): Work {
    w.(queue := Pushed(w.queue, NextSeq(w), item, score), seqNo := NextSeq(w))
  }

  function Push(s: Store, item: Item, score: int): Store {
    s.(work := PushWork(s.work, item, score), stats := s.stats.(submitted := s.stats.submitted + 1))
  }

  predicate Remembered(s: Store, key: Bytes, now: int) {
    key in s.dedup && now <= s.dedup[key]
  }

  function PushOnce(s: Store, key: Bytes, window: int, item: Item, score: int, now: int): Store {
    if Remembered(s, key, now) then s
    else Push(s, item, score).(dedup := s.dedup[key := now + window])
  }

  // ---- wake (wakeFn) ----

  /** What a wake did: who is left in the idle set, and who it reached. */
  datatype Woken = Woken(left: set<Owner>, reached: set<Owner>)

  /** SPOP members in the order of picks until count subscribed ones are reached. */
  function Wake(picks: seq<Owner>, subs: set<Owner>, count: int): Woken {
    if count <= 0 || picks == [] then Woken(Members(picks), {})
    else if picks[0] in subs then
      var w := Wake(picks[1..], subs, count - 1);
      w.(reached := w.reached + {picks[0]})
    else Wake(picks[1..], subs, count)
  }

  function WakeIdle(s: Store, picks: seq<Owner>, subs: set<Owner>, count: int): Store {
    s.(idle := Wake(picks, subs, count).left)
  }

  // ---- ack pops (popHead, popTail, popOneHead, popOneTail) ----

  /** One pop call's arguments: the timeouts as the call read them. */
  datatype Pop = Pop(owner: Owner, reservation: nat, want: nat, visibility: int, heartbeat: int,
                     consumer: Bytes, slots: nat)

  datatype Reply = Reply(len: nat, items: seq<Item>, refused: bool)

  datatype OneReply = Got(item: Item) | NoItem | Refused

  function IdsOf(p: Pop): seq<Id> {
    AckIdsOf(p.owner, p.reservation, p.want)
  }

  predicate Held(nacked: map<Id, Item>, ids: seq<Id>) {
    exists i :: 0 <= i < |ids| && ids[i] in nacked
  }

  /** How many of the first IDs are pending. */
  function Leading(nacked: map<Id, Item>, ids: seq<Id>): (n: nat)
    ensures n <= |ids|
    ensures forall i :: 0 <= i < n ==> ids[i] in nacked
    ensures n < |ids| ==> ids[n] !in nacked
  {
    if ids == [] || ids[0] !in nacked then 0 else 1 + Leading(nacked, ids[1..])
  }

  lemma LeadingIs(nacked: map<Id, Item>, ids: seq<Id>, n: nat)
    requires n <= |ids|
    requires forall i :: 0 <= i < n ==> ids[i] in nacked
    requires n < |ids| ==> ids[n] !in nacked
    ensures Leading(nacked, ids) == n
  {
    var l := Leading(nacked, ids);
    assert !(l < n);
  }

  /** HMGET of IDs that are pending. */
  function ItemsUnder(nacked: map<Id, Item>, ids: seq<Id>): (items: seq<Item>)
    ensures |items| == |ids|
  {
    seq(|ids|, i requires 0 <= i < |ids| => if ids[i] in nacked then nacked[ids[i]] else [])
  }

  /** HSET with the keys and values in turn. */
  function Put<V>(m: map<Bytes, V>, keys: seq<Bytes>, values: seq<V>): map<Bytes, V>
    requires |keys| == |values|
  {
    if keys == [] then m
    else
      var k := |keys| - 1;
      Put(m, keys[..k], values[..k])[keys[k] := values[k]]
  }

  /** Each key set to one value. */
  function PutAll(m: map<Bytes, int>, keys: seq<Bytes>, value: int): map<Bytes, int> {
    if keys == [] then m
    else
      var k := |keys| - 1;
      PutAll(m, keys[..k], value)[keys[k] := value]
  }

  /** A re-send's deadlines: each raised to dl, never lowered. */
  function Raised(timeouts: Zset, ids: seq<Id>, dl: int): Zset {
    if ids == [] || dl <= 0 then timeouts
    else
      var k := |ids| - 1;
      var t := Raised(timeouts, ids[..k], dl);
      if ids[k] !in t || t[ids[k]] < dl then t[ids[k] := dl] else t
  }

  function Beat(o: Owners, owner: Owner, heartbeat: int, now: int): Owners {
    if heartbeat > 0 then o.(heartbeats := o.heartbeats[owner := now + heartbeat]) else o
  }

  /** A pop that hands out items beats, one that hands out none does not. */
  function BeatFor(o: Owners, count: nat, p: Pop, now: int): Owners {
    if count > 0 then Beat(o, p.owner, p.heartbeat, now) else o
  }

  /** The re-send guard: the pending items go back to the caller again. */
  function HandBack(s: Store, ids: seq<Id>, p: Pop, now: int): Store {
    var raised := Raised(s.work.pending.timeouts, ids, Deadline(now, p.visibility));
    s.(work := s.work.(pending := s.work.pending.(timeouts := raised)),
       owners := BeatFor(s.owners, |ids|, p, now))
  }

  function FrontItems(w: Waiting, n: nat): (items: seq<Item>)
    ensures |items| == n
  {
    seq(n, i requires 0 <= i < n => if i < |Entries(w)| then Entries(w)[i].item else [])
  }

  function FrontScores(w: Waiting, n: nat): (scores: seq<int>)
    ensures |scores| == n
  {
    seq(n, i requires 0 <= i < n => if i < |Entries(w)| then Entries(w)[i].score else 0)
  }

  /** Items enter processing under ids. */
  function Taken(k: Pending, ids: seq<Id>, items: seq<Item>, scores: seq<int>, ranked: bool, dl: int, ms: int): Pending
    requires |ids| == |items| == |scores|
  {
    Pending(Put(k.nacked, ids, items),
            if dl > 0 then PutAll(k.timeouts, ids, dl) else k.timeouts,
            PutAll(k.started, ids, ms),
            if ranked then Put(k.prio, ids, scores) else k.prio)
  }

  function TakeWork(w: Work, ids: seq<Id>, dl: int, ms: int): Work
    requires |ids| <= Len(w.queue)
  {
    var n := |ids|;
    w.(queue := Rest(w.queue, n),
       pending := Taken(w.pending, ids, FrontItems(w.queue, n), FrontScores(w.queue, n), w.queue.Ranked?, dl, ms))
  }

  /** The first items of the queue become pending under ids. */
  function TakeOut(s: Store, ids: seq<Id>, p: Pop, now: int): Store
    requires |ids| <= Len(s.work.queue)
  {
    s.(work := TakeWork(s.work, ids, Deadline(now, p.visibility), Millis(now)),
       owners := BeatFor(s.owners, |ids|, p, now))
  }

  /** The idle rule: an empty queue and room to spare. */
  function Joined(s: Store, got: nat, p: Pop): Store {
    s.(idle := if p.consumer != [] && Len(s.work.queue) == 0 && got < p.slots then s.idle + {p.consumer} else s.idle)
  }

  function Answer(s: Store, items: seq<Item>, p: Pop): (Store, Reply) {
    (Joined(s, |items|, p), Reply(Len(s.work.queue), items, false))
  }

  function Min(a: nat, b: nat): nat {
    if a <= b then a else b
  }

  /** popHead + pausedBatch + popTail. */
  function BatchPop(s: Store, p: Pop, now: int): (Store, Reply) {
    var ids := IdsOf(p);
    if Held(s.work.pending.nacked, ids) then
      var run := ids[..Leading(s.work.pending.nacked, ids)];
      Answer(HandBack(s, run, p, now), ItemsUnder(s.work.pending.nacked, run), p)
    else if s.paused.Some? then (s, Reply(0, [], true))
    else
      var n := Min(p.want, Len(s.work.queue));
      Answer(TakeOut(s, ids[..n], p, now), FrontItems(s.work.queue, n), p)
  }

  function FirstId(p: Pop): Id {
    AckId(p.owner, p.reservation, 1)
  }

  /** popOneLenHead + pausedBatch + popOneLenTail: a batch call for one item. */
  function LeanPop(s: Store, p: Pop, now: int): (Store, Reply) {
    var id := FirstId(p);
    if id in s.work.pending.nacked then Answer(HandBack(s, [id], p, now), [s.work.pending.nacked[id]], p)
    else if s.paused.Some? then (s, Reply(0, [], true))
    else if Len(s.work.queue) == 0 then Answer(s, [], p)
    else Answer(TakeOut(s, [id], p, now), FrontItems(s.work.queue, 1), p)
  }

  /** popOneHead + pausedOne + popOneTail under a given ID. */
  function PopUnder(s: Store, id: Id, p: Pop, now: int): (Store, OneReply) {
    if id in s.work.pending.nacked then (HandBack(s, [id], p, now), Got(s.work.pending.nacked[id]))
    else if s.paused.Some? then (s, Refused)
    else if Len(s.work.queue) == 0 then
      (s.(idle := if p.consumer != [] then s.idle + {p.consumer} else s.idle), NoItem)
    else (TakeOut(s, [id], p, now), Got(FrontItems(s.work.queue, 1)[0]))
  }

  function SinglePop(s: Store, p: Pop, now: int): (Store, OneReply) {
    PopUnder(s, FirstId(p), p, now)
  }

  // ---- requeues (moveFn, requeuedFn, listRepush, zsetRepush) ----

  function CountOf(m: map<Bytes, nat>, key: Bytes): nat {
    if key in m then m[key] else 0
  }

  function ScoreOf(k: Pending, id: Id): int {
    if id in k.prio then k.prio[id] else 1
  }

  /** An item leaves processing. */
  function Without(k: Pending, id: Id, ranked: bool): Pending {
    Pending(k.nacked - {id}, k.timeouts - {id}, k.started - {id}, if ranked then k.prio - {id} else k.prio)
  }

  function Counted(envid: Bytes -> Bytes, attempts: map<Bytes, nat>, item: Item): map<Bytes, nat> {
    if envid(item) == [] then attempts else attempts[envid(item) := CountOf(attempts, envid(item)) + 1]
  }

  /** The item pending as id, if any, goes back to the queue: to a list's head,
      or to a sorted set at the score it was popped at (1 when it has none). Its
      deadline goes either way. */
  function Move(envid: Bytes -> Bytes, w: Work, id: Id): Work {
    if id in w.pending.nacked then
      var item := w.pending.nacked[id];
      Work(Fronted(w.queue, NextSeq(w), item, ScoreOf(w.pending, id)), NextSeq(w),
           Without(w.pending, id, w.queue.Ranked?), Counted(envid, w.attempts, item))
    else w.(pending := w.pending.(timeouts := w.pending.timeouts - {id}))
  }

  function MoveAll(envid: Bytes -> Bytes, w: Work, ids: seq<Id>): Work {
    if ids == [] then w
    else Move(envid, MoveAll(envid, w, ids[..|ids| - 1]), ids[|ids| - 1])
  }

  /** requeueLoop: the IDs whose deadline passed, or, with no timeout, all of
      them in whatever order HKEYS lists them. */
  function RequeueNacked(envid: Bytes -> Bytes, s: Store, visibility: int, listing: seq<Id>, now: int): Store {
    s.(work := MoveAll(envid, s.work, if visibility > 0 then UpTo(s.work.pending.timeouts, now) else listing))
  }

  // ---- sweep and release (tickBody, releaseBody) ----

  /** The clock is older than a normal gap: Redis, or every process, stalled. */
  predicate Stalled(o: Owners, now: int) {
    o.clock.Some? && now - o.clock.value > SWEEP_GAP
  }

  function PlusAll(z: Zset, gap: int): Zset {
    map m | m in z :: z[m] + gap
  }

  function PlusMarks(z: Zset, gap: int): Zset {
    map m | m in z :: if z[m] > 0 then z[m] + gap else z[m]
  }

  /** After a stall the heartbeats and marks move on by the gap. */
  function Shifted(o: Owners, now: int): Owners {
    if Stalled(o, now) then
      o.(heartbeats := PlusAll(o.heartbeats, now - o.clock.value),
         presence := PlusMarks(o.presence, now - o.clock.value))
    else o
  }

  predicate Ticks(o: Owners, now: int) {
    o.clock.None? || now - o.clock.value >= CLOCK_STEP || now < o.clock.value
  }

  function Ticked(o: Owners, now: int): Owners {
    if Ticks(o, now) then o.(clock := Some(now)) else o
  }

  /** The sweeper renews its own heartbeat and clears its own mark. */
  function Renewed(o: Owners, me: Owner, heartbeat: int, now: int): Owners {
    if me !in o.heartbeats then o
    else if heartbeat > 0 then
      o.(heartbeats := o.heartbeats[me := now + heartbeat],
         presence := if me in o.presence then o.presence[me := 0] else o.presence)
    else o.(heartbeats := o.heartbeats - {me}, presence := o.presence - {me})
  }

  /** The owner keys as the reaping part of a sweep finds them. */
  function Prepared(o: Owners, me: Owner, heartbeat: int, now: int): Owners {
    Renewed(Ticked(Shifted(o, now), now), me, heartbeat, now)
  }

  /** The first 100 owners whose heartbeat ran out. */
  function Expired(o: Owners, now: int): set<Owner> {
    Members(Take(UpTo(o.heartbeats, now), MAX_EXPIRED))
  }

  /** The first 1000 owners whose heartbeat did not run out before now. */
  function Live(o: Owners, now: int): set<Owner> {
    Members(Take(From(o.heartbeats, now), MAX_LIVE))
  }

  /** Seen subscribed before, and without a subscriber for the grace. */
  function Gone(o: Owners, subs: set<Owner>, now: int): set<Owner> {
    set m | m in Live(o, now) && m !in subs && m in o.presence && o.presence[m] != 0
            && now - o.presence[m] >= PRESENCE_GRACE
  }

  /** The presence marks after a count of the live owners' subscribers. */
  function Marked(presence: Zset, live: set<Owner>, subs: set<Owner>, now: int): Zset {
    map m | m in presence.Keys + live * subs ::
      if m in live && m in subs then 0
      else if m in live && presence[m] == 0 then now
      else presence[m]
  }

  /** The owners a sweep takes for dead, from the prepared keys. */
  function Dead(o: Owners, ticks: bool, subs: set<Owner>, now: int): set<Owner> {
    Expired(o, now) + (if ticks then Gone(o, subs, now) else {})
  }

  /** The owners the sweep of `me` takes for dead. */
  function SweptAway(o: Owners, me: Owner, heartbeat: int, subs: set<Owner>, now: int): set<Owner> {
    if o.clock.None? then {} else Dead(Prepared(o, me, heartbeat, now), Ticks(o, now), subs, now)
  }

  /** The owner keys after the sweep of `me`. */
  function SweptOwners(o: Owners, me: Owner, heartbeat: int, subs: set<Owner>, now: int): Owners {
    var p := Prepared(o, me, heartbeat, now);
    var dead := SweptAway(o, me, heartbeat, subs, now);
    var marks := if o.clock.Some? && Ticks(o, now) then Marked(p.presence, Live(p, now), subs, now) else p.presence;
    p.(heartbeats := p.heartbeats - dead, presence := marks - dead)
  }

  function OwnedIds(nacked: map<Id, Item>, owners: set<Owner>): set<Id> {
    set id | id in nacked && OwnerOf(id) in owners
  }

  /** The items a sweep moves: those past their deadline, then the dead owners'. */
  function SweptWork(envid: Bytes -> Bytes, w: Work, dead: set<Owner>, now: int): Work {
    var w' := MoveAll(envid, w, UpTo(w.pending.timeouts, now));
    MoveAll(envid, w', SortedStrings(OwnedIds(w'.pending.nacked, dead)))
  }

  function Sweep(envid: Bytes -> Bytes, s: Store, me: Owner, heartbeat: int, subs: set<Owner>, now: int): Store {
    s.(work := SweptWork(envid, s.work, SweptAway(s.owners, me, heartbeat, subs, now), now),
       owners := SweptOwners(s.owners, me, heartbeat, subs, now))
  }

  /** Whether the sweeper's own heartbeat was missing or had run out. */
  predicate Lapsed(o: Owners, me: Owner, now: int) {
    var o' := Shifted(o, now);
    me !in o'.heartbeats || o'.heartbeats[me] < now
  }

  function IdsWithPrefix(nacked: map<Id, Item>, owner: Owner): set<Id> {
    set id | id in nacked && HasPrefix(id, owner)
  }

  function Release(envid: Bytes -> Bytes, s: Store, owner: Owner): Store {
    s.(work := MoveAll(envid, s.work, SortedStrings(IdsWithPrefix(s.work.pending.nacked, owner))),
       owners := s.owners.(heartbeats := s.owners.heartbeats - {owner}, presence := s.owners.presence - {owner}))
  }

  // ---- finish and trim (finishScript, trimFn, trimScript) ----

  /** Records finished up to here are older than age. */
  function Cutoff(now: int, age: int): int {
    now - age
  }

  /** The members one trim drops: by age, and beyond the newest keep. */
  function TrimmedAway(z: Zset, keep: int, age: int, now: int): set<Bytes> {
    if keep <= 0 || age <= 0 then Members(Take(Order(z), MAX_TRIM))
    else
      var over := |z| - keep;
      Members(Take(UpTo(z, Cutoff(now, age)), MAX_TRIM))
      + (if over > 0 then Members(Take(Order(z), Min(over, MAX_TRIM))) else {})
  }

  function IndexOf(r: Records, outcome: Outcome): Zset {
    match outcome
    case Completed => r.completed
    case Failed => r.failed
  }

  function WithIndex(r: Records, outcome: Outcome, z: Zset): Records {
    match outcome
    case Completed => r.(completed := z)
    case Failed => r.(failed := z)
  }

  function Other(outcome: Outcome): Outcome {
    match outcome
    case Completed => Failed
    case Failed => Completed
  }

  function Trim(r: Records, outcome: Outcome, keep: int, age: int, now: int): Records {
    var gone := TrimmedAway(IndexOf(r, outcome), keep, age, now);
    WithIndex(r, outcome, IndexOf(r, outcome) - gone).(jobs := r.jobs - gone)
  }

  function TrimBoth(r: Records, keepCompleted: int, ageCompleted: int, keepFailed: int, ageFailed: int, now: int)
    : Records
  {
    Trim(Trim(r, Completed, keepCompleted, ageCompleted, Millis(now)), Failed, keepFailed, ageFailed, Millis(now))
  }

  /** The Job ID: the envelope id, else the ack ID. */
  function JobId(envid: Bytes -> Bytes, item: Item, id: Id): Bytes {
    if envid(item) != [] then envid(item) else id
  }

  function RecordOf(envid: Bytes -> Bytes, w: Work, id: Id, outcome: Outcome, reason: Bytes, now: int): Record
    requires id in w.pending.nacked
  {
    var item := w.pending.nacked[id];
    Record(outcome, item, if id in w.pending.started then Some(w.pending.started[id]) else None, Millis(now),
           if envid(item) != [] then 1 + CountOf(w.attempts, envid(item)) else 1,
           if outcome.Failed? then Some(reason) else None)
  }

  /** The item leaves processing with its attempt count. */
  function FinishedWork(envid: Bytes -> Bytes, w: Work, id: Id): Work
    requires id in w.pending.nacked
  {
    var e := envid(w.pending.nacked[id]);
    w.(pending := Without(w.pending, id, true), attempts := if e != [] then w.attempts - {e} else w.attempts)
  }

  function CountedOutcome(s: Stats, outcome: Outcome): Stats {
    match outcome
    case Completed => s.(completed := s.completed + 1)
    case Failed => s.(failed := s.failed + 1)
  }

  /** The job leaves the other state's index; its record is kept under its own
      state's, or dropped. */
  function Filed(r: Records, job: Bytes, record: Record, keeps: bool): Records {
    var r' := WithIndex(r, Other(record.state), IndexOf(r, Other(record.state)) - {job});
    if keeps then
      WithIndex(r', record.state, IndexOf(r', record.state)[job := record.finishedAt]).(jobs := r.jobs[job := record])
    else r'.(jobs := r.jobs - {job})
  }

  function Finish(envid: Bytes -> Bytes, s: Store, id: Id, outcome: Outcome, reason: Bytes,
                  keep: int, age: int, now: int): Store
  {
    if id !in s.work.pending.nacked then s
    else
      s.(work := FinishedWork(envid, s.work, id),
         stats := CountedOutcome(s.stats, outcome),
         records := Trim(Filed(s.records, JobId(envid, s.work.pending.nacked[id], id),
                               RecordOf(envid, s.work, id, outcome, reason, now), keep > 0 && age > 0),
                         outcome, keep, age, Millis(now)))
  }

  /** DEL of the job keys; consumer state and remembered ids stay. */
  function Purge(s: Store): Store {
    s.(work := EmptyWork(s.work.queue.Ranked?), stats := Stats(0, 0, 0), records := Records(map[], map[], map[]))
  }

  // ---- idle set and pause (lenIdle, nudge, pauseScript, resumeScript) ----

  function LenIdle(s: Store, consumer: Bytes): Store {
    s.(idle := if Len(s.work.queue) == 0 && consumer != [] then s.idle + {consumer} else s.idle)
  }

  function Nudge(s: Store, consumer: Bytes, idle: bool): Store {
    s.(idle := if Len(s.work.queue) > 0 then s.idle - {consumer}
               else if idle then s.idle + {consumer}
               else s.idle)
  }

  function Pause(s: Store, now: int): Store {
    if s.paused.Some? then s else s.(paused := Some(Millis(now)))
  }

  function Resume(s: Store, picks: seq<Owner>, subs: set<Owner>): Store {
    if s.paused.None? then s
    else s.(paused := None, idle := Wake(picks, subs, Len(s.work.queue)).left)
  }
}

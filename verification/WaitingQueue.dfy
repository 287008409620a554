/** The waiting items: a Redis list, or a sorted set whose members carry a
    sequence number before the item. The sorted set is shown to be a stable
    priority queue. */
module WaitingQueue {
  import opened ByteStrings
  import opened SortedSets

  /** Members are byte 255, 16 hex digits of a sequence number, then the item. */
  const MARK: byte := 255
  const PREFIX: nat := 17
  /** Sequence numbers pass through Lua doubles, exact up to 2^53. */
  const MAX_SEQ: nat := 0x20_0000_0000_0000

  datatype Entry = Entry(item: Bytes, score: int)

  datatype Waiting = Listed(items: seq<Bytes>) | Ranked(members: Zset)

  function Stamp(n: nat): Bytes {
    [MARK] + Printed(n, 16, 16)
  }

  function Encode(n: nat, item: Bytes): Bytes {
    Stamp(n) + item
  }

  function ItemOf(m: Bytes): Bytes {
    if |m| >= PREFIX && m[0] == MARK then m[PREFIX..] else m
  }

  lemma StampWidth(n: nat)
    requires n <= MAX_SEQ
    ensures |Stamp(n)| == PREFIX
  {
    assert Pow(16, 4) == 65536;
    assert Pow(16, 8) == 65536 * Pow(16, 4);
    assert Pow(16, 12) == 65536 * Pow(16, 8);
    assert Pow(16, 16) == 65536 * Pow(16, 12);
    PrintedWidth(n, 16, 16);
  }

  /** A member is byte 255, its number in 16 digits, and its item. */
  lemma EncodeReads(n: nat, item: Bytes)
    requires n <= MAX_SEQ
    ensures var m := Encode(n, item);
      |m| == 17 + |item| && m[0] == 255 && ValueOf(m[1..17], 16) == n && m[17..] == item
  {
    StampWidth(n);
    PrintedReads(n, 16, 16);
    assert Encode(n, item)[1..17] == Printed(n, 16, 16);
  }

  /** Stamps order as their numbers do, so they never collide. */
  lemma StampOrder(m: nat, n: nat)
    requires m <= MAX_SEQ && n <= MAX_SEQ
    ensures Lex(Stamp(m), Stamp(n)) <==> m < n
    ensures Stamp(m) == Stamp(n) <==> m == n
  {
    assert Pow(16, 4) == 65536;
    assert Pow(16, 8) == 65536 * Pow(16, 4);
    assert Pow(16, 12) == 65536 * Pow(16, 8);
    assert Pow(16, 16) == 65536 * Pow(16, 12);
    PrintedOrder(m, n, 16, 16);
    LexIrreflexive([MARK]);
    LexByHead([MARK], [MARK], Printed(m, 16, 16), Printed(n, 16, 16));
    assert Stamp(m)[1..] == Printed(m, 16, 16) && Stamp(n)[1..] == Printed(n, 16, 16);
  }

  /** Decoding undoes encoding, for any item bytes. */
  lemma ItemOfEncode(n: nat, item: Bytes)
    requires n <= MAX_SEQ
    ensures ItemOf(Encode(n, item)) == item
  {
    StampWidth(n);
  }

  /** Every member carries a stamp from before the next number, and no two the
      same one. */
  ghost predicate StampedUpTo(z: Zset, last: nat) {
    && (forall m :: m in z ==> |m| >= PREFIX && Lex(m[..PREFIX], Stamp(last + 1)))
    && (forall m, m' :: m in z && m' in z && m[..PREFIX] == m'[..PREFIX] ==> m == m')
  }

  /** What every reachable queue satisfies; last is the sequence counter. */
  ghost predicate WellFormed(w: Waiting, last: nat) {
    w.Ranked? ==> last < MAX_SEQ && StampedUpTo(w.members, last)
  }

  function Len(w: Waiting): nat {
    match w
    case Listed(items) => |items|
    case Ranked(members) => |members|
  }

  /** The items in pop order, each with its score (0 in a list). */
  function Entries(w: Waiting): (es: seq<Entry>) {
    match w
    case Listed(items) => seq(|items|, i requires 0 <= i < |items| => Entry(items[i], 0))
    case Ranked(members) => EntriesIn(members, Order(members))
  }

  function EntriesIn(members: Zset, o: seq<Bytes>): (es: seq<Entry>) {
    seq(|o|, i requires 0 <= i < |o| => Entry(ItemOf(o[i]), if o[i] in members then members[o[i]] else 0))
  }

  /** What stays after the first n are popped (LTRIM, ZPOPMIN). */
  function Rest(w: Waiting, n: nat): Waiting
    requires n <= Len(w)
  {
    match w
    case Listed(items) => Listed(items[n..])
    case Ranked(members) => Ranked(members - Members(Take(Order(members), n)))
  }

  /** RPUSH, or ZADD under the sequence number n. */
  function Pushed(w: Waiting, n: nat, item: Bytes, score: int): Waiting {
    match w
    case Listed(items) => Listed(items + [item])
    case Ranked(members) => Ranked(members[Encode(n, item) := score])
  }

  lemma LenIsEntries(w: Waiting)
    ensures |Entries(w)| == Len(w)
  {
    if w.Ranked? {
      OrderIsOrder(w.members);
    }
  }

  lemma EntriesOf(z: Zset, o: seq<Bytes>)
    requires IsOrder(z, o)
    ensures Entries(Ranked(z)) == EntriesIn(z, o)
  {
    OrderUnique(z, o);
  }

  lemma StampedSubset(z: Zset, z': Zset, last: nat)
    requires StampedUpTo(z, last) && z'.Keys <= z.Keys
    ensures StampedUpTo(z', last)
  {}

  lemma RankedRestDrops(z: Zset, n: nat)
    requires n <= |z|
    ensures |Entries(Ranked(z))| == |z|
    ensures Entries(Rest(Ranked(z), n)) == Entries(Ranked(z))[n..]
  {
    OrderIsOrder(z);
    DropFirst(z, n);
    var o := Order(z);
    assert Take(o, n) == o[..n];
    var z' := z - Members(o[..n]);
    OrderIsOrder(z');
    EntriesOf(z, o);
    EntriesOf(z', o[n..]);
    assert EntriesIn(z', o[n..]) == EntriesIn(z, o)[n..] by {
      forall i | n <= i < |o| ensures o[i] in z && o[i] in z' && z[o[i]] == z'[o[i]] {
        assert o[n..][i - n] == o[i] && o[i] in o[n..];
      }
      SuffixEntries(z, z', o, n);
    }
  }

  lemma SuffixEntries(z: Zset, z': Zset, o: seq<Bytes>, n: nat)
    requires n <= |o|
    requires forall i :: n <= i < |o| ==> o[i] in z && o[i] in z' && z[o[i]] == z'[o[i]]
    ensures EntriesIn(z', o[n..]) == EntriesIn(z, o)[n..]
  {}

  /** A pop of n takes the first n entries and leaves the others as they were. */
  lemma RestDrops(w: Waiting, n: nat, last: nat)
    requires n <= Len(w) && WellFormed(w, last)
    ensures |Entries(w)| == Len(w)
    ensures Entries(Rest(w, n)) == Entries(w)[n..] && Len(Rest(w, n)) == Len(w) - n
    ensures WellFormed(Rest(w, n), last)
  {
    LenIsEntries(w);
    LenIsEntries(Rest(w, n));
    if w.Ranked? {
      RankedRestDrops(w.members, n);
      StampedSubset(w.members, Rest(w, n).members, last);
    } else {
      assert Entries(Rest(w, n)) == Entries(w)[n..];
    }
  }

  // ---- the stable priority queue it refines ----

  ghost predicate ByScore(q: seq<Entry>) {
    forall i, j :: 0 <= i < j < |q| ==> q[i].score <= q[j].score
  }

  /** Insert behind every entry of the same or a lower score. */
  function StableInsert(q: seq<Entry>, e: Entry): (r: seq<Entry>)
    ensures |r| == |q| + 1
  {
    if q != [] && q[0].score <= e.score then [q[0]] + StableInsert(q[1..], e) else [e] + q
  }

  /** The items waiting at one score, in order. */
  function AtScore(q: seq<Entry>, score: int): seq<Bytes> {
    if q == [] then []
    else (if q[0].score == score then [q[0].item] else []) + AtScore(q[1..], score)
  }

  lemma ByScoreCons(e: Entry, q: seq<Entry>)
    requires ByScore(q) && (q != [] ==> e.score <= q[0].score)
    ensures ByScore([e] + q)
  {
    var r := [e] + q;
    assert forall i :: 0 <= i < |q| ==> q[0].score <= q[i].score;
    forall i, j | 0 <= i < j < |r| ensures r[i].score <= r[j].score {
      assert r[j] == q[j - 1];
    }
  }

  lemma AtScoreCons(e: Entry, q: seq<Entry>, score: int)
    ensures AtScore([e] + q, score) == (if e.score == score then [e.item] else []) + AtScore(q, score)
  {
    assert ([e] + q)[1..] == q;
  }

  /** Insertion keeps score order. */
  lemma {:induction false} StableInsertSorted(q: seq<Entry>, e: Entry)
    requires ByScore(q)
    ensures ByScore(StableInsert(q, e))
    ensures StableInsert(q, e)[0].score == (if q != [] && q[0].score <= e.score then q[0].score else e.score)
  {
    if q != [] && q[0].score <= e.score {
      StableInsertSorted(q[1..], e);
      ByScoreCons(q[0], StableInsert(q[1..], e));
    } else {
      ByScoreCons(e, q);
    }
  }

  /** Insertion is FIFO within each score: with the score order this fixes the queue. */
  lemma {:induction false} StableInsertFifo(q: seq<Entry>, e: Entry, score: int)
    requires ByScore(q)
    ensures AtScore(StableInsert(q, e), score) == AtScore(q, score) + (if e.score == score then [e.item] else [])
  {
    if q != [] && q[0].score <= e.score {
      StableInsertFifo(q[1..], e, score);
      AtScoreCons(q[0], StableInsert(q[1..], e), score);
    } else {
      AtScoreCons(e, q, score);
      if e.score == score && q != [] {
        assert forall i :: 0 < i < |q| ==> q[0].score <= q[i].score;
        NoneAtLowerScore(q, score);
      }
    }
  }

  lemma {:induction false} NoneAtLowerScore(q: seq<Entry>, score: int)
    requires forall i :: 0 <= i < |q| ==> score < q[i].score
    ensures AtScore(q, score) == []
  {
    if q != [] {
      NoneAtLowerScore(q[1..], score);
    }
  }

  lemma {:induction false} StableInsertAt(q: seq<Entry>, e: Entry, k: nat)
    requires k <= |q|
    requires forall i :: 0 <= i < k ==> q[i].score <= e.score
    requires forall i :: k <= i < |q| ==> e.score < q[i].score
    ensures StableInsert(q, e) == q[..k] + [e] + q[k..]
  {
    if k > 0 {
      StableInsertAt(q[1..], e, k - 1);
    }
  }

  /** The next number's member sorts behind every waiting one of its score. */
  lemma FreshStamp(z: Zset, last: nat, item: Bytes)
    requires StampedUpTo(z, last) && last < MAX_SEQ
    ensures forall m :: m in z ==> Lex(m, Encode(last + 1, item))
    ensures Encode(last + 1, item) !in z
  {
    StampWidth(last + 1);
    forall m | m in z ensures Lex(m, Encode(last + 1, item)) {
      assert m == m[..PREFIX] + m[PREFIX..];
      LexByHead(m[..PREFIX], Stamp(last + 1), m[PREFIX..], item);
    }
    LexIrreflexive(Encode(last + 1, item));
  }

  lemma StampedAfterPush(z: Zset, last: nat, item: Bytes, score: int)
    requires StampedUpTo(z, last) && last + 1 < MAX_SEQ
    ensures StampedUpTo(z[Encode(last + 1, item) := score], last + 1)
  {
    var (m, z') := (Encode(last + 1, item), z[Encode(last + 1, item) := score]);
    StampWidth(last + 1);
    StampOrder(last + 1, last + 2);
    LexIrreflexive(Stamp(last + 1));
    assert m[..PREFIX] == Stamp(last + 1);
    forall y | y in z ensures Lex(y[..PREFIX], Stamp(last + 2)) && y[..PREFIX] != Stamp(last + 1) {
      LexTransitive(y[..PREFIX], Stamp(last + 1), Stamp(last + 2));
    }
  }

  /** ZADD under the next sequence number refines a stable insert, and never
      merges with a waiting member. */
  lemma PushRefines(z: Zset, last: nat, item: Bytes, score: int)
    requires StampedUpTo(z, last) && last < MAX_SEQ
    ensures Entries(Pushed(Ranked(z), last + 1, item, score))
            == StableInsert(Entries(Ranked(z)), Entry(item, score))
  {
    var m := Encode(last + 1, item);
    assert ItemOf(m) == item by { ItemOfEncode(last + 1, item); }
    InsertRefines(z, m, score) by { FreshStamp(z, last, item); }
  }

  lemma InsertRefines(z: Zset, m: Bytes, score: int)
    requires m !in z && forall y :: y in z ==> Lex(y, m)
    ensures Entries(Ranked(z[m := score])) == StableInsert(Entries(Ranked(z)), Entry(ItemOf(m), score))
  {
    OrderIsOrder(z);
    var o := Order(z);
    EntriesOf(z, o);
    OrderedByScore(z, o);
    var k := LowCount(z, o, score);
    InsertedIsOrder(z, o, k, m, score);
    assert Entries(Ranked(z[m := score])) == EntriesIn(z[m := score], o[..k] + [m] + o[k..]) by {
      EntriesOf(z[m := score], o[..k] + [m] + o[k..]);
    }
    InsertedEntries(z, o, k, m, score);
    StableInsertAt(EntriesIn(z, o), Entry(ItemOf(m), score), k);
  }

  /** Pop order is by score. */
  lemma EntriesSorted(z: Zset)
    ensures ByScore(Entries(Ranked(z)))
  {
    OrderIsOrder(z);
    OrderedByScore(z, Order(z));
  }

  lemma OrderedByScore(z: Zset, o: seq<Bytes>)
    requires IsOrder(z, o)
    ensures ByScore(EntriesIn(z, o))
  {
    assert forall i :: 0 <= i < |o| ==> o[i] in z;
    assert forall i, j :: 0 <= i < j < |o| ==> Before(z, o[i], o[j]);
  }

  lemma InsertedEntries(z: Zset, o: seq<Bytes>, k: nat, m: Bytes, score: int)
    requires k <= |o| && m !in z
    requires forall i :: 0 <= i < |o| ==> o[i] in z
    ensures EntriesIn(z[m := score], o[..k] + [m] + o[k..])
            == EntriesIn(z, o)[..k] + [Entry(ItemOf(m), score)] + EntriesIn(z, o)[k..]
  {
    var o' := o[..k] + [m] + o[k..];
    forall i | 0 <= i < |o'| ensures o'[i] == if i < k then o[i] else if i == k then m else o[i - 1] {}
  }

  lemma InsertedMembers(z: Zset, o: seq<Bytes>, k: nat, m: Bytes, score: int)
    requires IsOrder(z, o) && k <= |o|
    ensures forall y :: y in o[..k] + [m] + o[k..] <==> y in z[m := score]
  {
    assert o == o[..k] + o[k..];
    forall y ensures y in o[..k] + [m] + o[k..] <==> y in z[m := score] {
      assert y in o <==> y in o[..k] || y in o[k..];
    }
  }

  lemma InsertedIsOrder(z: Zset, o: seq<Bytes>, k: nat, m: Bytes, score: int)
    requires IsOrder(z, o) && k <= |o| && m !in z
    requires forall i :: 0 <= i < |o| ==> o[i] in z && Lex(o[i], m)
    requires forall i :: 0 <= i < |o| ==> (i < k <==> z[o[i]] <= score)
    ensures IsOrder(z[m := score], o[..k] + [m] + o[k..])
  {
    var z' := z[m := score];
    var o' := o[..k] + [m] + o[k..];
    InsertedMembers(z, o, k, m, score);
    forall i, j | 0 <= i < j < |o'| ensures Before(z', o'[i], o'[j]) {
      if i < k && j < k {
        assert Before(z, o[i], o[j]);
      } else if i < k && j > k {
        assert Before(z, o[i], o[j - 1]);
      } else if i > k {
        assert Before(z, o[i - 1], o[j - 1]);
      }
    }
  }

  /** LPUSH puts a requeued item at the head of a list. */
  function Fronted(w: Waiting, n: nat, item: Bytes, score: int): Waiting {
    match w
    case Listed(items) => Listed([item] + items)
    case Ranked(members) => Ranked(members[Encode(n, item) := score])
  }
}

/** Redis sorted sets: members with integer scores, in the order ZRANGE lists
    them (by score, then by member bytes), and the range reads built on it. */
module SortedSets {
  import opened ByteStrings

  type Zset = map<Bytes, int>

  /** a comes before b in z. */
  predicate Before(z: Zset, a: Bytes, b: Bytes)
    requires a in z && b in z
  {
    z[a] < z[b] || (z[a] == z[b] && Lex(a, b))
  }

  /** o lists exactly the members of z, in order. */
  ghost predicate IsOrder(z: Zset, o: seq<Bytes>) {
    && (forall m :: m in o <==> m in z)
    && (forall i, j :: 0 <= i < j < |o| ==> Before(z, o[i], o[j]))
  }

  lemma BeforeIrreflexive(z: Zset, a: Bytes)
    requires a in z
    ensures !Before(z, a, a)
  {
    LexIrreflexive(a);
  }

  lemma BeforeTransitive(z: Zset, a: Bytes, b: Bytes, c: Bytes)
    requires a in z && b in z && c in z
    ensures Before(z, a, b) && Before(z, b, c) ==> Before(z, a, c)
  {
    if Lex(a, b) && Lex(b, c) {
      LexTransitive(a, b, c);
    }
  }

  /** Exactly one of two distinct members comes first. */
  lemma BeforeTotal(z: Zset, a: Bytes, b: Bytes)
    requires a in z && b in z && a != b
    ensures Before(z, a, b) <==> !Before(z, b, a)
  {
    LexTotal(a, b);
    if Lex(a, b) && Lex(b, a) {
      LexTransitive(a, b, a);
      LexIrreflexive(a);
    }
  }

  predicate First(z: Zset, m: Bytes) {
    m in z && forall y :: y in z.Keys && y != m ==> Before(z, m, y)
  }

  lemma {:induction false} FirstExists(z: Zset)
    requires z != map[]
    ensures exists m :: First(z, m)
    decreases |z|
  {
    var k :| k in z;
    var rest := z - {k};
    if rest == map[] {
      assert z.Keys == {k} by {
        assert forall y :: y in z.Keys && y != k ==> y in rest;
      }
      assert First(z, k);
    } else {
      assert |rest| < |z| by { assert rest.Keys == z.Keys - {k}; }
      FirstExists(rest);
      var m :| First(rest, m);
      BeforeTotal(z, k, m);
      if Before(z, m, k) {
        forall y | y in z.Keys && y != m
          ensures Before(z, m, y)
        {
          assert y == k || y in rest.Keys;
        }
        assert First(z, m);
      } else {
        forall y | y in z.Keys && y != k
          ensures Before(z, k, y)
        {
          assert y in rest.Keys;
          BeforeTransitive(z, k, m, y);
        }
        assert First(z, k);
      }
    }
  }

  lemma FirstUnique(z: Zset, a: Bytes, b: Bytes)
    requires First(z, a) && First(z, b)
    ensures a == b
  {
    if a != b {
      BeforeTotal(z, a, b);
    }
  }

  /** The members in order (ZRANGE 0 -1). */
  function Order(z: Zset): (o: seq<Bytes>)
    decreases |z|
  {
    if z == map[] then []
    else
      assert exists m :: First(z, m) by { FirstExists(z); }
      assert forall a, b :: First(z, a) && First(z, b) ==> a == b by {
        forall a, b | First(z, a) && First(z, b) ensures a == b { FirstUnique(z, a, b); }
      }
      var m :| m in z.Keys && First(z, m);
      assert (z - {m}).Keys == z.Keys - {m};
      [m] + Order(z - {m})
  }

  lemma OrderStep(z: Zset)
    requires z != map[]
    ensures Order(z) != [] && First(z, Order(z)[0])
    ensures Order(z) == [Order(z)[0]] + Order(z - {Order(z)[0]})
    ensures |z - {Order(z)[0]}| == |z| - 1
  {
    FirstExists(z);
    assert (z - {Order(z)[0]}).Keys == z.Keys - {Order(z)[0]};
  }

  lemma {:induction false} OrderIsOrder(z: Zset)
    ensures IsOrder(z, Order(z))
    ensures |Order(z)| == |z|
    decreases |z|
  {
    if z != map[] {
      OrderStep(z);
      var o := Order(z);
      var m := o[0];
      var rest := z - {m};
      OrderIsOrder(rest);
      forall i, j | 0 <= i < j < |o|
        ensures o[i] in z && o[j] in z && Before(z, o[i], o[j])
      {
        assert o[j] == Order(rest)[j - 1] && o[j] in Order(rest);
        if i > 0 {
          assert o[i] == Order(rest)[i - 1] && o[i] in Order(rest);
        }
      }
    }
  }

  /** What follows the head of a listing lists the other members. */
  lemma TailIsOrder(z: Zset, o: seq<Bytes>)
    requires IsOrder(z, o) && o != []
    ensures First(z, o[0]) && IsOrder(z - {o[0]}, o[1..])
  {
    var (m, tail) := (o[0], o[1..]);
    assert o == [m] + tail;
    assert m in z;
    forall i | 0 <= i < |tail| ensures tail[i] in z && tail[i] != m && Before(z, m, tail[i]) {
      assert o[i + 1] in z && Before(z, o[0], o[i + 1]);
      BeforeIrreflexive(z, m);
    }
    forall y | y in z && y != m ensures y in tail {
      assert y in o;
    }
    forall i, j | 0 <= i < j < |tail| ensures Before(z - {m}, tail[i], tail[j]) {
      assert Before(z, o[i + 1], o[j + 1]);
    }
  }

  /** A listing in order is the order: there is only one. */
  lemma {:induction false} OrderUnique(z: Zset, o: seq<Bytes>)
    requires IsOrder(z, o)
    ensures o == Order(z)
    decreases |z|
  {
    if z == map[] {
      assert forall i :: 0 <= i < |o| ==> o[i] in z;
    } else {
      OrderStep(z);
      assert Order(z)[0] in o;
      TailIsOrder(z, o);
      FirstUnique(z, o[0], Order(z)[0]);
      OrderUnique(z - {o[0]}, o[1..]);
    }
  }

  function Members(o: seq<Bytes>): (s: set<Bytes>) {
    set m | m in o
  }

  lemma PrefixMembers(o: seq<Bytes>, i: nat)
    requires i < |o|
    ensures Members(o[..i + 1]) == Members(o[..i]) + {o[i]}
  {
    assert o[..i + 1] == o[..i] + [o[i]];
  }

  /** A member stands at one place only. */
  lemma OrderDistinct(z: Zset, o: seq<Bytes>)
    requires IsOrder(z, o)
    ensures forall i, j :: 0 <= i < j < |o| ==> o[i] != o[j]
  {
    forall i, j | 0 <= i < j < |o| ensures o[i] != o[j] {
      BeforeIrreflexive(z, o[i]);
    }
  }

  lemma RestIsOrder(z: Zset, o: seq<Bytes>, n: nat, z': Zset)
    requires IsOrder(z, o) && n <= |o| && z' == z - Members(o[..n])
    requires forall i, j :: 0 <= i < j < |o| ==> o[i] != o[j]
    ensures IsOrder(z', o[n..])
  {
    var rest := o[n..];
    assert o == o[..n] + rest;
    forall m | m in rest ensures m in z' && z'[m] == z[m] {
      var j :| 0 <= j < |rest| && rest[j] == m;
      assert m == o[n + j] && m in z;
    }
    forall m | m in z' ensures m in rest {
      assert m in o;
    }
    forall i, j | 0 <= i < j < |rest| ensures rest[i] in z' && rest[j] in z' && Before(z', rest[i], rest[j]) {
      assert rest[i] in rest && rest[j] in rest;
      assert Before(z, o[n + i], o[n + j]);
    }
  }

  /** Removing the first n members leaves the others in their order. */
  lemma DropFirst(z: Zset, n: nat)
    requires n <= |Order(z)|
    ensures Order(z - Members(Order(z)[..n])) == Order(z)[n..]
  {
    OrderIsOrder(z);
    var o := Order(z);
    OrderDistinct(z, o);
    var z' := z - Members(o[..n]);
    RestIsOrder(z, o, n, z');
    OrderUnique(z', o[n..]);
  }

  /** Sorted sets with the same members ordered the same way list the same. */
  lemma SameOrder(z: Zset, z': Zset)
    requires z.Keys == z'.Keys
    requires forall a, b :: a in z && b in z ==> (Before(z, a, b) <==> Before(z', a, b))
    ensures Order(z) == Order(z')
  {
    OrderIsOrder(z);
    assert IsOrder(z', Order(z));
    OrderUnique(z', Order(z));
  }

  /** ZRANGEBYSCORE z -inf hi. */
  function UpTo(z: Zset, hi: int): (o: seq<Bytes>) {
    Order(map m | m in z && z[m] <= hi :: z[m])
  }

  /** ZRANGEBYSCORE z lo +inf. */
  function From(z: Zset, lo: int): (o: seq<Bytes>) {
    Order(map m | m in z && lo <= z[m] :: z[m])
  }

  function Take(o: seq<Bytes>, n: nat): seq<Bytes> {
    if n < |o| then o[..n] else o
  }

  /** `table.sort`: the strings of s in byte order. */
  function SortedStrings(s: set<Bytes>): (o: seq<Bytes>) {
    Order(map m | m in s :: 0)
  }

  lemma UpToMembers(z: Zset, hi: int)
    ensures forall m :: m in UpTo(z, hi) <==> m in z && z[m] <= hi
  {
    OrderIsOrder(map m | m in z && z[m] <= hi :: z[m]);
  }

  lemma FromMembers(z: Zset, lo: int)
    ensures forall m :: m in From(z, lo) <==> m in z && lo <= z[m]
  {
    OrderIsOrder(map m | m in z && lo <= z[m] :: z[m]);
  }

  lemma SortedStringsMembers(s: set<Bytes>)
    ensures forall m :: m in SortedStrings(s) <==> m in s
    ensures |SortedStrings(s)| == |s|
    ensures forall i, j :: 0 <= i < j < |SortedStrings(s)| ==> Lex(SortedStrings(s)[i], SortedStrings(s)[j])
  {
    var z := map m | m in s :: 0;
    OrderIsOrder(z);
    assert z.Keys == s;
    forall i, j | 0 <= i < j < |Order(z)| ensures Lex(Order(z)[i], Order(z)[j]) {
      assert Order(z)[i] in z && Order(z)[j] in z;
      assert Before(z, Order(z)[i], Order(z)[j]);
    }
  }

  /** The members up to a score are a prefix of the order. */
  lemma UpToIsPrefix(z: Zset, hi: int)
    ensures UpTo(z, hi) <= Order(z)
  {
    OrderIsOrder(z);
    var k := LowCount(z, Order(z), hi);
    PrefixIsOrder(z, Order(z), map m | m in z && z[m] <= hi :: z[m], k);
  }

  lemma PrefixIsOrder(z: Zset, o: seq<Bytes>, low: Zset, k: nat)
    requires IsOrder(z, o) && k <= |o|
    requires forall m :: m in low ==> m in z && low[m] == z[m]
    requires forall i :: 0 <= i < |o| ==> (i < k <==> o[i] in low)
    ensures o[..k] == Order(low)
  {
    forall m | m in low ensures m in o[..k] {
      assert m in o;
      var j :| 0 <= j < |o| && o[j] == m;
      assert o[..k][j] == m;
    }
    forall i, j | 0 <= i < j < k ensures Before(low, o[i], o[j]) {
      assert Before(z, o[i], o[j]);
    }
    OrderUnique(low, o[..k]);
  }

  lemma UpToFits(z: Zset, hi: int)
    ensures |UpTo(z, hi)| <= |z| && |Order(z)| == |z|
  {
    UpToIsPrefix(z, hi);
    OrderIsOrder(z);
  }

  /** How many leading members have a score up to hi. */
  lemma LowCount(z: Zset, o: seq<Bytes>, hi: int) returns (k: nat)
    requires IsOrder(z, o)
    ensures k <= |o|
    ensures forall i :: 0 <= i < |o| ==> o[i] in z && (i < k <==> z[o[i]] <= hi)
  {
    k := 0;
    assert forall i :: 0 <= i < |o| ==> o[i] in z;
    while k < |o| && z[o[k]] <= hi
      invariant k <= |o|
      invariant forall i :: 0 <= i < k ==> z[o[i]] <= hi
    {
      k := k + 1;
    }
    forall i | k < i < |o| ensures z[o[i]] > hi {
      assert Before(z, o[k], o[i]);
    }
  }

  /** The members ahead of m: its rank is how many there are. */
  function Ahead(z: Zset, m: Bytes): set<Bytes>
    requires m in z
  {
    set y | y in z && Before(z, y, m)
  }

  /** The members ahead of the one at place k are those at the places before k. */
  lemma AheadOfPlace(z: Zset, o: seq<Bytes>, k: nat)
    requires IsOrder(z, o) && k < |o|
    ensures o[k] in z && Ahead(z, o[k]) == Members(o[..k])
    ensures |Ahead(z, o[k])| == k
  {
    var m := o[k];
    assert m in z;
    OrderDistinct(z, o);
    forall y | y in Ahead(z, m) ensures y in o[..k] {
      assert y in o;
      var j :| 0 <= j < |o| && o[j] == y;
      if j > k {
        BeforeTotal(z, o[k], o[j]);
      } else if j == k {
        BeforeIrreflexive(z, m);
      } else {
        assert o[..k][j] == y;
      }
    }
    forall i | 0 <= i < k ensures o[i] in Ahead(z, m) {
      assert o[i] in z && Before(z, o[i], o[k]);
    }
    assert forall y :: y in o[..k] ==> y in Ahead(z, m);
    DistinctCount(o[..k]);
  }

  lemma {:induction false} DistinctCount(o: seq<Bytes>)
    requires forall i, j :: 0 <= i < j < |o| ==> o[i] != o[j]
    ensures |Members(o)| == |o|
  {
    if o != [] {
      var h := o[..|o| - 1];
      DistinctCount(h);
      assert o == h + [o[|o| - 1]];
      assert o[|o| - 1] !in h;
      assert Members(o) == Members(h) + {o[|o| - 1]};
    }
  }

  lemma {:induction false} SubsetSize<T>(x: set<T>, y: set<T>)
    requires x <= y
    ensures |x| <= |y|
  {
    if x != {} {
      var e :| e in x;
      SubsetSize(x - {e}, y - {e});
    }
  }

  /** A member is at the place that as many members are ahead of. */
  lemma PlaceIn(z: Zset, m: Bytes, n: nat)
    requires m in z && n <= |Order(z)|
    ensures |Ahead(z, m)| < |Order(z)| && Order(z)[|Ahead(z, m)|] == m
    ensures m in Members(Order(z)[..n]) <==> |Ahead(z, m)| < n
  {
    OrderIsOrder(z);
    var o := Order(z);
    assert m in o;
    var i :| 0 <= i < |o| && o[i] == m;
    AheadOfPlace(z, o, i);
    OrderDistinct(z, o);
    assert i < n ==> o[..n][i] == m;
  }

  /** It is among the first n exactly when fewer than n are ahead of it. */
  lemma AmongFirst(z: Zset, m: Bytes, n: nat)
    requires m in z
    ensures m in Members(Take(Order(z), n)) <==> |Ahead(z, m)| < n
  {
    OrderIsOrder(z);
    PlaceIn(z, m, if n < |Order(z)| then n else |Order(z)|);
    assert Take(Order(z), n) == Order(z)[..if n < |Order(z)| then n else |Order(z)|];
  }
}

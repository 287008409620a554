/** Byte strings as Redis stores and compares them: bytewise order, and numbers
    printed with leading zeros as `%020d`, `%04d` and `%016x` print them. */
module ByteStrings {

  type byte = x: int | 0 <= x < 256
  type Bytes = seq<byte>

  const COLON: byte := 58

  /** a is strictly before b in byte order: how Redis breaks score ties and how
      `table.sort` orders ack IDs. */
  predicate Lex(a: Bytes, b: Bytes) {
    |b| > 0 && (|a| == 0 || a[0] < b[0] || (a[0] == b[0] && Lex(a[1..], b[1..])))
  }

  lemma {:induction false} LexIrreflexive(a: Bytes)
    ensures !Lex(a, a)
  {
    if |a| > 0 {
      LexIrreflexive(a[1..]);
    }
  }

  lemma {:induction false} LexTransitive(a: Bytes, b: Bytes, c: Bytes)
    requires Lex(a, b) && Lex(b, c)
    ensures Lex(a, c)
  {
    if |a| > 0 && a[0] == b[0] && b[0] == c[0] {
      LexTransitive(a[1..], b[1..], c[1..]);
    }
  }

  lemma {:induction false} LexTotal(a: Bytes, b: Bytes)
    ensures a == b || Lex(a, b) || Lex(b, a)
  {
    if |a| > 0 && |b| > 0 && a[0] == b[0] {
      LexTotal(a[1..], b[1..]);
      assert a == [a[0]] + a[1..] && b == [b[0]] + b[1..];
    }
  }

  /** Strings with heads of one length compare by head, then by tail. */
  lemma {:induction false} LexByHead(a: Bytes, b: Bytes, x: Bytes, y: Bytes)
    requires |a| == |b|
    ensures Lex(a + x, b + y) <==> Lex(a, b) || (a == b && Lex(x, y))
  {
    if a == [] {
      assert a + x == x && b + y == y;
    } else {
      assert (a + x)[1..] == a[1..] + x && (b + y)[1..] == b[1..] + y;
      LexByHead(a[1..], b[1..], x, y);
      assert a == b <==> a[0] == b[0] && a[1..] == b[1..];
      if a[0] == b[0] && Lex(a[1..], b[1..]) {
        LexIrreflexive(a[1..]);
      }
    }
  }

  function Pow(base: nat, exponent: nat): nat {
    if exponent == 0 then 1 else base * Pow(base, exponent - 1)
  }

  /** Lower-case digit d of a base up to 16. */
  function Digit(d: nat): byte
    requires d < 16
  {
    if d < 10 then 48 + d else 87 + d
  }

  /** n in the given base with at least `width` digits, zero-padded. */
  function Printed(n: nat, base: nat, width: nat): Bytes
    requires 2 <= base <= 16
    decreases n, width
  {
    if n == 0 && width == 0 then []
    else Printed(n / base, base, if width > 0 then width - 1 else 0) + [Digit(n % base)]
  }

  /** A number below base^width prints with exactly width digits. */
  lemma {:induction false} PrintedWidth(n: nat, base: nat, width: nat)
    requires 2 <= base <= 16 && n < Pow(base, width)
    ensures |Printed(n, base, width)| == width
    decreases width
  {
    if width > 0 {
      QuotientBound(n, base, Pow(base, width - 1));
      PrintedWidth(n / base, base, width - 1);
    }
  }

  /** What a digit counts for, and what a string of them says. */
  function DigitValue(b: byte): nat {
    if 48 <= b < 58 then b as nat - 48 else if 97 <= b < 103 then b as nat - 87 else 0
  }

  function ValueOf(b: Bytes, base: nat): nat {
    if b == [] then 0 else base * ValueOf(b[..|b| - 1], base) + DigitValue(b[|b| - 1])
  }

  /** A printed number reads back. */
  lemma {:induction false} PrintedReads(n: nat, base: nat, width: nat)
    requires 2 <= base <= 16
    ensures ValueOf(Printed(n, base, width), base) == n
    decreases n, width
  {
    if n != 0 || width != 0 {
      var q := n / base;
      DivShrinks(n, base);
      PrintedReads(q, base, if width > 0 then width - 1 else 0);
      DivMod(n, base, q);
      PrintedReadsOn(n, base, width, q);
    }
  }

  lemma PrintedReadsOn(n: nat, base: nat, width: nat, q: nat)
    requires 2 <= base <= 16 && (n != 0 || width != 0) && q == n / base && base * q + n % base == n
    requires ValueOf(Printed(q, base, if width > 0 then width - 1 else 0), base) == q
    ensures ValueOf(Printed(n, base, width), base) == n
  {
    ValueOfAppended(Printed(q, base, if width > 0 then width - 1 else 0), n % base, base);
  }

  lemma DivShrinks(n: nat, base: nat)
    requires 2 <= base
    ensures n / base <= n && (0 < n ==> n / base < n)
  {}

  lemma DivMod(n: nat, base: nat, q: nat)
    requires 0 < base && q == n / base
    ensures base * q + n % base == n
  {}

  lemma ValueOfAppended(b: Bytes, d: nat, base: nat)
    requires d < 16
    ensures ValueOf(b + [Digit(d)], base) == base * ValueOf(b, base) + d
  {
    assert (b + [Digit(d)])[..|b|] == b;
  }

  lemma Monotone(factor: nat, a: nat, b: nat)
    ensures a <= b ==> factor * a <= factor * b
  {}

  lemma QuotientBound(n: nat, base: nat, bound: nat)
    requires base > 0 && n < base * bound
    ensures 0 <= n / base < bound
  {
    Monotone(base, bound, n / base);
  }

  /** Appending one digit orders by the rest first, then by the digit. */
  lemma AppendedDigit(a: Bytes, b: Bytes, d: nat, e: nat)
    requires |a| == |b| && d < 16 && e < 16
    ensures Lex(a + [Digit(d)], b + [Digit(e)]) <==> Lex(a, b) || (a == b && d < e)
    ensures a + [Digit(d)] == b + [Digit(e)] <==> a == b && d == e
  {
    var x: Bytes, y: Bytes := [Digit(d)], [Digit(e)];
    LexByHead(a, b, x, y);
    assert Lex(x, y) <==> d < e;
    assert (a + x)[..|a|] == a && (b + y)[..|a|] == b;
    assert (a + x)[|a|] == Digit(d) && (b + y)[|a|] == Digit(e);
  }

  /** Numbers of one width: byte order is numeric order, so printing is injective. */
  lemma {:induction false} PrintedOrder(m: nat, n: nat, base: nat, width: nat)
    requires 2 <= base <= 16 && m < Pow(base, width) && n < Pow(base, width)
    ensures Lex(Printed(m, base, width), Printed(n, base, width)) <==> m < n
    ensures Printed(m, base, width) == Printed(n, base, width) <==> m == n
    decreases width, 0
  {
    if width > 0 {
      QuotientBound(m, base, Pow(base, width - 1));
      QuotientBound(n, base, Pow(base, width - 1));
      QuotientOrder(m, n, base);
      PrintedOrderStep(m / base, m % base, n / base, n % base, base, width - 1);
    }
  }

  lemma {:induction false} PrintedOrderStep(m: nat, d: nat, n: nat, e: nat, base: nat, width: nat)
    requires 2 <= base <= 16 && d < base && e < base
    requires m < Pow(base, width) && n < Pow(base, width)
    ensures Lex(Printed(m, base, width) + [Digit(d)], Printed(n, base, width) + [Digit(e)])
            <==> m < n || (m == n && d < e)
    ensures Printed(m, base, width) + [Digit(d)] == Printed(n, base, width) + [Digit(e)]
            <==> m == n && d == e
    decreases width, 1
  {
    PrintedOrder(m, n, base, width);
    PrintedWidth(m, base, width);
    PrintedWidth(n, base, width);
    AppendedDigit(Printed(m, base, width), Printed(n, base, width), d, e);
  }

  lemma QuotientOrder(m: nat, n: nat, base: nat)
    requires base > 0
    ensures m < n <==> m / base < n / base || (m / base == n / base && m % base < n % base)
    ensures m == n <==> m / base == n / base && m % base == n % base
  {
    Monotone(base, m / base + 1, n / base);
    Monotone(base, n / base + 1, m / base);
  }
}

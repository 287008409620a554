/** Ack IDs `<owner>:<reservation, 20 digits>:<index, 4 digits>`: whose they
    are, that no two pops share one, and that byte order is pop order. */
module AckIds {
  import opened ByteStrings

  type Id = Bytes
  type Owner = Bytes

  const UINT64_LIMIT: nat := 0x1_0000_0000_0000_0000
  const MAX_POP: nat := 1000

  /** An ack ID prefix: crypto/rand text, never empty and without a colon. */
  predicate IsOwner(o: Owner) {
    o != [] && COLON !in o
  }

  function AckId(owner: Owner, reservation: nat, index: nat): Id {
    owner + [COLON] + Printed(reservation, 10, 20) + [COLON] + Printed(index, 10, 4)
  }

  /** The IDs of one pop call, in pop order: index 1 to want. */
  function AckIdsOf(owner: Owner, reservation: nat, want: nat): (ids: seq<Id>)
    ensures |ids| == want
  {
    seq(want, i requires 0 <= i < want => AckId(owner, reservation, i + 1))
  }

  /** `string.match(id, '^(.-):') or ''`: what stands before the first colon. */
  function OwnerOf(id: Id): Owner {
    if COLON !in id then [] else BeforeColon(id)
  }

  function BeforeColon(id: Id): (o: Owner)
    requires COLON in id
  {
    if id[0] == COLON then [] else [id[0]] + BeforeColon(id[1..])
  }

  /** `string.sub(id, 1, #p) == p` with p the owner and a colon. */
  predicate HasPrefix(id: Id, owner: Owner) {
    owner + [COLON] <= id
  }

  lemma {:induction false} BeforeColonOf(owner: Owner, rest: Bytes)
    requires COLON !in owner
    ensures COLON in owner + [COLON] + rest
    ensures BeforeColon(owner + [COLON] + rest) == owner
  {
    var id := owner + [COLON] + rest;
    assert id[|owner|] == COLON;
    if owner != [] {
      assert id[0] == owner[0];
      assert id[1..] == owner[1..] + [COLON] + rest;
      BeforeColonOf(owner[1..], rest);
    }
  }

  lemma {:induction false} BeforeColonSplits(id: Id)
    requires COLON in id
    ensures BeforeColon(id) + [COLON] <= id
  {
    if id[0] != COLON {
      BeforeColonSplits(id[1..]);
    }
  }

  /** The sweep's first-segment match and the release's prefix match pick the
      same IDs of an owner. */
  lemma SegmentIsPrefix(id: Id, owner: Owner)
    requires IsOwner(owner)
    ensures OwnerOf(id) == owner <==> HasPrefix(id, owner)
  {
    if HasPrefix(id, owner) {
      var rest := id[|owner| + 1..];
      assert id == owner + [COLON] + rest;
      BeforeColonOf(owner, rest);
    }
    if OwnerOf(id) == owner {
      BeforeColonSplits(id);
    }
  }

  lemma AckIdOwner(owner: Owner, reservation: nat, index: nat)
    requires IsOwner(owner)
    ensures OwnerOf(AckId(owner, reservation, index)) == owner
  {
    var rest := Printed(reservation, 10, 20) + [COLON] + Printed(index, 10, 4);
    assert AckId(owner, reservation, index) == owner + [COLON] + rest;
    BeforeColonOf(owner, rest);
  }

  lemma FieldWidths()
    ensures UINT64_LIMIT <= Pow(10, 20) && MAX_POP < Pow(10, 4)
  {
    assert Pow(10, 4) == 10000;
    assert Pow(10, 8) == 10000 * Pow(10, 4);
    assert Pow(10, 12) == 10000 * Pow(10, 8);
    assert Pow(10, 16) == 10000 * Pow(10, 12);
    assert Pow(10, 20) == 10000 * Pow(10, 16);
  }

  /** Byte order of one owner's IDs is (reservation, index) order. */
  lemma AckIdOrder(owner: Owner, r: nat, i: nat, r': nat, i': nat)
    requires r < UINT64_LIMIT && r' < UINT64_LIMIT && i <= MAX_POP && i' <= MAX_POP
    ensures Lex(AckId(owner, r, i), AckId(owner, r', i')) <==> r < r' || (r == r' && i < i')
  {
    FieldWidths();
    var (p, q) := (Printed(r, 10, 20), Printed(r', 10, 20));
    var (x, y) := (Printed(i, 10, 4), Printed(i', 10, 4));
    PrintedWidth(r, 10, 20);
    PrintedWidth(r', 10, 20);
    PrintedOrder(r, r', 10, 20);
    PrintedOrder(i, i', 10, 4);
    FieldsOrder(owner, p, q, x, y);
  }

  lemma FieldsOrder(owner: Owner, p: Bytes, q: Bytes, x: Bytes, y: Bytes)
    requires |p| == |q|
    ensures Lex(owner + [COLON] + p + [COLON] + x, owner + [COLON] + q + [COLON] + y)
      <==> Lex(p, q) || (p == q && Lex(x, y))
  {
    var c := [COLON];
    LexIrreflexive(c);
    LexByHead(c, c, x, y);
    LexByHead(p, q, c + x, c + y);
    LexIrreflexive(owner + c);
    LexByHead(owner + c, owner + c, p + (c + x), q + (c + y));
    assert owner + c + p + c + x == (owner + c) + (p + (c + x));
    assert owner + c + q + c + y == (owner + c) + (q + (c + y));
  }

  /** An ID reads back: its owner, 20 digits for the reservation, 4 for the index. */
  lemma AckIdReads(owner: Owner, r: nat, i: nat)
    requires r < UINT64_LIMIT && i <= MAX_POP
    ensures var (id, n) := (AckId(owner, r, i), |owner|);
      && |id| == n + 26 && id[..n] == owner && id[n] == COLON == 58 && id[n + 21] == COLON
      && ValueOf(id[n + 1..n + 21], 10) == r && ValueOf(id[n + 22..], 10) == i
  {
    var (id, n) := (AckId(owner, r, i), |owner|);
    FieldWidths();
    PrintedWidth(r, 10, 20);
    PrintedWidth(i, 10, 4);
    PrintedReads(r, 10, 20);
    PrintedReads(i, 10, 4);
    assert id[n + 1..n + 21] == Printed(r, 10, 20) && id[n + 22..] == Printed(i, 10, 4);
  }

  /** No two (owner, reservation, index) triples share an ID. */
  lemma AckIdInjective(o: Owner, r: nat, i: nat, o': Owner, r': nat, i': nat)
    requires IsOwner(o) && IsOwner(o')
    requires r < UINT64_LIMIT && r' < UINT64_LIMIT && i <= MAX_POP && i' <= MAX_POP
    ensures AckId(o, r, i) == AckId(o', r', i') <==> o == o' && r == r' && i == i'
  {
    AckIdOwner(o, r, i);
    AckIdOwner(o', r', i');
    if AckId(o, r, i) == AckId(o', r', i') {
      LexIrreflexive(AckId(o, r, i));
      AckIdOrder(o, r, i, r', i');
      AckIdOrder(o, r', i', r, i);
    }
  }

  /** The IDs of one call are distinct, belong to its owner and are in byte order. */
  lemma AckIdsOfCall(owner: Owner, r: nat, want: nat)
    requires IsOwner(owner) && r < UINT64_LIMIT && want <= MAX_POP
    ensures var ids := AckIdsOf(owner, r, want);
      && (forall i :: 0 <= i < want ==> OwnerOf(ids[i]) == owner)
      && (forall i, j :: 0 <= i < j < want ==> ids[i] != ids[j] && Lex(ids[i], ids[j]))
  {
    var ids := AckIdsOf(owner, r, want);
    forall i | 0 <= i < want ensures OwnerOf(ids[i]) == owner {
      AckIdOwner(owner, r, i + 1);
    }
    forall i, j | 0 <= i < j < want ensures ids[i] != ids[j] && Lex(ids[i], ids[j]) {
      AckIdOrder(owner, r, i + 1, r, j + 1);
      LexIrreflexive(ids[i]);
    }
  }

  /** Calls of other owners or under other reservations share no ID with it. */
  lemma AckIdsDisjoint(o: Owner, r: nat, want: nat, o': Owner, r': nat, want': nat)
    requires IsOwner(o) && IsOwner(o') && (o != o' || r != r')
    requires r < UINT64_LIMIT && r' < UINT64_LIMIT && want <= MAX_POP && want' <= MAX_POP
    ensures forall id :: id in AckIdsOf(o, r, want) ==> id !in AckIdsOf(o', r', want')
  {
    var (ids, ids') := (AckIdsOf(o, r, want), AckIdsOf(o', r', want'));
    forall i, j | 0 <= i < want && 0 <= j < want' ensures ids[i] != ids'[j] {
      AckIdInjective(o, r, i + 1, o', r', j + 1);
    }
  }
}

/** How a release or a sweep puts items back: whose, how many, and in what order. */
module HandBackOrder {
  import opened ByteStrings
  import opened SortedSets
  import opened AckIds
  import opened WaitingQueue
  import opened Store
  import opened PendingKeys
  import opened Conservation

  /** The sweep and the release select the same items of an owner. */
  lemma SameSelection(nacked: map<Id, Item>, owner: Owner)
    requires IsOwner(owner)
    ensures OwnedIds(nacked, {owner}) == IdsWithPrefix(nacked, owner)
  {
    forall id | id in nacked ensures OwnerOf(id) in {owner} <==> HasPrefix(id, owner) {
      SegmentIsPrefix(id, owner);
    }
  }

  function Reversed(items: seq<Item>): (r: seq<Item>)
    ensures |r| == |items|
  {
    if items == [] then [] else [items[|items| - 1]] + Reversed(items[..|items| - 1])
  }

  lemma {:induction false} ReversedAt(items: seq<Item>, i: nat)
    requires i < |items|
    ensures Reversed(items)[i] == items[|items| - 1 - i]
  {
    if i > 0 {
      ReversedAt(items[..|items| - 1], i - 1);
    }
  }

  lemma StillPending(envid: Bytes -> Bytes, w: Work, ids: seq<Id>)
    requires ids != [] && Distinct(ids) && Members(ids) <= w.pending.nacked.Keys
    ensures var (k, w') := (|ids| - 1, MoveAll(envid, w, ids[..|ids| - 1]));
      ids[k] in w'.pending.nacked && w'.pending.nacked[ids[k]] == w.pending.nacked[ids[k]]
    ensures Distinct(ids[..|ids| - 1]) && Members(ids[..|ids| - 1]) <= w.pending.nacked.Keys
  {
    var h := ids[..|ids| - 1];
    MoveAllNacked(envid, w, h);
    LastIsNew(ids);
    assert ids[|ids| - 1] in ids;
  }

  /** Moving n pending items moves exactly n. */
  lemma MovesAll(envid: Bytes -> Bytes, w: Work, ids: seq<Id>)
    requires Distinct(ids) && Members(ids) <= w.pending.nacked.Keys
    ensures |MoveAll(envid, w, ids).pending.nacked| == |w.pending.nacked| - |ids|
  {
    MoveAllNacked(envid, w, ids);
    DistinctCount(ids);
    var n := w.pending.nacked;
    assert (n - Members(ids)).Keys == n.Keys - Members(ids);
  }

  /** A list gets the items back at its head, the last of them first. */
  lemma {:induction false} ListHandBack(envid: Bytes -> Bytes, w: Work, ids: seq<Id>)
    requires w.queue.Listed? && Distinct(ids) && Members(ids) <= w.pending.nacked.Keys
    ensures MoveAll(envid, w, ids).queue == Listed(Reversed(ItemsUnder(w.pending.nacked, ids)) + w.queue.items)
  {
    if ids != [] {
      var k := |ids| - 1;
      StillPending(envid, w, ids);
      ListHandBack(envid, w, ids[..k]);
      var items := ItemsUnder(w.pending.nacked, ids);
      assert items[..k] == ItemsUnder(w.pending.nacked, ids[..k]);
      assert ids[k] in ids;
    }
  }

  /** Those of the items that were popped at the score, in ID order. */
  function ItemsAt(k: Pending, ids: seq<Id>, score: int): seq<Item> {
    if ids == [] then []
    else
      var id := ids[|ids| - 1];
      ItemsAt(k, ids[..|ids| - 1], score)
      + (if id in k.nacked && ScoreOf(k, id) == score then [k.nacked[id]] else [])
  }

  lemma {:induction false} ScoresKept(envid: Bytes -> Bytes, w: Work, ids: seq<Id>, id: Id)
    requires id !in ids
    ensures ScoreOf(MoveAll(envid, w, ids).pending, id) == ScoreOf(w.pending, id)
  {
    if ids != [] {
      ScoresKept(envid, w, ids[..|ids| - 1], id);
      assert ids[|ids| - 1] in ids;
    }
  }

  /** A sorted set gets each item back at the score it was popped at, behind
      those waiting at that score, in ID order within it. */
  lemma {:induction false} RankedHandBack(envid: Bytes -> Bytes, w: Work, ids: seq<Id>, score: int)
    requires w.queue.Ranked? && Distinct(ids) && Members(ids) <= w.pending.nacked.Keys
    requires WellFormed(w.queue, w.seqNo) && MoveAll(envid, w, ids).seqNo < MAX_SEQ
    ensures AtScore(Entries(MoveAll(envid, w, ids).queue), score)
            == AtScore(Entries(w.queue), score) + ItemsAt(w.pending, ids, score)
  {
    if ids != [] {
      var (h, id) := (ids[..|ids| - 1], ids[|ids| - 1]);
      var w' := MoveAll(envid, w, h);
      StillPending(envid, w, ids);
      RankedHandBack(envid, w, h, score);
      assert WellFormed(w'.queue, w'.seqNo) by { MoveAllWellFormed(envid, w, h); }
      assert w'.queue.Ranked? by { MoveAllNacked(envid, w, h); }
      assert ScoreOf(w'.pending, id) == ScoreOf(w.pending, id) by {
        LastIsNew(ids);
        ScoresKept(envid, w, h, id);
      }
      MoveAppends(envid, w', id, score);
    }
  }

  lemma MoveAppends(envid: Bytes -> Bytes, w: Work, id: Id, score: int)
    requires w.queue.Ranked? && WellFormed(w.queue, w.seqNo) && id in w.pending.nacked
    ensures AtScore(Entries(Move(envid, w, id).queue), score)
            == AtScore(Entries(w.queue), score)
               + (if ScoreOf(w.pending, id) == score then [w.pending.nacked[id]] else [])
  {
    var (z, item, at) := (w.queue.members, w.pending.nacked[id], ScoreOf(w.pending, id));
    assert Move(envid, w, id).queue == Pushed(Ranked(z), w.seqNo + 1, item, at);
    PushAppends(z, w.seqNo, item, at, score);
  }

  lemma PushAppends(z: Zset, last: nat, item: Item, at: int, score: int)
    requires StampedUpTo(z, last) && last < MAX_SEQ
    ensures AtScore(Entries(Pushed(Ranked(z), last + 1, item, at)), score)
            == AtScore(Entries(Ranked(z)), score) + (if at == score then [item] else [])
  {
    PushRefines(z, last, item, at);
    assert ByScore(Entries(Ranked(z))) by { EntriesSorted(z); }
    StableInsertFifo(Entries(Ranked(z)), Entry(item, at), score);
  }

  /** Close hands the owner's items back: to a list the last popped first, ahead
      of all waiting items, and moves exactly as many as were pending. */
  lemma ReleaseToList(envid: Bytes -> Bytes, s: Store, owner: Owner)
    requires s.work.queue.Listed? && IsOwner(owner)
    ensures var (ids, t) := (SortedStrings(OwnedIds(s.work.pending.nacked, {owner})), Release(envid, s, owner));
      && t.work.queue == Listed(Reversed(ItemsUnder(s.work.pending.nacked, ids)) + s.work.queue.items)
      && (forall i :: 0 <= i < |ids| ==>
            ids[|ids| - 1 - i] in s.work.pending.nacked
            && t.work.queue.items[i] == s.work.pending.nacked[ids[|ids| - 1 - i]])
      && |t.work.pending.nacked| == |s.work.pending.nacked| - |ids|
      && (forall id :: id in t.work.pending.nacked <==> id in s.work.pending.nacked && OwnerOf(id) != owner)
  {
    var ids := SortedStrings(IdsWithPrefix(s.work.pending.nacked, owner));
    ReleaseMoves(envid, s, owner);
    ListHandBack(envid, s.work, ids);
    ReversedPlaces(s.work.pending.nacked, ids, s.work.queue.items);
  }

  lemma ReversedPlaces(nacked: map<Id, Item>, ids: seq<Id>, waiting: seq<Item>)
    requires Members(ids) <= nacked.Keys
    ensures forall i :: 0 <= i < |ids| ==>
      ids[|ids| - 1 - i] in nacked
      && (Reversed(ItemsUnder(nacked, ids)) + waiting)[i] == nacked[ids[|ids| - 1 - i]]
  {
    forall i | 0 <= i < |ids|
      ensures ids[|ids| - 1 - i] in nacked
      ensures Reversed(ItemsUnder(nacked, ids))[i] == nacked[ids[|ids| - 1 - i]]
    {
      ReversedAt(ItemsUnder(nacked, ids), i);
      assert ids[|ids| - 1 - i] in ids;
    }
  }

  lemma ReleaseMoves(envid: Bytes -> Bytes, s: Store, owner: Owner)
    requires IsOwner(owner)
    ensures var (ids, n) := (SortedStrings(IdsWithPrefix(s.work.pending.nacked, owner)), s.work.pending.nacked);
      && ids == SortedStrings(OwnedIds(n, {owner}))
      && Distinct(ids) && Members(ids) <= n.Keys
      && |Release(envid, s, owner).work.pending.nacked| == |n| - |ids|
      && (forall id :: id in Release(envid, s, owner).work.pending.nacked <==> id in n && OwnerOf(id) != owner)
  {
    var n := s.work.pending.nacked;
    SameSelection(n, owner);
    var ids := SortedStrings(IdsWithPrefix(n, owner));
    SortedStringsMembers(IdsWithPrefix(n, owner));
    forall i, j | 0 <= i < j < |ids| ensures ids[i] != ids[j] {
      LexIrreflexive(ids[i]);
    }
    MovesAll(envid, s.work, ids);
    MoveAllNacked(envid, s.work, ids);
  }

  /** And to a sorted set, within each score, behind those waiting, in ID order. */
  lemma ReleaseToRanked(envid: Bytes -> Bytes, s: Store, owner: Owner, score: int)
    requires s.work.queue.Ranked? && IsOwner(owner)
    requires WellFormed(s.work.queue, s.work.seqNo) && Release(envid, s, owner).work.seqNo < MAX_SEQ
    ensures var (ids, t) := (SortedStrings(OwnedIds(s.work.pending.nacked, {owner})), Release(envid, s, owner));
      && AtScore(Entries(t.work.queue), score)
        == AtScore(Entries(s.work.queue), score) + ItemsAt(s.work.pending, ids, score)
      && |t.work.pending.nacked| == |s.work.pending.nacked| - |ids|
  {
    ReleaseMoves(envid, s, owner);
    RankedHandBack(envid, s.work, SortedStrings(IdsWithPrefix(s.work.pending.nacked, owner)), score);
  }
}

/**
 The send queue's stream index: open addressing with linear probing and
 backshift deletion.  A table is a sequence of entries; an entry whose slot is
 negative is empty.  `Represents` ties a table to the finite map it stores; the
 methods below work in place on the array and are proved against that map.
 */
module ProbeTable {
  import opened MapTotals

  type Sid = nat

  datatype Entry = Entry(sid: Sid, slot: int)

  predicate Full(e: Entry) { e.slot >= 0 }

  /** The cell probed after cell i: (i + 1) modulo n. */
  function Next(i: nat, n: nat): (r: nat)
    requires i < n
    ensures r < n
  {
    if i + 1 == n then 0 else i + 1
  }

  /** How many probe steps lead from cell a to cell b: (b - a) modulo n. */
  function Dist(a: nat, b: nat, n: nat): (r: nat)
    requires a < n && b < n
    ensures r < n
  {
    if a <= b then b - a else b - a + n
  }

  function Home(hash: Sid -> nat, sid: Sid, n: nat): (r: nat)
    requires n > 0
    ensures r < n
  {
    hash(sid) % n
  }

  /** Cell p is probed strictly before cell j in a search that starts at h. */
  predicate Before(h: nat, p: nat, j: nat, n: nat)
    requires h < n && p < n && j < n
  {
    Dist(h, p, n) < Dist(h, j, n)
  }

  /** Every cell a search probes before reaching cell j is full, except perhaps `hole`. */
  ghost predicate Reachable(t: seq<Entry>, hash: Sid -> nat, j: nat, hole: int)
    requires j < |t|
  {
    forall p: nat :: p < |t| && p != hole && Before(Home(hash, t[j].sid, |t|), p, j, |t|) ==> Full(t[p])
  }

  ghost predicate Distinct(t: seq<Entry>) {
    forall i, j :: 0 <= i < j < |t| && Full(t[i]) && Full(t[j]) ==> t[i].sid != t[j].sid
  }

  ghost predicate Holds(t: seq<Entry>, j: nat, sid: Sid) {
    j < |t| && Full(t[j]) && t[j].sid == sid
  }

  ghost predicate Stored(t: seq<Entry>, sid: Sid) {
    exists j :: Holds(t, j, sid)
  }

  /** The full entries are exactly the pairs of m, each stored once. */
  ghost predicate Stores(t: seq<Entry>, m: map<Sid, nat>) {
    && (forall j :: 0 <= j < |t| && Full(t[j]) ==> t[j].sid in m && m[t[j].sid] == t[j].slot)
    && (forall s {:trigger Stored(t, s)} :: s in m ==> Stored(t, s))
    && Distinct(t)
  }

  /** The table stores m, and a search for any stored key crosses no empty cell. */
  ghost predicate Represents(t: seq<Entry>, hash: Sid -> nat, m: map<Sid, nat>) {
    && |t| > 0
    && Stores(t, m)
    && (forall j: nat :: j < |t| && Full(t[j]) ==> Reachable(t, hash, j, -1))
  }

  // ----- load: a table with more cells than keys has an empty cell -----

  ghost function Keys(t: seq<Entry>): set<Sid> {
    set i | 0 <= i < |t| :: t[i].sid
  }

  lemma {:induction false} KeysOfFull(t: seq<Entry>)
    requires Distinct(t) && forall i :: 0 <= i < |t| ==> Full(t[i])
    ensures |Keys(t)| == |t|
  {
    if t == [] {
      assert Keys(t) == {};
    } else {
      var u := t[..|t| - 1];
      KeysOfFull(u);
      assert t[|t| - 1].sid !in Keys(u);
      assert Keys(t) == Keys(u) + {t[|t| - 1].sid} by {
        forall s | s in Keys(t) ensures s in Keys(u) + {t[|t| - 1].sid} {
          var i :| 0 <= i < |t| && t[i].sid == s;
          if i < |t| - 1 { assert u[i].sid == s; }
        }
        forall s | s in Keys(u) ensures s in Keys(t) {
          var i :| 0 <= i < |u| && u[i].sid == s;
          assert t[i].sid == s;
        }
      }
    }
  }

  /** Fewer keys than cells leaves an empty cell, so every probe loop ends. */
  lemma SpareCell(t: seq<Entry>, m: map<Sid, nat>)
    requires Stores(t, m) && |m| < |t|
    ensures exists e: nat :: e < |t| && !Full(t[e])
  {
    if forall e: nat :: e < |t| ==> Full(t[e]) {
      KeysOfFull(t);
      assert Keys(t) <= m.Keys;
      SubsetSize(Keys(t), m.Keys);
    }
  }

  // ----- search -----

  /** A search that has met only full cells holding other keys and now stands on an empty one proves absence. */
  lemma SearchMiss(t: seq<Entry>, hash: Sid -> nat, m: map<Sid, nat>, sid: Sid, e: nat)
    requires Represents(t, hash, m) && e < |t| && !Full(t[e])
    requires forall p: nat :: p < |t| && Before(Home(hash, sid, |t|), p, e, |t|) ==> !Holds(t, p, sid)
    ensures sid !in m
  {
    if sid in m {
      assert Stored(t, sid);
      var j: nat :| Holds(t, j, sid);
      assert false;
    }
  }

  method Find(index: array<Entry>, hash: Sid -> nat, sid: Sid, ghost m: map<Sid, nat>) returns (slot: int)
    requires Represents(index[..], hash, m) && |m| < index.Length
    ensures slot == if sid in m then m[sid] else -1
  {
    var n := index.Length;
    ghost var h := Home(hash, sid, n);
    SpareCell(index[..], m);
    ghost var e: nat :| e < n && !Full(index[e]);
    var i: nat := Home(hash, sid, n);
    while Full(index[i])
      invariant i < n
      invariant forall p: nat :: p < n && Before(h, p, i, n) ==> Full(index[p]) && index[p].sid != sid
      decreases Dist(i, e, n)
    {
      if index[i].sid == sid {
        return index[i].slot;
      }
      assert !Before(h, e, i, n);
      StepOrder(h, i, e, n);
      i := Next(i, n);
    }
    SearchMiss(index[..], hash, m, sid, i);
    return -1;
  }

  /** Stepping on from i, with e not yet passed: nothing else becomes passed but i, and e comes nearer. */
  lemma StepOrder(h: nat, i: nat, e: nat, n: nat)
    requires h < n && i < n && e < n && i != e && !Before(h, e, i, n)
    ensures Dist(Next(i, n), e, n) < Dist(i, e, n)
    ensures forall p: nat :: p < n && Before(h, p, Next(i, n), n) ==> p == i || Before(h, p, i, n)
  {
  }

  // ----- insertion -----

  lemma InsertKeeps(t: seq<Entry>, hash: Sid -> nat, m: map<Sid, nat>, sid: Sid, slot: nat, i: nat)
    requires Represents(t, hash, m) && sid !in m && i < |t| && !Full(t[i])
    requires forall p: nat :: p < |t| && Before(Home(hash, sid, |t|), p, i, |t|) ==> Full(t[p])
    ensures Represents(t[i := Entry(sid, slot)], hash, m[sid := slot])
  {
    var u := t[i := Entry(sid, slot)];
    var m' := m[sid := slot];
    forall j: nat | j < |u| && Full(u[j]) ensures Reachable(u, hash, j, -1) {
      if j != i { assert Reachable(t, hash, j, -1); }
    }
    forall s | s in m' ensures Stored(u, s) {
      if s == sid {
        assert Holds(u, i, s);
      } else {
        assert Stored(t, s);
        var j: nat :| Holds(t, j, s);
        assert Holds(u, j, s);
      }
    }
  }

  method Insert(index: array<Entry>, hash: Sid -> nat, sid: Sid, slot: nat, ghost m: map<Sid, nat>)
    requires Represents(index[..], hash, m) && |m| < index.Length && sid !in m
    modifies index
    ensures Represents(index[..], hash, m[sid := slot])
  {
    var n := index.Length;
    ghost var h := Home(hash, sid, n);
    SpareCell(index[..], m);
    ghost var e: nat :| e < n && !Full(index[e]);
    var i: nat := Home(hash, sid, n);
    while Full(index[i])
      invariant i < n && index[..] == old(index[..])
      invariant forall p: nat :: p < n && Before(h, p, i, n) ==> Full(index[p])
      decreases Dist(i, e, n)
    {
      assert !Before(h, e, i, n);
      StepOrder(h, i, e, n);
      i := Next(i, n);
    }
    InsertKeeps(index[..], hash, m, sid, slot, i);
    index[i] := Entry(sid, slot);
    assert index[..] == old(index[..])[i := Entry(sid, slot)];
  }

  // ----- backshift deletion -----

  /** Cell p lies strictly between the hole and j, in probe order. */
  predicate Between(hole: nat, p: nat, j: nat, n: nat)
    requires hole < n && p < n && j < n
  {
    0 < Dist(hole, p, n) < Dist(hole, j, n)
  }

  /** A table with one hole at i, scanned up to (not including) j: the scanned cells are full and no scanned
      entry needs the hole; an entry beyond j may still have its search path cut by the hole. */
  ghost predicate Holed(t: seq<Entry>, hash: Sid -> nat, m: map<Sid, nat>, i: nat, j: nat) {
    && i < |t| && j < |t| && i != j
    && Stores(t, m)
    && !Full(t[i])
    && (forall p: nat :: p < |t| && Between(i, p, j, |t|) ==> Full(t[p]) && Reachable(t, hash, p, -1))
    && (forall p: nat :: p < |t| && Full(t[p]) ==> Reachable(t, hash, p, i))
  }

  /** A path that crosses the hole and ends outside the scanned cells crosses j too. */
  lemma PathCrossesBoth(h: nat, hole: nat, j: nat, p: nat, n: nat)
    requires h < n && hole < n && j < n && p < n && p != j && !Between(hole, p, j, n)
    ensures Before(h, hole, p, n) ==> Before(h, j, p, n)
  {
  }

  /** When the scan meets an empty cell no search path is cut any more. */
  lemma HoleHarmless(t: seq<Entry>, hash: Sid -> nat, m: map<Sid, nat>, i: nat, j: nat)
    requires Holed(t, hash, m, i, j) && !Full(t[j])
    ensures Represents(t, hash, m)
  {
    forall p: nat | p < |t| && Full(t[p]) ensures Reachable(t, hash, p, -1) {
      if !Between(i, p, j, |t|) {
        var h := Home(hash, t[p].sid, |t|);
        assert Reachable(t, hash, p, i);
        PathCrossesBoth(h, i, j, p, |t|);
      }
    }
  }

  /** An entry whose path does not cross the hole stays where it is. */
  lemma ScanPast(t: seq<Entry>, hash: Sid -> nat, m: map<Sid, nat>, i: nat, j: nat, e: nat)
    requires Holed(t, hash, m, i, j) && Full(t[j]) && e < |t| && e != i && !Full(t[e])
    requires Dist(Home(hash, t[j].sid, |t|), j, |t|) < Dist(i, j, |t|)
    ensures Holed(t, hash, m, i, Next(j, |t|))
    ensures Dist(Next(j, |t|), e, |t|) < Dist(j, e, |t|)
  {
    var n := |t|;
    assert !Between(i, e, j, n);
    assert Next(j, n) != i;
    forall p: nat | p < n && Between(i, p, Next(j, n), n) ensures Full(t[p]) && Reachable(t, hash, p, -1) {
      if p == j {
        assert Reachable(t, hash, j, i);
      } else {
        assert Between(i, p, j, n);
      }
    }
  }

  /** Moving the scanned entry into the hole moves the hole to the scanned cell. */
  lemma ShiftBack(t: seq<Entry>, hash: Sid -> nat, m: map<Sid, nat>, i: nat, j: nat, e: nat)
    requires Holed(t, hash, m, i, j) && Full(t[j]) && e < |t| && e != i && !Full(t[e])
    requires Dist(Home(hash, t[j].sid, |t|), j, |t|) >= Dist(i, j, |t|)
    ensures Holed(t[i := t[j]][j := t[j].(slot := -1)], hash, m, j, Next(j, |t|))
    ensures Dist(Next(j, |t|), e, |t|) < Dist(j, e, |t|)
  {
    var n := |t|;
    var u := t[i := t[j]][j := t[j].(slot := -1)];
    assert j != e && Next(j, n) != j;
    StoresMoved(t, m, i, j);
    forall p: nat | p < n && Full(u[p]) ensures Reachable(u, hash, p, j) {
      var h := Home(hash, u[p].sid, n);
      if p == i {
        assert Reachable(t, hash, j, i);
        forall q: nat | q < n && q != j && Before(h, q, i, n) ensures Full(u[q]) {
          assert Before(h, q, j, n);
        }
      } else {
        assert Reachable(t, hash, p, i);
      }
    }
    forall p: nat | p < n && Between(j, p, Next(j, n), n) ensures false { }
  }

  lemma StoresMoved(t: seq<Entry>, m: map<Sid, nat>, i: nat, j: nat)
    requires Stores(t, m) && i < |t| && j < |t| && i != j && !Full(t[i]) && Full(t[j])
    ensures Stores(t[i := t[j]][j := t[j].(slot := -1)], m)
  {
    var u := t[i := t[j]][j := t[j].(slot := -1)];
    forall s | s in m ensures Stored(u, s) {
      assert Stored(t, s);
      var k: nat :| Holds(t, k, s);
      assert Holds(u, if k == j then i else k, s);
    }
  }

  /** Clearing the found cell opens the hole. */
  lemma OpenHole(t: seq<Entry>, hash: Sid -> nat, m: map<Sid, nat>, i: nat, e: nat)
    requires Represents(t, hash, m) && i < |t| && Full(t[i]) && e < |t| && !Full(t[e])
    ensures Holed(t[i := t[i].(slot := -1)], hash, m - {t[i].sid}, i, Next(i, |t|))
  {
    var u := t[i := t[i].(slot := -1)];
    var m' := m - {t[i].sid};
    assert i != e;
    forall s | s in m' ensures Stored(u, s) {
      assert Stored(t, s);
      var k: nat :| Holds(t, k, s);
      assert Holds(u, k, s);
    }
    forall p: nat | p < |u| && Full(u[p]) ensures Reachable(u, hash, p, i) {
      assert Reachable(t, hash, p, -1);
    }
    forall p: nat | p < |u| && Between(i, p, Next(i, |u|), |u|) ensures false { }
  }

  /** Backshift entries whose probe chain crosses the hole at `start`. */
  method Backshift(index: array<Entry>, hash: Sid -> nat, start: nat, ghost e: nat, ghost m: map<Sid, nat>)
    requires start < index.Length && e < index.Length && e != start && !Full(index[e])
    requires Holed(index[..], hash, m, start, Next(start, index.Length))
    modifies index
    ensures Represents(index[..], hash, m)
  {
    var n, i: nat := index.Length, start;
    var j := Next(i, n);
    while Full(index[j])
      invariant e < n && e != i && !Full(index[e])
      invariant Holed(index[..], hash, m, i, j)
      decreases Dist(j, e, n)
    {
      ghost var t := index[..];
      if Dist(Home(hash, index[j].sid, n), j, n) >= Dist(i, j, n) {
        ShiftBack(t, hash, m, i, j, e);
        index[i] := index[j];
        index[j] := index[j].(slot := -1);
        assert index[..] == t[i := t[j]][j := t[j].(slot := -1)];
        i := j;
      } else {
        ScanPast(t, hash, m, i, j, e);
      }
      j := Next(j, n);
    }
    HoleHarmless(index[..], hash, m, i, j);
  }

  method Remove(index: array<Entry>, hash: Sid -> nat, sid: Sid, ghost m: map<Sid, nat>)
    requires Represents(index[..], hash, m) && |m| < index.Length
    modifies index
    ensures Represents(index[..], hash, m - {sid})
  {
    var n := index.Length;
    ghost var h := Home(hash, sid, n);
    SpareCell(index[..], m);
    ghost var e: nat :| e < n && !Full(index[e]);
    var i: nat := Home(hash, sid, n);
    while !Full(index[i]) || index[i].sid != sid
      invariant i < n && index[..] == old(index[..])
      invariant forall p: nat :: p < n && Before(h, p, i, n) ==> Full(index[p]) && index[p].sid != sid
      decreases Dist(i, e, n)
    {
      if !Full(index[i]) {
        SearchMiss(index[..], hash, m, sid, i);
        assert m - {sid} == m;
        return;
      }
      assert !Before(h, e, i, n);
      StepOrder(h, i, e, n);
      i := Next(i, n);
    }
    OpenHole(index[..], hash, m, i, e);
    index[i] := index[i].(slot := -1);
    assert index[..] == old(index[..])[i := old(index[i]).(slot := -1)];
    Backshift(index, hash, i, e, m - {sid});
  }
}

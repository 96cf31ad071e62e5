/**
 The slot table of the send queue and its free list, as values.
 `where` maps each stream id to the slot that holds it; `free` is the free list
 in order.  Together they account for every slot exactly once.
 */
module SlotTable {
  import opened ProbeTable
  import opened SendQueueModel

  datatype Slot = Slot(inUse: bool, sid: Sid, st: Stream, nextFree: nat)

  /** `where` is exactly the in-use slots, by stream id. */
  ghost predicate Placed(slots: seq<Slot>, where: map<Sid, nat>) {
    && (forall s {:trigger where[s]} :: s in where ==>
          where[s] < |slots| && slots[where[s]].inUse && slots[where[s]].sid == s)
    && (forall i {:trigger slots[i].inUse} :: 0 <= i < |slots| && slots[i].inUse ==>
          slots[i].sid in where && where[slots[i].sid] == i)
  }

  /** Entry k of the free list is an unused slot that links to entry k + 1, the last one to the end mark. */
  ghost predicate Linked(slots: seq<Slot>, free: seq<nat>, k: nat)
    requires k < |free|
  {
    && free[k] < |slots| && !slots[free[k]].inUse
    && slots[free[k]].nextFree == if k + 1 < |free| then free[k + 1] else |slots|
  }

  /** The list linked from `head` is `free`, and it is exactly the slots not in use, each once. */
  ghost predicate Chained(slots: seq<Slot>, head: nat, free: seq<nat>) {
    && head == (if free == [] then |slots| else free[0])
    && (forall k: nat :: k < |free| ==> Linked(slots, free, k))
    && (forall j, k :: 0 <= j < k < |free| ==> free[j] != free[k])
    && (forall i {:trigger slots[i].inUse} :: 0 <= i < |slots| && !slots[i].inUse ==> i in free)
  }

  ghost predicate TableOk(slots: seq<Slot>, head: nat, where: map<Sid, nat>, free: seq<nat>) {
    Placed(slots, where) && Chained(slots, head, free)
  }

  /** `streams` is what the in-use slots hold. */
  ghost predicate Means(slots: seq<Slot>, where: map<Sid, nat>, streams: map<Sid, Stream>) {
    && streams.Keys == where.Keys
    && forall s {:trigger where[s]} :: s in where ==> where[s] < |slots| && streams[s] == slots[where[s]].st
  }

  lemma {:induction false} InjectiveSize(m: map<Sid, nat>, range: set<nat>)
    requires forall s :: s in m ==> m[s] in range
    requires forall s, s' :: s in m && s' in m && m[s] == m[s'] ==> s == s'
    ensures |m| <= |range|
    decreases |m|
  {
    if |m| > 0 {
      var s :| s in m;
      var m' := m - {s};
      InjectiveSize(m', range - {m[s]});
      assert m'.Keys == m.Keys - {s};
    }
  }

  ghost function Range(n: nat): (r: set<nat>)
    ensures |r| == n && forall i: nat :: i in r <==> i < n
  {
    if n == 0 then {} else Range(n - 1) + {n - 1}
  }

  /** No more streams than slots; strictly fewer while the free list is not empty. */
  lemma LoadBound(slots: seq<Slot>, head: nat, where: map<Sid, nat>, free: seq<nat>)
    requires TableOk(slots, head, where, free)
    ensures |where| <= |slots|
    ensures free != [] ==> |where| < |slots|
  {
    assert free != [] ==> Linked(slots, free, 0);
    InjectiveSize(where, if free == [] then Range(|slots|) else Range(|slots|) - {free[0]});
  }

  /** The free list survives changes to slots that are in use before and after. */
  lemma ChainFrame(slots: seq<Slot>, slots': seq<Slot>, head: nat, free: seq<nat>)
    requires Chained(slots, head, free) && |slots'| == |slots|
    requires forall i :: 0 <= i < |slots| ==> slots'[i] == slots[i] || (slots[i].inUse && slots'[i].inUse)
    ensures Chained(slots', head, free)
  {
    forall k: nat | k < |free| ensures Linked(slots', free, k) {
      assert Linked(slots, free, k);
    }
  }

  lemma NoneFree(slots: seq<Slot>, head: nat, free: seq<nat>)
    requires Chained(slots, head, free)
    ensures free == [] <==> head >= |slots|
  {
    assert free != [] ==> Linked(slots, free, 0);
  }

  /** Replacing one stream's record touches that stream only. */
  lemma SetStream(slots: seq<Slot>, head: nat, where: map<Sid, nat>, free: seq<nat>, streams: map<Sid, Stream>,
                  sid: Sid, st: Stream)
    requires TableOk(slots, head, where, free) && Means(slots, where, streams) && sid in where
    ensures var slots' := slots[where[sid] := slots[where[sid]].(st := st)];
            && TableOk(slots', head, where, free)
            && Means(slots', where, streams[sid := st])
  {
    var slots' := slots[where[sid] := slots[where[sid]].(st := st)];
    ChainFrame(slots, slots', head, free);
  }

  lemma PushFree(slots: seq<Slot>, head: nat, free: seq<nat>, i: nat)
    requires Chained(slots, head, free) && i < |slots| && slots[i].inUse
    ensures Chained(slots[i := Slot(false, 0, FRESH, head)], i, [i] + free)
  {
    var slots' := slots[i := Slot(false, 0, FRESH, head)];
    var free' := [i] + free;
    forall k: nat | k < |free'| ensures Linked(slots', free', k) {
      if k > 0 { assert Linked(slots, free, k - 1); }
    }
    forall k: nat | k < |free| ensures free[k] != i {
      assert Linked(slots, free, k);
    }
  }

  /** Releasing a slot pushes it on the free list. */
  lemma ReleaseSlot(slots: seq<Slot>, head: nat, where: map<Sid, nat>, free: seq<nat>, streams: map<Sid, Stream>,
                    sid: Sid)
    requires TableOk(slots, head, where, free) && Means(slots, where, streams) && sid in where
    ensures var slots' := slots[where[sid] := Slot(false, 0, FRESH, head)];
            && TableOk(slots', where[sid], where - {sid}, [where[sid]] + free)
            && Means(slots', where - {sid}, streams - {sid})
  {
    PushFree(slots, head, free, where[sid]);
  }

  lemma PopFree(slots: seq<Slot>, head: nat, free: seq<nat>, slot: Slot)
    requires Chained(slots, head, free) && head < |slots| && slot.inUse
    ensures free != [] && free[0] == head
    ensures Chained(slots[head := slot], slots[head].nextFree, free[1..])
  {
    var slots' := slots[head := slot];
    var free' := free[1..];
    assert free != [] && Linked(slots, free, 0);
    forall k: nat | k < |free'| ensures Linked(slots', free', k) {
      assert Linked(slots, free, k + 1);
    }
    forall j | 0 <= j < |slots'| && !slots'[j].inUse ensures j in free' {
      var k :| 0 <= k < |free| && free[k] == j;
      assert free'[k - 1] == j;
    }
  }

  /** Taking the head of the free list for a new stream. */
  lemma TakeSlot(slots: seq<Slot>, head: nat, where: map<Sid, nat>, free: seq<nat>, streams: map<Sid, Stream>,
                 sid: Sid)
    requires TableOk(slots, head, where, free) && Means(slots, where, streams) && sid !in where && head < |slots|
    ensures free != [] && free[0] == head
    ensures var slots' := slots[head := Slot(true, sid, FRESH, 0)];
            && TableOk(slots', slots[head].nextFree, where[sid := head], free[1..])
            && Means(slots', where[sid := head], streams[sid := FRESH])
  {
    PopFree(slots, head, free, Slot(true, sid, FRESH, 0));
    assert Linked(slots, free, 0);
  }

  /** The slots a growth adds, chained in order. */
  function NewSlots(first: nat, count: nat): (r: seq<Slot>)
    ensures |r| == count
  {
    seq(count, k requires 0 <= k < count => Slot(false, 0, FRESH, first + k + 1))
  }

  /** Growing a full table chains the new slots and moves nothing. */
  lemma GrowTable(slots: seq<Slot>, head: nat, where: map<Sid, nat>, streams: map<Sid, Stream>, count: nat)
    requires TableOk(slots, head, where, []) && Means(slots, where, streams) && count > 0
    ensures var slots' := slots + NewSlots(|slots|, count);
            && TableOk(slots', |slots|, where, seq(count, k => |slots| + k))
            && Means(slots', where, streams)
  {
    var slots' := slots + NewSlots(|slots|, count);
    var free' := seq(count, k => |slots| + k);
    forall i | 0 <= i < |slots'| && !slots'[i].inUse ensures i in free' {
      assert i >= |slots|;
      assert free'[i - |slots|] == i;
    }
  }

  /** m is the part of `where` that lies in the first n slots. */
  ghost predicate FirstSlots(where: map<Sid, nat>, m: map<Sid, nat>, n: nat) {
    && |m| <= n
    && (forall s :: s in m <==> s in where && where[s] < n)
    && (forall s :: s in m ==> m[s] == where[s])
  }

  lemma NextSlot(slots: seq<Slot>, where: map<Sid, nat>, m: map<Sid, nat>, i: nat)
    requires Placed(slots, where) && FirstSlots(where, m, i) && i < |slots|
    ensures slots[i].inUse ==> slots[i].sid !in m && FirstSlots(where, m[slots[i].sid := i], i + 1)
    ensures !slots[i].inUse ==> FirstSlots(where, m, i + 1)
  {
  }

  lemma AllSlots(slots: seq<Slot>, where: map<Sid, nat>, m: map<Sid, nat>)
    requires Placed(slots, where) && FirstSlots(where, m, |slots|)
    ensures m == where
  {
  }

  // ----- offset records -----

  datatype Offset = Offset(sid: Sid, provided: nat)

  ghost predicate RecordAt(offs: seq<Offset>, i: nat, sid: Sid) {
    i < |offs| && offs[i].sid == sid
  }

  ghost predicate HasRecord(offs: seq<Offset>, sid: Sid) {
    exists i :: RecordAt(offs, i, sid)
  }

  /** The record array holds the map m, each stream once, in any order. */
  ghost predicate Recorded(offs: seq<Offset>, m: map<Sid, nat>) {
    && (forall i :: 0 <= i < |offs| ==> offs[i].sid in m && m[offs[i].sid] == offs[i].provided)
    && (forall i, j :: 0 <= i < j < |offs| ==> offs[i].sid != offs[j].sid)
    && (forall s {:trigger HasRecord(offs, s)} :: s in m ==> HasRecord(offs, s))
  }

  lemma RecordSet(offs: seq<Offset>, m: map<Sid, nat>, i: nat, provided: nat)
    requires Recorded(offs, m) && i < |offs|
    ensures Recorded(offs[i := Offset(offs[i].sid, provided)], m[offs[i].sid := provided])
  {
    var offs' := offs[i := Offset(offs[i].sid, provided)];
    var m' := m[offs[i].sid := provided];
    forall s | s in m' ensures HasRecord(offs', s) {
      assert HasRecord(offs, s);
      var j: nat :| RecordAt(offs, j, s);
      assert RecordAt(offs', j, s);
    }
  }

  lemma RecordAdd(offs: seq<Offset>, m: map<Sid, nat>, sid: Sid)
    requires Recorded(offs, m) && sid !in m
    ensures Recorded(offs + [Offset(sid, 0)], m[sid := 0])
  {
    var offs' := offs + [Offset(sid, 0)];
    var m' := m[sid := 0];
    forall s | s in m' ensures HasRecord(offs', s) {
      if s == sid {
        assert RecordAt(offs', |offs|, s);
      } else {
        assert HasRecord(offs, s);
        var j: nat :| RecordAt(offs, j, s);
        assert RecordAt(offs', j, s);
      }
    }
  }

  /** Forgetting moves the last record into the freed place. */
  lemma RecordRemove(offs: seq<Offset>, m: map<Sid, nat>, i: nat)
    requires Recorded(offs, m) && i < |offs|
    ensures Recorded(offs[i := offs[|offs| - 1]][..|offs| - 1], m - {offs[i].sid})
  {
    var offs' := offs[i := offs[|offs| - 1]][..|offs| - 1];
    forall s | s in m - {offs[i].sid} ensures HasRecord(offs', s) {
      assert HasRecord(offs, s);
      var j: nat :| RecordAt(offs, j, s);
      assert RecordAt(offs', if j == |offs| - 1 then i else j, s);
    }
  }
}

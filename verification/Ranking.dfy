/**
 Lazy dense priority ranking.  Keys are ranked only when something that matters
 to the order has changed (the dirty flag); each distinct non-zero key gets the
 next even transport level from 2 up, and the keys past the last level share it.
 */
module Ranking {
  import opened MapTotals
  import opened ProbeTable
  import opened SendQueueModel
  import opened SlotTable

  const RANK_MAX: nat := 126
  const LAST_LEVEL: nat := 2 + 2 * RANK_MAX

  datatype Rank = Rank(key: nat, slot: nat)

  /** A transport call the ranking made. */
  datatype Call = Call(sid: Sid, level: nat)

  ghost function Smaller(keys: set<nat>, key: nat): set<nat> {
    set k | k in keys && k < key
  }

  /** The level a key deserves among the given non-zero keys. */
  ghost function Level(keys: set<nat>, key: nat): nat {
    if key == 0 then 0 else 2 + 2 * Min(RANK_MAX, |Smaller(keys, key)|)
  }

  predicate Ranked(s: Stream) { !s.unstarted && s.key > 0 }

  ghost function RankedKeys(streams: map<Sid, Stream>): set<nat> {
    set s | s in streams && Ranked(streams[s]) :: streams[s].key
  }

  ghost function Levelled(keys: set<nat>, s: Stream): Stream {
    if s.unstarted then s else s.(level := Level(keys, s.key), levelApplied := true)
  }

  /** A complete ranking: every started stream gets the level of its key. */
  ghost function Rerank(q: Queue): Queue {
    var keys := RankedKeys(q.streams);
    q.(streams := map s | s in q.streams :: Levelled(keys, q.streams[s]), dirty := false)
  }

  /** A ranking that was cut short: some streams have their new level, the others are as before. */
  ghost predicate PartlyReranked(q: Queue, q': Queue) {
    && q'.streams.Keys == q.streams.Keys
    && (forall s :: s in q.streams ==>
          q'.streams[s] == q.streams[s] || q'.streams[s] == Levelled(RankedKeys(q.streams), q.streams[s]))
    && q' == q.(streams := q'.streams)
  }

  /** Levels respect keys: equal keys share a level, smaller keys come first except where both share the last level. */
  ghost predicate InOrder(a: Stream, b: Stream) {
    && a.levelApplied && b.levelApplied
    && (a.key == b.key ==> a.level == b.level)
    && (a.key < b.key ==> a.level < b.level || a.level == b.level == LAST_LEVEL)
  }

  /** While nothing is dirty the applied levels respect the keys of every two started streams. */
  ghost predicate RankInv(q: Queue) {
    !q.dirty ==>
      forall a, b :: a in q.streams && b in q.streams && !q.streams[a].unstarted && !q.streams[b].unstarted ==>
        InOrder(q.streams[a], q.streams[b])
  }

  lemma LevelOrder(keys: set<nat>, j: nat, k: nat)
    requires j < k && (j == 0 || j in keys)
    ensures Level(keys, j) < Level(keys, k) || Level(keys, j) == Level(keys, k) == LAST_LEVEL
  {
    if j > 0 {
      var a, b := Smaller(keys, j), Smaller(keys, k);
      assert a + {j} <= b;
      SubsetSize(a + {j}, b);
    }
  }

  /** A complete ranking puts the levels in order, whatever they were. */
  lemma RerankInOrder(q: Queue)
    ensures RankInv(Rerank(q))
  {
    var keys := RankedKeys(q.streams);
    var r := Rerank(q);
    forall a, b | a in r.streams && b in r.streams && !r.streams[a].unstarted && !r.streams[b].unstarted
      ensures InOrder(r.streams[a], r.streams[b])
    {
      var x, y := q.streams[a], q.streams[b];
      if x.key < y.key {
        assert x.key > 0 ==> x.key in keys;
        LevelOrder(keys, x.key, y.key);
      }
    }
  }

  // ----- the ranking pass over the slot table -----

  ghost predicate Sorted(order: seq<Rank>) {
    forall i, j :: 0 <= i < j < |order| ==> order[i].key <= order[j].key
  }

  /** A sorting routine: any that returns its input in key order, stable or not. */
  ghost predicate Sorts(sort: seq<Rank> -> seq<Rank>) {
    forall o :: Sorted(sort(o)) && multiset(sort(o)) == multiset(o)
  }

  ghost function OrderKeys(order: seq<Rank>): set<nat> {
    set i | 0 <= i < |order| :: order[i].key
  }

  /** Sorting changes neither the keys nor the entries. */
  lemma SameEntries(a: seq<Rank>, b: seq<Rank>)
    requires multiset(a) == multiset(b)
    ensures forall r :: r in a <==> r in b
  {
    forall r ensures r in a <==> r in b {
      assert r in a <==> r in multiset(a);
      assert r in b <==> r in multiset(b);
    }
  }

  /** Where the sorted keys step up, the smaller keys grow by exactly the key just passed. */
  lemma SmallerStep(order: seq<Rank>, i: nat)
    requires Sorted(order) && 0 < i < |order| && order[i].key != order[i - 1].key
    ensures Smaller(OrderKeys(order), order[i].key)
         == Smaller(OrderKeys(order), order[i - 1].key) + {order[i - 1].key}
  {
    var keys := OrderKeys(order);
    forall k | k in Smaller(keys, order[i].key) ensures k <= order[i - 1].key {
      var j :| 0 <= j < |order| && order[j].key == k;
      assert j < i;
    }
    assert order[i - 1].key in keys;
  }

  lemma SmallestFirst(order: seq<Rank>)
    requires Sorted(order) && order != []
    ensures Smaller(OrderKeys(order), order[0].key) == {}
  {
  }

  /** The rank counter of the pass is the number of distinct smaller keys. */
  lemma RankCount(order: seq<Rank>, i: nat)
    requires Sorted(order) && i < |order|
    ensures |Smaller(OrderKeys(order), order[i].key)|
         == if i == 0 then 0
            else |Smaller(OrderKeys(order), order[i - 1].key)| + (if order[i].key != order[i - 1].key then 1 else 0)
  {
    if i == 0 {
      SmallestFirst(order);
    } else if order[i].key != order[i - 1].key {
      SmallerStep(order, i);
      assert order[i - 1].key !in Smaller(OrderKeys(order), order[i - 1].key);
    }
  }

  /** One transport call, unless the level is already applied; the new slot, or failure. */
  method ApplyLevel(slot: Slot, level: nat, apply: (Sid, nat) -> bool) returns (ok: bool, slot': Slot, calls: seq<Call>)
    ensures ok ==> slot' == slot.(st := slot.st.(level := level, levelApplied := true))
    ensures !ok ==> slot' == slot && !apply(slot.sid, level)
    ensures calls == if slot.st.levelApplied && slot.st.level == level then [] else [Call(slot.sid, level)]
  {
    if slot.st.levelApplied && slot.st.level == level {
      return true, slot, [];
    }
    if !apply(slot.sid, level) {
      return false, slot, [Call(slot.sid, level)];
    }
    return true, slot.(st := slot.st.(level := level, levelApplied := true)), [Call(slot.sid, level)];
  }

  ghost function SlotKeys(slots: seq<Slot>): set<nat> {
    set i | 0 <= i < |slots| && slots[i].inUse && Ranked(slots[i].st) :: slots[i].st.key
  }

  ghost function LevelledSlot(keys: set<nat>, s: Slot): Slot {
    if s.inUse then s.(st := Levelled(keys, s.st)) else s
  }

  /** Some slots of `before` have been given their level, nothing else differs. */
  ghost predicate Partly(keys: set<nat>, before: seq<Slot>, after: seq<Slot>) {
    && |after| == |before|
    && forall i :: 0 <= i < |before| ==> after[i] == before[i] || after[i] == LevelledSlot(keys, before[i])
  }

  /** The call gives some started stream the level of its key. */
  ghost predicate Meant(keys: set<nat>, slots: seq<Slot>, c: Call) {
    exists i :: 0 <= i < |slots| && slots[i].inUse && !slots[i].st.unstarted
                && c == Call(slots[i].sid, Level(keys, slots[i].st.key))
  }

  ghost predicate CallsMeant(keys: set<nat>, slots: seq<Slot>, calls: seq<Call>) {
    forall c :: c in calls ==> Meant(keys, slots, c)
  }

  ghost predicate OrderOf(slots: seq<Slot>, order: seq<Rank>, upto: nat) {
    && (forall r :: r in order ==>
          (r.slot < upto && r.slot < |slots| && slots[r.slot].inUse
           && Ranked(slots[r.slot].st) && r.key == slots[r.slot].st.key))
    && (forall i :: 0 <= i < |slots| && i < upto && slots[i].inUse && Ranked(slots[i].st) ==>
          Rank(slots[i].st.key, i) in order)
  }

  /** First pass: control streams get level 0 at once, the others are collected for sorting. */
  method Collect(slots0: seq<Slot>, apply: (Sid, nat) -> bool)
    returns (ok: bool, slots: seq<Slot>, order: seq<Rank>, calls: seq<Call>)
    ensures Partly(SlotKeys(slots0), slots0, slots) && CallsMeant(SlotKeys(slots0), slots0, calls)
    ensures ok ==> OrderOf(slots0, order, |slots0|)
    ensures ok ==> forall i :: 0 <= i < |slots0| ==>
                     slots[i] == if Ranked(slots0[i].st) then slots0[i] else LevelledSlot(SlotKeys(slots0), slots0[i])
  {
    ghost var keys := SlotKeys(slots0);
    slots, order, calls := slots0, [], [];
    for i := 0 to |slots0|
      invariant |slots| == |slots0| && OrderOf(slots0, order, i)
      invariant forall j :: 0 <= j < i ==>
                  slots[j] == if Ranked(slots0[j].st) then slots0[j] else LevelledSlot(keys, slots0[j])
      invariant forall j :: i <= j < |slots| ==> slots[j] == slots0[j]
      invariant CallsMeant(keys, slots0, calls)
    {
      var s := slots[i];
      if s.inUse && !s.st.unstarted {
        if s.st.key == 0 {
          var done, s', made := ApplyLevel(s, 0, apply);
          calls := calls + made;
          if !done {
            return false, slots, [], calls;
          }
          slots := slots[i := s'];
        } else {
          order := order + [Rank(s.st.key, i)];
        }
      }
    }
    ok := true;
  }

  lemma OrderKeysOf(slots: seq<Slot>, order: seq<Rank>)
    requires OrderOf(slots, order, |slots|)
    ensures OrderKeys(order) == SlotKeys(slots)
  {
    forall k | k in SlotKeys(slots) ensures k in OrderKeys(order) {
      var i :| 0 <= i < |slots| && slots[i].inUse && Ranked(slots[i].st) && slots[i].st.key == k;
      assert Rank(k, i) in order;
    }
    forall k | k in OrderKeys(order) ensures k in SlotKeys(slots) {
      var i :| 0 <= i < |order| && order[i].key == k;
      assert order[i] in order;
    }
  }

  ghost predicate AllLevelled(slots0: seq<Slot>, slots: seq<Slot>) {
    && |slots| == |slots0|
    && forall i :: 0 <= i < |slots0| ==> slots[i] == LevelledSlot(SlotKeys(slots0), slots0[i])
  }

  /** The state of the second pass before position i of the sorted keys. */
  ghost predicate Assigned(slots0: seq<Slot>, slots: seq<Slot>, order: seq<Rank>, i: nat) {
    && Partly(SlotKeys(slots0), slots0, slots)
    && (forall j :: 0 <= j < |slots| && !(slots0[j].inUse && Ranked(slots0[j].st)) ==>
          slots[j] == LevelledSlot(SlotKeys(slots0), slots0[j]))
    && (forall j :: 0 <= j < i && j < |order| && order[j].slot < |slots| ==>
          slots[order[j].slot] == LevelledSlot(SlotKeys(slots0), slots0[order[j].slot]))
  }

  lemma AllAssigned(slots0: seq<Slot>, slots: seq<Slot>, order: seq<Rank>)
    requires OrderOf(slots0, order, |slots0|) && Assigned(slots0, slots, order, |order|)
    ensures AllLevelled(slots0, slots)
  {
    forall i | 0 <= i < |slots0| ensures slots[i] == LevelledSlot(SlotKeys(slots0), slots0[i]) {
      if slots0[i].inUse && Ranked(slots0[i].st) {
        var j :| 0 <= j < |order| && order[j] == Rank(slots0[i].st.key, i);
      }
    }
  }

  lemma AssignOne(slots0: seq<Slot>, slots: seq<Slot>, order: seq<Rank>, i: nat)
    requires OrderOf(slots0, order, |slots0|) && Assigned(slots0, slots, order, i) && i < |order|
    ensures var keys, k := SlotKeys(slots0), order[i].slot;
            && k < |slots|
            && var s := slots[k].(st := slots[k].st.(level := Level(keys, order[i].key), levelApplied := true));
            && Assigned(slots0, slots[k := s], order, i + 1)
            && Meant(keys, slots0, Call(slots[k].sid, Level(keys, order[i].key)))
  {
    assert order[i] in order;
    assert slots0[order[i].slot].inUse;
  }

  /** The counter kept by the second pass, and the level it yields. */
  lemma RankAt(slots0: seq<Slot>, order: seq<Rank>, i: nat, rank: nat)
    requires Sorted(order) && OrderOf(slots0, order, |slots0|) && i < |order|
    requires rank == if i == 0 then 0 else |Smaller(SlotKeys(slots0), order[i - 1].key)|
    ensures var rank' := if i > 0 && order[i].key != order[i - 1].key then rank + 1 else rank;
            && rank' == |Smaller(SlotKeys(slots0), order[i].key)|
            && Level(SlotKeys(slots0), order[i].key) == 2 + 2 * Min(RANK_MAX, rank')
  {
    OrderKeysOf(slots0, order);
    RankCount(order, i);
    assert order[i] in order;
  }

  method AssignNext(ghost slots0: seq<Slot>, slots: seq<Slot>, order: seq<Rank>, i: nat, level: nat,
                    apply: (Sid, nat) -> bool) returns (ok: bool, slots': seq<Slot>, calls: seq<Call>)
    requires OrderOf(slots0, order, |slots0|) && Assigned(slots0, slots, order, i) && i < |order|
    requires level == Level(SlotKeys(slots0), order[i].key)
    ensures Assigned(slots0, slots', order, if ok then i + 1 else i)
    ensures CallsMeant(SlotKeys(slots0), slots0, calls)
  {
    AssignOne(slots0, slots, order, i);
    var k := order[i].slot;
    var s;
    ok, s, calls := ApplyLevel(slots[k], level, apply);
    slots' := if ok then slots[k := s] else slots;
  }

  /** Second pass, over the sorted keys: one level per distinct key, the last level shared. */
  method AssignLevels(slots0: seq<Slot>, slots1: seq<Slot>, order: seq<Rank>, apply: (Sid, nat) -> bool)
    returns (ok: bool, slots: seq<Slot>, calls: seq<Call>)
    requires Sorted(order) && OrderOf(slots0, order, |slots0|) && Assigned(slots0, slots1, order, 0)
    ensures Partly(SlotKeys(slots0), slots0, slots) && CallsMeant(SlotKeys(slots0), slots0, calls)
    ensures ok ==> AllLevelled(slots0, slots)
  {
    ghost var keys := SlotKeys(slots0);
    slots, calls := slots1, [];
    var rank: nat := 0;
    for i := 0 to |order|
      invariant Assigned(slots0, slots, order, i)
      invariant CallsMeant(keys, slots0, calls)
      invariant rank == if i == 0 then 0 else |Smaller(keys, order[i - 1].key)|
    {
      RankAt(slots0, order, i, rank);
      if i > 0 && order[i].key != order[i - 1].key {
        rank := rank + 1;
      }
      var r := if rank < RANK_MAX then rank else RANK_MAX;
      var done, made;
      done, slots, made := AssignNext(slots0, slots, order, i, 2 + 2 * r, apply);
      calls := calls + made;
      if !done {
        return false, slots, calls;
      }
    }
    AllAssigned(slots0, slots, order);
    ok := true;
  }

  /** Both passes: every started stream gets the level of its key, unless the transport refuses one. */
  method RankSlots(slots0: seq<Slot>, apply: (Sid, nat) -> bool, sort: seq<Rank> -> seq<Rank>)
    returns (ok: bool, slots: seq<Slot>, calls: seq<Call>)
    requires Sorts(sort)
    ensures Partly(SlotKeys(slots0), slots0, slots) && CallsMeant(SlotKeys(slots0), slots0, calls)
    ensures ok ==> AllLevelled(slots0, slots)
  {
    var order, more;
    ok, slots, order, calls := Collect(slots0, apply);
    if !ok {
      return;
    }
    var sorted := if |order| > 1 then sort(order) else order;
    SameEntries(sorted, order);
    ok, slots, more := AssignLevels(slots0, slots, sorted, apply);
    calls := calls + more;
  }

  // ----- from slots to streams -----

  /** The call gives a started stream the level of its key. */
  ghost predicate Deserved(streams: map<Sid, Stream>, c: Call) {
    && c.sid in streams && !streams[c.sid].unstarted
    && c.level == Level(RankedKeys(streams), streams[c.sid].key)
  }

  lemma SlotKeysAgree(slots: seq<Slot>, where: map<Sid, nat>, streams: map<Sid, Stream>)
    requires Placed(slots, where) && Means(slots, where, streams)
    ensures SlotKeys(slots) == RankedKeys(streams)
  {
    forall k | k in SlotKeys(slots) ensures k in RankedKeys(streams) {
      var i :| 0 <= i < |slots| && slots[i].inUse && Ranked(slots[i].st) && slots[i].st.key == k;
      assert streams[slots[i].sid] == slots[where[slots[i].sid]].st;
    }
    forall k | k in RankedKeys(streams) ensures k in SlotKeys(slots) {
      var s :| s in streams && Ranked(streams[s]) && streams[s].key == k;
      assert streams[s] == slots[where[s]].st && slots[where[s]].inUse;
    }
  }

  /** A ranking pass over the slots moves no stream. */
  lemma RankedTable(slots: seq<Slot>, head: nat, where: map<Sid, nat>, free: seq<nat>, slots': seq<Slot>)
    requires TableOk(slots, head, where, free) && Partly(SlotKeys(slots), slots, slots')
    ensures TableOk(slots', head, where, free)
  {
    assert forall i :: 0 <= i < |slots| ==> slots'[i] == slots[i] || (slots[i].inUse && slots'[i].inUse);
    ChainFrame(slots, slots', head, free);
    forall i | 0 <= i < |slots'| ensures slots'[i].inUse == slots[i].inUse && slots'[i].sid == slots[i].sid {
    }
  }

  lemma CallsDeserved(slots: seq<Slot>, where: map<Sid, nat>, streams: map<Sid, Stream>, calls: seq<Call>)
    requires Placed(slots, where) && Means(slots, where, streams) && CallsMeant(SlotKeys(slots), slots, calls)
    ensures forall c :: c in calls ==> Deserved(streams, c)
  {
    SlotKeysAgree(slots, where, streams);
    forall c | c in calls ensures Deserved(streams, c) {
      assert Meant(SlotKeys(slots), slots, c);
      var i :| 0 <= i < |slots| && slots[i].inUse && !slots[i].st.unstarted
               && c == Call(slots[i].sid, Level(SlotKeys(slots), slots[i].st.key));
      assert streams[slots[i].sid] == slots[where[slots[i].sid]].st;
    }
  }
}

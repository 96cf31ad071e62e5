/**
 The recycling pool of the relay fan-out benchmark: exact-size free lists, so a
 freed block is reused by the next allocation of its size class and the pool
 never returns memory until it is destroyed.  The benchmark reports zero real
 allocations after warmup; the high-water theorem says when that is so.
 */
module BlockPool {
  import opened MapTotals

  /** A block's address. */
  type Block = nat

  /** Every block can hold a free-list link, so small sizes share the smallest class. */
  const NODE_SIZE: nat := 8

  function SlotSize(size: nat): nat { if size < NODE_SIZE then NODE_SIZE else size }

  datatype Option<T> = None | Some(value: T)

  /** What the operating system answers: room for a new bucket, and a fresh block. */
  datatype Memory = Memory(bucket: bool, block: Option<Block>)

  datatype Pool = Pool(
    live: map<Block, nat>,           // blocks handed out, with their size class
    cached: map<nat, seq<Block>>,    // one free list per size class met so far
    realAllocs: int,
    realFrees: int,
    liveBytes: int,
    peakBytes: int,
    oom: bool)

  function Empty(): Pool { Pool(map[], map[], 0, 0, 0, 0, false) }

  /** Find the class, or add it. */
  function WithBucket(p: Pool, c: nat): Pool {
    if c in p.cached then p else p.(cached := p.cached[c := []])
  }

  function Account(p: Pool, b: Block, c: nat): Pool {
    p.(live := p.live[b := c], liveBytes := p.liveBytes + c,
    peakBytes := if p.liveBytes + c > p.peakBytes then p.liveBytes + c else p.peakBytes)
  }

  function Alloc(p: Pool, size: nat, m: Memory): (Pool, Option<Block>) {
    var c := SlotSize(size);
    if c !in p.cached && !m.bucket then (p.(oom := true), None)
    else
      var q := WithBucket(p, c);
      if q.cached[c] != [] then
        (Account(q.(cached := q.cached[c := q.cached[c][1..]]), q.cached[c][0], c), Some(q.cached[c][0]))
      else if m.block.None? then (q, None)
      else (Account(q.(realAllocs := q.realAllocs + 1), m.block.value, c), m.block)
  }

  function Free(p: Pool, b: Block, size: nat, bucket: bool): Pool {
    var c := SlotSize(size);
    var q := p.(live := p.live - {b}, liveBytes := p.liveBytes - c);
    if c !in p.cached && !bucket then q.(realFrees := q.realFrees + 1, oom := true)
    else
      var r := WithBucket(q, c);
      r.(cached := r.cached[c := [b] + r.cached[c]])
  }

  // ----- the pool itself -----

  datatype Bucket = Bucket(size: nat, free: seq<Block>, cached: int)

  ghost predicate BucketAt(buckets: seq<Bucket>, i: nat, c: nat) {
    i < |buckets| && buckets[i].size == c
  }

  ghost predicate HasBucket(buckets: seq<Bucket>, c: nat) {
    exists i :: BucketAt(buckets, i, c)
  }

  /** The bucket array holds the free lists, one bucket per class. */
  ghost predicate Holds(buckets: seq<Bucket>, cached: map<nat, seq<Block>>) {
    && (forall i :: 0 <= i < |buckets| ==>
          && buckets[i].size in cached && cached[buckets[i].size] == buckets[i].free
          && buckets[i].cached == |buckets[i].free|)
    && (forall i, j :: 0 <= i < j < |buckets| ==> buckets[i].size != buckets[j].size)
    && (forall c {:trigger HasBucket(buckets, c)} :: c in cached ==> HasBucket(buckets, c))
  }

  lemma AddBucket(buckets: seq<Bucket>, cached: map<nat, seq<Block>>, c: nat)
    requires Holds(buckets, cached) && c !in cached
    ensures Holds(buckets + [Bucket(c, [], 0)], cached[c := []])
  {
    var b', cached' := buckets + [Bucket(c, [], 0)], cached[c := []];
    forall k | k in cached' ensures HasBucket(b', k) {
      if k == c {
        assert BucketAt(b', |buckets|, k);
      } else {
        assert HasBucket(buckets, k);
        var i: nat :| BucketAt(buckets, i, k);
        assert BucketAt(b', i, k);
      }
    }
  }

  lemma SetBucket(buckets: seq<Bucket>, cached: map<nat, seq<Block>>, i: nat, free: seq<Block>)
    requires Holds(buckets, cached) && i < |buckets|
    ensures Holds(buckets[i := Bucket(buckets[i].size, free, |free|)], cached[buckets[i].size := free])
  {
    var b', cached' := buckets[i := Bucket(buckets[i].size, free, |free|)], cached[buckets[i].size := free];
    forall k | k in cached' ensures HasBucket(b', k) {
      assert HasBucket(buckets, k);
      var j: nat :| BucketAt(buckets, j, k);
      assert BucketAt(b', j, k);
    }
  }

  /** Whether the bucket array has room left once a class was looked up in it, and added if it was new. */
  predicate RoomAfter(count: nat, capacity: nat, isNew: bool) {
    if !isNew then count < capacity
    else if count < capacity then count + 1 < capacity
    else count + 1 < if capacity == 0 then 16 else 2 * capacity
  }

  class Allocator {
    var buckets: seq<Bucket>
    var capBuckets: nat
    var realAllocs: int
    var realFrees: int
    var liveBytes: int
    var peakBytes: int
    var oom: bool
    ghost var live: map<Block, nat>
    ghost var cached: map<nat, seq<Block>>

    ghost predicate Valid()
      reads this
    {
      Holds(buckets, cached) && |buckets| <= capBuckets
    }

    ghost function Model(): Pool
      reads this
    {
      Pool(live, cached, realAllocs, realFrees, liveBytes, peakBytes, oom)
    }

    constructor ()
      ensures Valid() && Model() == Empty()
    {
      buckets, capBuckets := [], 0;
      realAllocs, realFrees, liveBytes, peakBytes, oom := 0, 0, 0, 0, false;
      live, cached := map[], map[];
    }

    /** The bucket of a size class, added if new; -1 if the bucket array could not grow. */
    method BucketFor(c: nat, memory: bool) returns (at: int)
      requires Valid()
      modifies this`buckets, this`capBuckets, this`cached, this`oom
      ensures Valid()
      ensures at < 0 <==> c !in old(cached) && !memory && old(|buckets| == capBuckets)
      ensures at >= 0 ==> at < |buckets| && buckets[at].size == c
      ensures at >= 0 ==>
                (|buckets| < capBuckets <==> RoomAfter(old(|buckets|), old(capBuckets), c !in old(cached)))
      ensures Model() == if at < 0 then old(Model()).(oom := true) else WithBucket(old(Model()), c)
    {
      for i := 0 to |buckets|
        invariant forall j :: 0 <= j < i ==> buckets[j].size != c
      {
        if buckets[i].size == c {
          return i;
        }
      }
      assert c in cached ==> HasBucket(buckets, c);
      if |buckets| == capBuckets {
        if !memory {
          oom := true;
          return -1;
        }
        capBuckets := if capBuckets == 0 then 16 else 2 * capBuckets;
      }
      AddBucket(buckets, cached, c);
      buckets := buckets + [Bucket(c, [], 0)];
      cached := cached[c := []];
      return |buckets| - 1;
    }

    method Allocate(size: nat, m: Memory) returns (b: Option<Block>)
      requires Valid()
      modifies this
      ensures Valid()
      ensures (Model(), b) == Alloc(old(Model()), size, m.(bucket := m.bucket || old(|buckets| < capBuckets)))
      ensures b.Some? ==>
                (|buckets| < capBuckets <==> RoomAfter(old(|buckets|), old(capBuckets), SlotSize(size) !in old(cached)))
    {
      var c := SlotSize(size);
      var at := BucketFor(c, m.bucket);
      if at < 0 {
        return None;
      }
      if buckets[at].free != [] {
        b := Some(buckets[at].free[0]);
        SetBucket(buckets, cached, at, buckets[at].free[1..]);
        cached := cached[c := buckets[at].free[1..]];
        buckets := buckets[at := Bucket(c, buckets[at].free[1..], buckets[at].cached - 1)];
      } else {
        if m.block.None? {
          return None;
        }
        b := m.block;
        realAllocs := realAllocs + 1;
      }
      live := live[b.value := c];
      liveBytes := liveBytes + c;
      if liveBytes > peakBytes {
        peakBytes := liveBytes;
      }
    }

    method Release(b: Option<Block>, size: nat, bucket: bool)
      requires Valid()
      modifies this
      ensures Valid()
      ensures Model() == if b.None? then old(Model())
                         else Free(old(Model()), b.value, size, bucket || old(|buckets| < capBuckets))
    {
      if b.None? {
        return;
      }
      var c := SlotSize(size);
      var at := BucketFor(c, bucket);
      liveBytes := liveBytes - c;
      live := live - {b.value};
      if at < 0 {
        realFrees := realFrees + 1;
        return;
      }
      SetBucket(buckets, cached, at, [b.value] + buckets[at].free);
      cached := cached[c := [b.value] + buckets[at].free];
      buckets := buckets[at := Bucket(c, [b.value] + buckets[at].free, buckets[at].cached + 1)];
    }

    /** Allocate the new block, copy, then release the old one; the two are live together meanwhile. `again` says
        whether the bucket array can grow for the release, if it must. */
    method Reallocate(b: Option<Block>, oldSize: nat, newSize: nat, m: Memory, again: bool) returns (r: Option<Block>)
      requires Valid()
      modifies this
      ensures Valid()
      ensures var room := old(|buckets| < capBuckets);
              var (p, nb) := Alloc(old(Model()), newSize, m.(bucket := m.bucket || room));
              var later := again || RoomAfter(old(|buckets|), old(capBuckets), SlotSize(newSize) !in old(cached));
              if b.None? then (Model(), r) == (p, nb)
              else if newSize == 0 then (Model(), r) == (Free(old(Model()), b.value, oldSize, again || room), None)
              else (Model(), r) == (if nb.None? then p else Free(p, b.value, oldSize, later), nb)
    {
      if b.None? {
        r := Allocate(newSize, m);
        return;
      }
      if newSize == 0 {
        Release(b, oldSize, again);
        return None;
      }
      r := Allocate(newSize, m);
      if r.Some? {
        Release(b, oldSize, again);
      }
    }

    method FreeList(list: seq<Block>)
      modifies this`realFrees
      ensures realFrees == old(realFrees) + |list|
    {
      var n := list;
      while n != []
        invariant realFrees == old(realFrees) + (|list| - |n|)
        decreases n
      {
        realFrees := realFrees + 1;
        n := n[1..];
      }
    }

    /** Give every cached block back. */
    method Destroy() returns (freed: nat)
      requires Valid()
      modifies this
      ensures Valid() && freed == Total(old(cached), ListLength)
      ensures Model() == old(Model()).(cached := map[], realFrees := old(realFrees) + freed)
    {
      hide Total;
      ghost var rest := cached;
      freed := 0;
      for i := 0 to |buckets|
        invariant Model() == old(Model()).(realFrees := old(realFrees) + freed)
        invariant unchanged(this`buckets) && unchanged(this`capBuckets)
        invariant freed + Total(rest, ListLength) == Total(cached, ListLength)
        invariant forall c :: c in rest <==> c in cached && forall j :: 0 <= j < i ==> buckets[j].size != c
        invariant forall c :: c in rest ==> rest[c] == cached[c]
      {
        TotalRemove(rest, buckets[i].size, ListLength);
        FreeList(buckets[i].free);
        freed := freed + |buckets[i].free|;
        rest := rest - {buckets[i].size};
      }
      forall c | c in cached
        ensures c !in rest
      {
        assert HasBucket(buckets, c);
      }
      NothingLeft(rest);
      buckets, capBuckets, cached := [], 0, map[];
    }
  }

  lemma NothingLeft(cached: map<nat, seq<Block>>)
    requires forall c :: c !in cached
    ensures cached == map[] && Total(cached, ListLength) == 0
  {
    assert cached == map[];
  }

  function ListLength(l: seq<Block>): nat { |l| }
}

/**
 Runs of the pool: a phase that raises no class's peak performs no real
 allocation and no real free.
 */
module PoolRuns {
  import opened MapTotals
  import opened BlockPool

  datatype Op = AllocOp(size: nat, m: Memory) | FreeOp(block: Block, size: nat, bucket: bool)

  /** The pool, with the real allocations and the largest number of live blocks of each class so far. */
  datatype State = State(p: Pool, made: map<nat, nat>, peak: map<nat, nat>)

  function CountOf(m: map<nat, nat>, c: nat): nat { if c in m then m[c] else 0 }
  function FreeOf(p: Pool, c: nat): seq<Block> { if c in p.cached then p.cached[c] else [] }
  function LiveOf(p: Pool, c: nat): set<Block> { set b | b in p.live && p.live[b] == c }

  function Step(s: State, op: Op): State {
    match op
    case AllocOp(size, m) =>
      var c := SlotSize(size);
      var (p, b) := Alloc(s.p, size, m);
      if b.None? then s.(p := p)
      else
        State(p,
              if p.realAllocs != s.p.realAllocs then s.made[c := CountOf(s.made, c) + 1] else s.made,
              if |LiveOf(p, c)| > CountOf(s.peak, c) then s.peak[c := |LiveOf(p, c)|] else s.peak)
    case FreeOp(b, size, bucket) => s.(p := Free(s.p, b, size, bucket))
  }

  /** The system hands out blocks not in use; callers free what they hold, with the size they asked for. */
  ghost predicate Legal(s: State, op: Op) {
    match op
    case AllocOp(_, m) =>
      m.block.Some? ==> m.block.value !in s.p.live && forall c :: m.block.value !in FreeOf(s.p, c)
    case FreeOp(b, size, _) => b in s.p.live && s.p.live[b] == SlotSize(size)
  }

  ghost predicate Run(states: seq<State>, ops: seq<Op>) {
    && |states| == |ops| + 1
    && states[0] == State(Empty(), map[], map[])
    && forall i :: 0 <= i < |ops| ==> Legal(states[i], ops[i]) && states[i + 1] == Step(states[i], ops[i])
  }

  /** A block is live or on one free list, once. */
  ghost predicate Apart(p: Pool) {
    && (forall b :: b in p.live ==> p.live[b] in p.cached)
    && (forall c, i :: 0 <= i < |FreeOf(p, c)| ==> FreeOf(p, c)[i] !in p.live)
    && (forall c, i, j :: 0 <= i < j < |FreeOf(p, c)| ==> FreeOf(p, c)[i] != FreeOf(p, c)[j])
    && (forall c, c', b :: c != c' && b in FreeOf(p, c) ==> b !in FreeOf(p, c'))
  }

  /** Real allocations of a class are its live and cached blocks, and its peak of live blocks. */
  ghost predicate HighWater(s: State, c: nat) {
    && CountOf(s.made, c) == |LiveOf(s.p, c)| + |FreeOf(s.p, c)|
    && CountOf(s.peak, c) == CountOf(s.made, c)
  }

  function Id(n: nat): nat { n }

  ghost predicate Inv(s: State) {
    && Apart(s.p)
    && (forall c :: HighWater(s, c))
    && s.p.realAllocs == Total(s.made, Id)
    && s.p.realFrees == 0
  }

  /** A block leaves its free list, or comes fresh from the system, and becomes live. */
  lemma ApartAlloc(p: Pool, p': Pool, b: Block, c: nat)
    requires Apart(p) && b !in p.live && p'.live == p.live[b := c] && c in p'.cached && p.cached.Keys <= p'.cached.Keys
    requires forall k :: k != c ==> FreeOf(p', k) == FreeOf(p, k)
    requires FreeOf(p, c) != [] ==> b == FreeOf(p, c)[0] && FreeOf(p', c) == FreeOf(p, c)[1..]
    requires FreeOf(p, c) == [] ==> FreeOf(p', c) == [] && forall k :: b !in FreeOf(p, k)
    ensures Apart(p')
  {
    forall k, i | 0 <= i < |FreeOf(p', k)| ensures FreeOf(p', k)[i] !in p'.live {
      if k == c {
        assert FreeOf(p', k)[i] == FreeOf(p, c)[i + 1];
      } else {
        assert FreeOf(p', k)[i] in FreeOf(p, k);
        assert FreeOf(p, c) != [] ==> b in FreeOf(p, c);
      }
    }
    forall k, i, j | 0 <= i < j < |FreeOf(p', k)| ensures FreeOf(p', k)[i] != FreeOf(p', k)[j] {
      if k == c {
        assert FreeOf(p', k)[i] == FreeOf(p, c)[i + 1] && FreeOf(p', k)[j] == FreeOf(p, c)[j + 1];
      }
    }
    forall k, k', x | k != k' && x in FreeOf(p', k) ensures x !in FreeOf(p', k') {
      assert x in FreeOf(p, k);
    }
  }

  lemma ApartFree(p: Pool, p': Pool, b: Block, c: nat)
    requires Apart(p) && b in p.live && p'.live == p.live - {b} && p.cached.Keys <= p'.cached.Keys
    requires forall k :: FreeOf(p', k) == if k == c then [b] + FreeOf(p, k) else FreeOf(p, k)
    ensures Apart(p')
  {
    forall k ensures b !in FreeOf(p, k) {
    }
    forall k, i | 0 <= i < |FreeOf(p', k)| ensures FreeOf(p', k)[i] !in p'.live {
      if k == c && i > 0 {
        assert FreeOf(p', k)[i] == FreeOf(p, c)[i - 1];
      }
    }
    forall k, i, j | 0 <= i < j < |FreeOf(p', k)| ensures FreeOf(p', k)[i] != FreeOf(p', k)[j] {
      if k == c {
        assert FreeOf(p', k)[j] == FreeOf(p, c)[j - 1];
        assert i > 0 ==> FreeOf(p', k)[i] == FreeOf(p, c)[i - 1];
      }
    }
    forall k, k', x | k != k' && x in FreeOf(p', k) ensures x !in FreeOf(p', k') {
      assert x == b || x in FreeOf(p, k);
    }
  }

  lemma AllocKeeps(s: State, op: Op)
    requires Inv(s) && op.AllocOp? && Legal(s, op)
    ensures Apart(Step(s, op).p) && Step(s, op).p.realFrees == 0
  {
    var c := SlotSize(op.size);
    var (p, b) := Alloc(s.p, op.size, op.m);
    if b.Some? {
      assert FreeOf(s.p, c) != [] ==> FreeOf(s.p, c)[0] !in s.p.live;
      ApartAlloc(s.p, p, b.value, c);
    } else {
      assert forall k :: FreeOf(p, k) == FreeOf(s.p, k);
    }
  }

  /** What an allocation does to the blocks of class k. */
  lemma AllocCounts(p: Pool, size: nat, m: Memory, k: nat)
    requires Apart(p) && (m.block.Some? ==> m.block.value !in p.live)
    ensures var (p', b) := Alloc(p, size, m);
            var c := SlotSize(size);
            if b.None? || k != c then
              && |LiveOf(p', k)| == |LiveOf(p, k)| && |FreeOf(p', k)| == |FreeOf(p, k)|
              && (b.None? ==> p'.realAllocs == p.realAllocs)
            else
              && |LiveOf(p', k)| == |LiveOf(p, k)| + 1
              && |FreeOf(p', k)| == (if FreeOf(p, k) == [] then 0 else |FreeOf(p, k)| - 1)
              && p'.realAllocs == p.realAllocs + (if FreeOf(p, k) == [] then 1 else 0)
  {
    var (p', b) := Alloc(p, size, m);
    var c := SlotSize(size);
    assert FreeOf(p, c) != [] ==> FreeOf(p, c)[0] !in p.live;
    hide Apart, LiveOf;
    if b.Some? {
      LiveAdd(p, p', b.value, c, k);
    } else {
      LiveSame(p, p', k);
    }
  }

  lemma LiveAdd(p: Pool, p': Pool, b: Block, c: nat, k: nat)
    requires b !in p.live && p'.live == p.live[b := c]
    ensures |LiveOf(p', k)| == |LiveOf(p, k)| + if k == c then 1 else 0
  {
    assert LiveOf(p', k) == if k == c then LiveOf(p, k) + {b} else LiveOf(p, k);
  }

  lemma LiveSame(p: Pool, p': Pool, k: nat)
    requires p'.live == p.live
    ensures LiveOf(p', k) == LiveOf(p, k)
  {
  }

  lemma AllocHighWater(s: State, op: Op, k: nat)
    requires Inv(s) && op.AllocOp? && Legal(s, op)
    ensures HighWater(Step(s, op), k)
  {
    hide LiveOf, FreeOf, Alloc, Apart;
    assert HighWater(s, k);
    AllocCounts(s.p, op.size, op.m, k);
  }

  lemma AllocTotals(s: State, op: Op)
    requires Inv(s) && op.AllocOp?
    ensures Step(s, op).p.realAllocs == Total(Step(s, op).made, Id)
  {
    var c := SlotSize(op.size);
    TotalSet<nat>(s.made, c, CountOf(s.made, c) + 1, Id);
    if c in s.made {
      TotalRemove<nat>(s.made, c, Id);
    } else {
      assert s.made - {c} == s.made;
    }
  }

  lemma FreeKeeps(s: State, op: Op)
    requires Inv(s) && op.FreeOp? && Legal(s, op)
    ensures Inv(Step(s, op))
  {
    var s' := Step(s, op);
    var c := SlotSize(op.size);
    assert c in s.p.cached;
    ApartFree(s.p, s'.p, op.block, c);
    forall k ensures HighWater(s', k) {
      assert HighWater(s, k);
      assert LiveOf(s'.p, k) == if k == c then LiveOf(s.p, k) - {op.block} else LiveOf(s.p, k);
      assert k == c ==> op.block in LiveOf(s.p, k);
    }
  }

  lemma {:induction false} EveryState(states: seq<State>, ops: seq<Op>, i: nat)
    requires Run(states, ops) && i < |states|
    ensures Inv(states[i])
  {
    if i > 0 {
      EveryState(states, ops, i - 1);
      var s, op := states[i - 1], ops[i - 1];
      assert Legal(s, op) && states[i] == Step(s, op);
      if op.AllocOp? {
        AllocKeeps(s, op);
        AllocTotals(s, op);
        forall c ensures HighWater(states[i], c) {
          AllocHighWater(s, op, c);
        }
      } else {
        FreeKeeps(s, op);
      }
    }
  }

  /** After warmup, a phase that pushes no class above its warmup peak allocates and frees nothing for real. */
  lemma ZeroAfterWarmup(states: seq<State>, ops: seq<Op>, warm: nat, end: nat)
    requires Run(states, ops) && warm <= end < |states|
    requires forall c :: CountOf(states[end].peak, c) <= CountOf(states[warm].peak, c)
    ensures states[end].p.realAllocs == states[warm].p.realAllocs
    ensures states[end].p.realFrees == states[warm].p.realFrees == 0
  {
    EveryState(states, ops, warm);
    EveryState(states, ops, end);
    PeaksGrow(states, ops, warm, end);
    forall c ensures CountOf(states[end].made, c) == CountOf(states[warm].made, c) {
      assert HighWater(states[warm], c) && HighWater(states[end], c);
    }
    forall c | c in states[end].made ensures c in states[warm].made {
      assert CountOf(states[end].made, c) == CountOf(states[warm].made, c);
    }
    forall c | c in states[warm].made ensures states[warm].made[c] == states[end].made[c] {
      assert CountOf(states[end].made, c) == CountOf(states[warm].made, c);
    }
    TotalSame<nat>(states[warm].made, states[end].made, Id);
  }

  /** Peaks never fall, and a class once allocated stays known. */
  lemma {:induction false} PeaksGrow(states: seq<State>, ops: seq<Op>, i: nat, j: nat)
    requires Run(states, ops) && i <= j < |states|
    ensures forall c :: CountOf(states[i].peak, c) <= CountOf(states[j].peak, c)
    ensures states[i].made.Keys <= states[j].made.Keys
    ensures forall c :: c in states[j].made && c !in states[i].made ==> CountOf(states[j].made, c) > 0
    decreases j
  {
    if i < j {
      PeaksGrow(states, ops, i, j - 1);
      assert states[j] == Step(states[j - 1], ops[j - 1]);
    }
  }
}

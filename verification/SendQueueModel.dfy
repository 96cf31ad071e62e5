/**
 The pull-send queue as a value: what every operation does to the streams, the
 offset records and the aggregate counters, with the slot table and the probe
 index abstracted to a map from stream id to stream.
 The class in SendQueue.dfy is proved to refine these functions.
 */
module SendQueueModel {
  import opened ProbeTable

  type Byte = bv8

  datatype RawChunk = Chunk(data: seq<Byte>, offset: nat, fin: bool)

  /** One queued write: `offset` bytes of `data` have been provided, and FIN may follow the last one. */
  type Chunk = c: RawChunk | c.offset <= |c.data| witness Chunk([], 0, false)

  datatype Stream = Stream(
    chunks: seq<Chunk>,
    remaining: int,
    key: nat,
    level: nat,
    levelApplied: bool,
    unstarted: bool)

  const FRESH: Stream := Stream([], 0, 0, 0, false, false)

  datatype Queue = Queue(
    streams: map<Sid, Stream>,   // streams that hold a slot
    provided: map<Sid, nat>,     // offset records; they outlive the slot
    queued: nat,
    finMarkers: int,
    highWater: int,
    wouldBlock: nat,
    dirty: bool,
    cap: nat)

  function Empty(cap: nat): Queue {
    Queue(map[], map[], 0, 0, 0, 0, false, cap)
  }

  // ----- chunks -----

  function Left(c: Chunk): nat { |c.data| - c.offset }

  /** The bytes still to be provided, in order. */
  function Pending(chunks: seq<Chunk>): seq<Byte> {
    if chunks == [] then [] else chunks[0].data[chunks[0].offset..] + Pending(chunks[1..])
  }

  /** Zero-length chunks: standalone FIN markers, one budget unit each. */
  function Markers(chunks: seq<Chunk>): nat {
    if chunks == [] then 0 else (if chunks[0].data == [] then 1 else 0) + Markers(chunks[1..])
  }

  function Bytes(chunks: seq<Chunk>): nat { |Pending(chunks)| }

  predicate Closed(chunks: seq<Chunk>) { chunks != [] && chunks[|chunks| - 1].fin }

  /** A stored chunk still has a byte to provide, unless it never had one. */
  ghost predicate Live(c: Chunk) { Left(c) > 0 || c.data == [] }

  /** A standalone FIN marker can only be the first chunk: a FIN behind bytes rides on their chunk. */
  ghost predicate ChunksOk(chunks: seq<Chunk>) {
    forall i :: 0 <= i < |chunks| ==> Live(chunks[i]) && (i > 0 ==> chunks[i].data != [])
  }

  /** FIN is set on the last chunk at most. */
  ghost predicate FinLast(chunks: seq<Chunk>) {
    forall i :: 0 <= i < |chunks| - 1 ==> !chunks[i].fin
  }

  /** The unsigned subtraction that stops at zero. */
  function Sat(a: nat, b: int): nat { if a >= b then a - b else 0 }

  function Min(a: int, b: int): int { if a < b then a else b }
  function Max(a: int, b: int): int { if a < b then b else a }

  datatype Drained = Drained(rest: seq<Chunk>, out: seq<Byte>, fin: bool, markers: nat)

  /** Provide `need` bytes from the front, popping each chunk as it drains and a trailing fully consumed one. */
  function Drain(chunks: seq<Chunk>, need: nat): Drained {
    if chunks == [] then Drained([], [], false, 0)
    else
      var c := chunks[0];
      if need < Left(c) then
        Drained([Chunk(c.data, c.offset + need, c.fin)] + chunks[1..], c.data[c.offset..c.offset + need], false, 0)
      else
        var d := Drain(chunks[1..], need - Left(c));
        Drained(d.rest, c.data[c.offset..] + d.out, c.fin || d.fin, (if c.data == [] then 1 else 0) + d.markers)
  }

  /** The chunks that carry the first `left` bytes, the last one shortened, with no FIN. */
  function Keep(chunks: seq<Chunk>, left: nat): seq<Chunk> {
    if chunks == [] || left == 0 then []
    else
      var c := chunks[0];
      if Left(c) > left then [Chunk(c.data[..c.offset + left], c.offset, false)]
      else [Chunk(c.data, c.offset, false)] + Keep(chunks[1..], left - Left(c))
  }

  // ----- operations -----

  /** Which of the allocations an operation may attempt succeed. */
  datatype Alloc = Alloc(table: bool, chunk: bool, copy: bool, record: bool)

  datatype PushResult = Accepted | CapFull | NoMemory

  predicate BudgetFull(q: Queue) {
    q.queued >= q.cap || q.finMarkers >= q.cap - q.queued
  }

  predicate HasData(q: Queue, sid: Sid) {
    sid in q.streams && q.streams[sid].chunks != []
  }

  function PendingOf(q: Queue, sid: Sid): seq<Byte> {
    if sid in q.streams then Pending(q.streams[sid].chunks) else []
  }

  predicate ClosedOf(q: Queue, sid: Sid) {
    sid in q.streams && Closed(q.streams[sid].chunks)
  }

  function Clear(q: Queue, sid: Sid): Queue
    requires sid in q.streams
  {
    q.(streams := q.streams - {sid},
    queued := Sat(q.queued, Bytes(q.streams[sid].chunks)),
    finMarkers := q.finMarkers - Markers(q.streams[sid].chunks))
  }

  function Create(q: Queue, sid: Sid): Queue {
    q.(streams := q.streams[sid := FRESH], dirty := true)
  }

  function FindOrCreate(q: Queue, sid: Sid): Queue {
    if sid in q.streams then q else Create(q, sid)
  }

  function Append(q: Queue, sid: Sid, c: Chunk): Queue
    requires sid in q.streams
  {
    var s := q.streams[sid];
    q.(streams := q.streams[sid :=
      s.(chunks := s.chunks + [c], remaining := s.remaining + |c.data|, unstarted := false)],
    dirty := q.dirty || s.unstarted)
  }

  function MarkFin(chunks: seq<Chunk>): seq<Chunk>
    requires chunks != []
  {
    var c := chunks[|chunks| - 1];
    chunks[|chunks| - 1 := Chunk(c.data, c.offset, true)]
  }

  function PushBareFin(q: Queue, sid: Sid, memory: bool): (Queue, PushResult)
    requires sid in q.streams
  {
    var s := q.streams[sid];
    if s.chunks != [] then (q.(streams := q.streams[sid := s.(chunks := MarkFin(s.chunks))]), Accepted)
    else if !memory then (q, NoMemory)
    else (Append(q.(finMarkers := q.finMarkers + 1), sid, Chunk([], 0, true)), Accepted)
  }

  /** A push of at least one byte to a stream that holds a slot: `memory` for the chunk, `record` for its record. */
  function PushBytes(q: Queue, sid: Sid, data: seq<Byte>, fin: bool, memory: bool, record: bool): (Queue, PushResult)
    requires sid in q.streams
  {
    if !memory || (sid !in q.provided && !record) then
      (if q.streams[sid].chunks == [] then Clear(q, sid) else q, NoMemory)
    else
      var q1 := q.(provided := if sid in q.provided then q.provided else q.provided[sid := 0],
                queued := q.queued + |data|,
                highWater := Max(q.highWater, q.queued + |data|));
      (Append(q1, sid, Chunk(data, 0, fin)), Accepted)
  }

  /** A push that needs no budget, or has it. */
  function PushAdmitted(q: Queue, sid: Sid, data: seq<Byte>, fin: bool, copied: bool, alloc: Alloc): (Queue, PushResult)
  {
    if sid !in q.streams && !alloc.table then (q, NoMemory)
    else if data == [] then PushBareFin(FindOrCreate(q, sid), sid, alloc.chunk)
    else PushBytes(FindOrCreate(q, sid), sid, data, fin, alloc.chunk && (!copied || alloc.copy), alloc.record)
  }

  /** push_copy and push_rcbuf: they differ only in whether the bytes are copied. */
  function Push(q: Queue, sid: Sid, data: seq<Byte>, fin: bool, copied: bool, alloc: Alloc): (Queue, PushResult) {
    if data == [] && !fin then (q, Accepted)
    else if (data != [] || !HasData(q, sid)) && BudgetFull(q) then
      (q.(wouldBlock := q.wouldBlock + 1), CapFull)
    else PushAdmitted(q, sid, data, fin, copied, alloc)
  }

  /** What one provide callback is told: bytes to copy, whether FIN goes with them, whether more stays queued. */
  datatype Provide = Nothing | Provide(nbytes: nat, isFin: bool, stillActive: bool)

  function Plan(q: Queue, sid: Sid, max: nat): Provide {
    if !HasData(q, sid) then Nothing
    else
      var s := q.streams[sid];
      var n := if s.remaining < 0 then 0 else Min(s.remaining, max);
      Provide(n, n == s.remaining && Closed(s.chunks), n < s.remaining)
  }

  function Forget(q: Queue, sid: Sid): Queue {
    q.(provided := q.provided - {sid})
  }

  /** The bytes are handed over; the stream keeps its slot for now. */
  function HandOver(q: Queue, sid: Sid, d: Drained): Queue
    requires sid in q.streams
  {
    var s := q.streams[sid];
    q.(streams := q.streams[sid := s.(chunks := d.rest, remaining := s.remaining - |d.out|)],
    queued := Sat(q.queued, |d.out|),
    finMarkers := q.finMarkers - d.markers,
    provided := if sid in q.provided then q.provided[sid := q.provided[sid] + |d.out|] else q.provided)
  }

  function CommitDrained(q: Queue, sid: Sid, d: Drained): Queue
    requires sid in q.streams
  {
    var q1 := HandOver(q, sid, d);
    var q2 := if d.rest == [] then Clear(q1, sid) else q1;
    if d.fin then Forget(q2, sid) else q2
  }

  /** Commit, and the bytes it copies out. */
  function Commit(q: Queue, sid: Sid, n: nat): (Queue, seq<Byte>) {
    if sid !in q.streams then (q, [])
    else
      var d := Drain(q.streams[sid].chunks, n);
      (CommitDrained(q, sid, d), d.out)
  }

  function Drop(q: Queue, sid: Sid): Queue {
    Forget(if sid in q.streams then Clear(q, sid) else q, sid)
  }

  function ProvidedOf(q: Queue, sid: Sid): nat {
    if sid in q.provided then q.provided[sid] else 0
  }

  function KeepOnly(q: Queue, sid: Sid, keep: nat): Queue
    requires sid in q.streams
  {
    var s := q.streams[sid];
    var kept := Keep(s.chunks, keep);
    q.(streams := q.streams[sid := s.(chunks := kept, remaining := s.remaining - (Bytes(s.chunks) - Bytes(kept)))],
    queued := Sat(q.queued, Bytes(s.chunks) - Bytes(kept)),
    finMarkers := q.finMarkers - (Markers(s.chunks) - Markers(kept)))
  }

  /** Truncate, and the number of bytes still queued. */
  function Truncate(q: Queue, sid: Sid, reliable: nat): (Queue, int) {
    if sid !in q.streams then (Forget(q, sid), 0)
    else if reliable <= ProvidedOf(q, sid) then (Drop(q, sid), 0)
    else
      var q1 := KeepOnly(q, sid, reliable - ProvidedOf(q, sid));
      if q1.streams[sid].remaining == 0 then (Drop(q1, sid), 0)
      else (q1, q1.streams[sid].remaining)
  }

  function Opened(q: Queue, sid: Sid, alloc: Alloc): (Queue, bool) {
    if sid !in q.streams && !alloc.table then (q, false)
    else
      var q1 := FindOrCreate(q, sid);
      var s := q1.streams[sid];
      (if s.chunks == [] then q1.(streams := q1.streams[sid := s.(unstarted := true)]) else q1, true)
  }

  function SetKey(q: Queue, sid: Sid, key: nat, alloc: Alloc): (Queue, bool) {
    if sid !in q.streams && !alloc.table then (q, false)
    else
      var q1 := FindOrCreate(q, sid);
      var s := q1.streams[sid];
      (if s.key != key then q1.(streams := q1.streams[sid := s.(key := key)], dirty := true) else q1, true)
  }

  // ----- facts about chunk lists -----

  lemma ConcatAssoc(a: seq<Byte>, b: seq<Byte>, c: seq<Byte>)
    ensures a + (b + c) == (a + b) + c
  {
  }

  lemma {:induction false} PendingAppend(a: seq<Chunk>, b: seq<Chunk>)
    ensures Pending(a + b) == Pending(a) + Pending(b)
  {
    if a == [] {
      assert a + b == b;
    } else {
      PendingAppend(a[1..], b);
      assert (a + b)[0] == a[0] && (a + b)[1..] == a[1..] + b;
      ConcatAssoc(a[0].data[a[0].offset..], Pending(a[1..]), Pending(b));
    }
  }

  lemma {:induction false} MarkersAppend(a: seq<Chunk>, b: seq<Chunk>)
    ensures Markers(a + b) == Markers(a) + Markers(b)
  {
    if a == [] {
      assert a + b == b;
    } else {
      MarkersAppend(a[1..], b);
      assert (a + b)[0] == a[0] && (a + b)[1..] == a[1..] + b;
    }
  }

  /** Marking the last chunk FIN changes no byte. */
  lemma PendingMarkFin(chunks: seq<Chunk>)
    requires chunks != []
    ensures Pending(MarkFin(chunks)) == Pending(chunks) && Markers(MarkFin(chunks)) == Markers(chunks)
    ensures ChunksOk(chunks) ==> ChunksOk(MarkFin(chunks))
    ensures FinLast(chunks) ==> FinLast(MarkFin(chunks))
  {
    var k := |chunks| - 1;
    var c := MarkFin(chunks)[k];
    PendingAppend(chunks[..k], [chunks[k]]);
    PendingAppend(chunks[..k], [c]);
    MarkersAppend(chunks[..k], [chunks[k]]);
    MarkersAppend(chunks[..k], [c]);
    assert chunks == chunks[..k] + [chunks[k]];
    assert MarkFin(chunks) == chunks[..k] + [c];
  }

  /** Draining hands out the front of the pending bytes, keeps the rest, and loses no marker. */
  lemma {:induction false} DrainBytes(chunks: seq<Chunk>, need: nat)
    ensures var d := Drain(chunks, need);
            && d.out + Pending(d.rest) == Pending(chunks)
            && |d.out| == Min(need, Bytes(chunks))
            && Markers(d.rest) + d.markers == Markers(chunks)
  {
    if chunks != [] {
      var c := chunks[0];
      var d := Drain(chunks, need);
      if need < Left(c) {
        assert d.rest[1..] == chunks[1..];
        assert c.data[c.offset..] == c.data[c.offset..c.offset + need] + c.data[c.offset + need..];
      } else {
        DrainBytes(chunks[1..], need - Left(c));
      }
    }
  }

  /** A drained list is empty exactly when every byte was asked for. */
  lemma {:induction false} DrainEmpties(chunks: seq<Chunk>, need: nat)
    requires ChunksOk(chunks)
    ensures ChunksOk(Drain(chunks, need).rest)
    ensures Drain(chunks, need).rest == [] <==> need >= Bytes(chunks)
  {
    if chunks != [] && need >= Left(chunks[0]) {
      DrainEmpties(chunks[1..], need - Left(chunks[0]));
    }
  }

  /** With FIN only on the tail, it is handed over exactly when everything is, and stays on the tail until then. */
  lemma {:induction false} DrainFin(chunks: seq<Chunk>, need: nat)
    requires ChunksOk(chunks) && FinLast(chunks)
    ensures FinLast(Drain(chunks, need).rest)
    ensures Drain(chunks, need).fin == (need >= Bytes(chunks) && Closed(chunks))
    ensures need < Bytes(chunks) ==> Closed(Drain(chunks, need).rest) == Closed(chunks)
  {
    if chunks != [] && need >= Left(chunks[0]) {
      var rest := chunks[1..];
      DrainFin(rest, need - Left(chunks[0]));
      assert rest != [] ==> Closed(rest) == Closed(chunks);
    }
  }

  lemma PrefixOfConcat(a: seq<Byte>, b: seq<Byte>, n: nat)
    requires n <= |b|
    ensures a + b[..n] == (a + b)[..|a| + n]
  {
  }

  /** Keeping `left` bytes keeps exactly that prefix. */
  lemma {:induction false} KeepBytes(chunks: seq<Chunk>, left: nat)
    ensures Pending(Keep(chunks, left)) == Pending(chunks)[..Min(left, Bytes(chunks))]
  {
    if chunks != [] && left > 0 {
      var c, rest := chunks[0], chunks[1..];
      var k := Keep(chunks, left);
      if Left(c) > left {
        assert c.data[..c.offset + left][c.offset..] == c.data[c.offset..][..left];
        assert Pending(k) == k[0].data[k[0].offset..];
      } else {
        KeepBytes(rest, left - Left(c));
        assert k[0].data == c.data && k[0].offset == c.offset && k[1..] == Keep(rest, left - Left(c));
        PrefixOfConcat(c.data[c.offset..], Pending(rest), Min(left - Left(c), Bytes(rest)));
      }
    }
  }

  /** What is kept carries no FIN. */
  lemma {:induction false} KeepShape(chunks: seq<Chunk>, left: nat)
    requires ChunksOk(chunks)
    ensures var k := Keep(chunks, left);
            ChunksOk(k) && FinLast(k) && !Closed(k) && Markers(k) <= Markers(chunks)
  {
    KeepPlain(chunks, left);
    KeepMarkers(chunks, left);
  }

  lemma {:induction false} KeepPlain(chunks: seq<Chunk>, left: nat)
    requires ChunksOk(chunks)
    ensures ChunksOk(Keep(chunks, left)) && forall c :: c in Keep(chunks, left) ==> !c.fin
  {
    if chunks != [] && left > 0 && Left(chunks[0]) <= left {
      KeepPlain(chunks[1..], left - Left(chunks[0]));
    }
  }

  lemma {:induction false} KeepMarkers(chunks: seq<Chunk>, left: nat)
    ensures Markers(Keep(chunks, left)) <= Markers(chunks)
  {
    if chunks != [] && left > 0 {
      var c := chunks[0];
      if Left(c) <= left {
        KeepMarkers(chunks[1..], left - Left(c));
        assert Keep(chunks, left)[1..] == Keep(chunks[1..], left - Left(c));
      }
    }
  }
}

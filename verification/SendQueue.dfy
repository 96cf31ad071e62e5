/**
 The adapter-owned outbound queue for pull sending, with its slot table, free
 list, probe index, offset records and counters updated in place.  `Model()`
 is the queue's meaning; every operation is proved to act on it exactly as the
 corresponding function of SendQueueModel says.
 */
module SendQueues {
  import opened ProbeTable
  import opened SendQueueModel
  import opened SlotTable
  import opened StreamTables
  import opened Ranking

  /** Pops drained chunks off the front while bytes are needed, and a trailing fully consumed one. */
  method DrainChunks(chunks0: seq<Chunk>, nbytes: nat) returns (d: Drained)
    ensures d == Drain(chunks0, nbytes)
  {
    hide Drain;
    var chunks: seq<Chunk>, need: nat := chunks0, nbytes;
    var out: seq<Byte>, fin, markers: nat := [], false, 0;
    while chunks != [] && (need > 0 || chunks[0].offset == |chunks[0].data|)
      invariant After(out, fin, markers, Drain(chunks, need)) == Drain(chunks0, nbytes)
      decreases |chunks|, need
    {
      var c := chunks[0];
      var take := if Left(c) < need then Left(c) else need;
      DrainOne(chunks, need, out, fin, markers);
      out := out + c.data[c.offset..c.offset + take];
      need := need - take;
      c := Chunk(c.data, c.offset + take, c.fin);
      if c.offset == |c.data| {
        fin := fin || c.fin;
        markers := markers + if c.data == [] then 1 else 0;
        chunks := chunks[1..];
      } else {
        chunks := [c] + chunks[1..];
        break;
      }
    }
    if chunks == [] || (need == 0 && Left(chunks[0]) > 0) {
      DrainStop(chunks, need);
    }
    d := Drained(chunks, out, fin, markers);
  }

  lemma DrainStop(chunks: seq<Chunk>, need: nat)
    requires chunks == [] || (need == 0 && Left(chunks[0]) > 0)
    ensures Drain(chunks, need) == Drained(chunks, [], false, 0)
  {
  }

  /** A drain that continues from what was already handed out. */
  ghost function After(out: seq<Byte>, fin: bool, markers: nat, d: Drained): Drained {
    Drained(d.rest, out + d.out, fin || d.fin, markers + d.markers)
  }

  lemma DrainOne(chunks: seq<Chunk>, need: nat, out: seq<Byte>, fin: bool, markers: nat)
    requires chunks != []
    ensures var c := chunks[0];
            After(out, fin, markers, Drain(chunks, need)) ==
            if need < Left(c) then
              Drained([Chunk(c.data, c.offset + need, c.fin)] + chunks[1..],
                      out + c.data[c.offset..c.offset + need], fin, markers)
            else
              After(out + c.data[c.offset..], fin || c.fin, markers + (if c.data == [] then 1 else 0),
                    Drain(chunks[1..], need - Left(c)))
  {
    var c := chunks[0];
    if need >= Left(c) {
      ConcatAssoc(out, c.data[c.offset..], Drain(chunks[1..], need - Left(c)).out);
    }
  }

  /** The chunks that carry the first `keep` bytes, FIN cleared; how many were visited and how many bytes cut off. */
  method KeepPrefix(chunks: seq<Chunk>, keep: nat) returns (kept: seq<Chunk>, k: nat, cut: int)
    ensures k <= |chunks| && kept == Keep(chunks, keep)
    ensures Bytes(kept) + cut == Bytes(chunks[..k]) && Markers(kept) == Markers(chunks[..k])
  {
    hide Keep, Pending, Markers;
    var left: nat := keep;
    kept, k, cut := [], 0, 0;
    NothingYet(chunks, keep);
    while k < |chunks| && left > 0
      invariant k <= |chunks|
      invariant Keep(chunks, keep) == kept + Keep(chunks[k..], left)
      invariant Bytes(kept) + cut == Bytes(chunks[..k]) && Markers(kept) == Markers(chunks[..k])
    {
      var c := chunks[k];
      KeepOne(chunks[k..], left, kept);
      TakeOneMore(chunks, k);
      var short := c;
      if Left(c) > left {
        cut := cut + (Left(c) - left);
        short := Chunk(c.data[..c.offset + left], c.offset, false);
        left := 0;
      } else {
        left := left - Left(c);
        short := Chunk(c.data, c.offset, false);
      }
      AppendOne(kept, short);
      kept := kept + [short];
      k := k + 1;
    }
    NothingLeft(chunks[k..], left);
  }

  lemma NothingYet(chunks: seq<Chunk>, keep: nat)
    ensures Keep(chunks, keep) == [] + Keep(chunks[0..], keep) && chunks[..0] == []
    ensures Bytes([]) == 0 && Markers([]) == 0
  {
    assert chunks[0..] == chunks;
  }

  lemma NothingLeft(rest: seq<Chunk>, left: nat)
    requires rest == [] || left == 0
    ensures Keep(rest, left) == []
  {
  }

  lemma AppendOne(chunks: seq<Chunk>, c: Chunk)
    ensures Bytes(chunks + [c]) == Bytes(chunks) + Left(c)
    ensures Markers(chunks + [c]) == Markers(chunks) + if c.data == [] then 1 else 0
  {
    PendingAppend(chunks, [c]);
    MarkersAppend(chunks, [c]);
    assert Pending([c]) == c.data[c.offset..] + Pending([]);
  }

  lemma KeepOne(rest: seq<Chunk>, left: nat, kept: seq<Chunk>)
    requires rest != [] && left > 0
    ensures var c := rest[0];
            kept + Keep(rest, left) ==
            if Left(c) > left then kept + [Chunk(c.data[..c.offset + left], c.offset, false)] + Keep(rest[1..], 0)
            else kept + [Chunk(c.data, c.offset, false)] + Keep(rest[1..], left - Left(c))
  {
  }

  /** Keeps the first `keep` bytes and releases every chunk after them; the bytes and markers released. */
  method TruncateChunks(chunks: seq<Chunk>, keep: nat) returns (kept: seq<Chunk>, cut: int, freed: int)
    ensures kept == Keep(chunks, keep)
    ensures cut == Bytes(chunks) - Bytes(kept) && freed == Markers(chunks) - Markers(kept)
  {
    var k;
    kept, k, cut := KeepPrefix(chunks, keep);
    freed := 0;
    while k < |chunks|
      invariant k <= |chunks|
      invariant Bytes(kept) + cut == Bytes(chunks[..k]) && Markers(kept) + freed == Markers(chunks[..k])
    {
      TakeOneMore(chunks, k);
      cut := cut + Left(chunks[k]);
      freed := freed + if chunks[k].data == [] then 1 else 0;
      k := k + 1;
    }
    assert chunks[..k] == chunks;
  }

  lemma TakeOneMore(chunks: seq<Chunk>, k: nat)
    requires k < |chunks|
    ensures Bytes(chunks[..k + 1]) == Bytes(chunks[..k]) + Left(chunks[k])
    ensures Markers(chunks[..k + 1]) == Markers(chunks[..k]) + if chunks[k].data == [] then 1 else 0
  {
    AppendOne(chunks[..k], chunks[k]);
    assert chunks[..k + 1] == chunks[..k] + [chunks[k]];
  }

  class SendQueue {
    const table: StreamTable
    const cap: nat
    var offs: seq<Offset>
    var offsCap: nat
    var orderCap: nat
    var queued: nat
    var finMarkers: int
    var highWater: int
    var wouldBlock: nat
    var dirty: bool
    ghost var records: map<Sid, nat>

    ghost predicate Valid()
      reads this, table, table.index
    {
      && table.Valid()
      && Recorded(offs, records)
      && |offs| <= offsCap
    }

    /** What the queue holds, without saying where. */
    ghost function Model(): Queue
      reads this, table
    {
      Queue(table.streams, records, queued, finMarkers, highWater, wouldBlock, dirty, cap)
    }

    /** An allocation that is not attempted cannot fail: slots and records are only grown when full. */
    ghost function Needed(alloc: Alloc): Alloc
      reads this, table
    {
      alloc.(table := alloc.table || table.HasRoom(), record := alloc.record || |offs| < offsCap)
    }

    constructor (hash: Sid -> nat, cap: nat)
      ensures Valid() && fresh(table) && fresh(table.index) && Model() == Empty(cap)
    {
      table := new StreamTable(hash);
      this.cap := cap;
      offs, offsCap, orderCap := [], 0, 0;
      queued, finMarkers, highWater, wouldBlock, dirty := 0, 0, 0, 0, false;
      records := map[];
    }

    /** Release the stream's chunks and its slot. */
    method ClearSlot(slot: int, sid: Sid)
      requires Valid() && table.At(slot, sid)
      modifies this`queued, this`finMarkers, table, table.index
      ensures Valid() && Model() == Clear(old(Model()), sid) && table.index == old(table.index)
    {
      var s := table.Get(slot, sid);
      var k := 0;
      while k < |s.chunks|
        invariant k <= |s.chunks| && unchanged(table) && unchanged(table.index)
        invariant queued == Sat(old(queued), Bytes(s.chunks[..k]))
        invariant finMarkers == old(finMarkers) - Markers(s.chunks[..k])
      {
        TakeOneMore(s.chunks, k);
        queued := Sat(queued, Left(s.chunks[k]));
        if s.chunks[k].data == [] {
          finMarkers := finMarkers - 1;
        }
        k := k + 1;
      }
      assert s.chunks[..k] == s.chunks;
      table.Release(slot, sid);
    }

    // ----- offset records -----

    /** The position of a stream's offset record, or -1. */
    method OffsetFind(sid: Sid) returns (at: int)
      requires Valid()
      ensures at < 0 <==> sid !in records
      ensures at >= 0 ==> at < |offs| && offs[at] == Offset(sid, records[sid])
    {
      for i := 0 to |offs|
        invariant forall j :: 0 <= j < i ==> offs[j].sid != sid
      {
        if offs[i].sid == sid {
          return i;
        }
      }
      assert sid in records ==> HasRecord(offs, sid);
      return -1;
    }

    method OffsetForget(sid: Sid)
      requires Valid()
      modifies this`offs, this`records
      ensures Valid() && Model() == Forget(old(Model()), sid)
    {
      var at := OffsetFind(sid);
      if at >= 0 {
        RecordRemove(offs, records, at);
        offs := offs[at := offs[|offs| - 1]][..|offs| - 1];
      }
      records := records - {sid};
    }

    /** Record the stream at zero, unless it has a record. */
    method OffsetNote(sid: Sid, record: bool) returns (ok: bool)
      requires Valid()
      modifies this`offs, this`offsCap, this`records
      ensures Valid()
      ensures ok <==> sid in old(records) || record || old(|offs| < offsCap)
      ensures records == if ok && sid !in old(records) then old(records)[sid := 0] else old(records)
    {
      var at := OffsetFind(sid);
      if at < 0 {
        if |offs| == offsCap {
          if !record {
            return false;
          }
          offsCap := if offsCap == 0 then 8 else 2 * offsCap;
        }
        RecordAdd(offs, records, sid);
        offs := offs + [Offset(sid, 0)];
        records := records[sid := 0];
      }
      return true;
    }

    method OffsetAdd(sid: Sid, count: nat)
      requires Valid()
      modifies this`offs, this`records
      ensures Valid()
      ensures records == if sid in old(records) then old(records)[sid := old(records)[sid] + count] else old(records)
    {
      var at := OffsetFind(sid);
      if at >= 0 {
        RecordSet(offs, records, at, offs[at].provided + count);
        records := records[sid := offs[at].provided + count];
        offs := offs[at := Offset(sid, offs[at].provided + count)];
      }
    }

    // ----- opening, keys and pushing -----

    function Full(): (r: bool)
      reads this
    {
      queued >= cap || finMarkers >= cap - queued
    }

    method FindOrCreate(sid: Sid, memory: bool) returns (slot: int)
      requires Valid()
      modifies this`dirty, table, table.index
      ensures Valid() && (table.index == old(table.index) || fresh(table.index))
      ensures slot < 0 <==> sid !in old(table.streams) && !memory && !old(table.HasRoom())
      ensures slot < 0 ==> Model() == old(Model())
      ensures slot >= 0 ==> table.At(slot, sid) && Model() == SendQueueModel.FindOrCreate(old(Model()), sid)
    {
      hide TableOk, Represents, Recorded, Means;
      var created;
      slot, created := table.FindOrCreate(sid, memory);
      if created {
        dirty := true;
      }
    }

    method Opened(sid: Sid, alloc: Alloc) returns (ok: bool)
      requires Valid()
      modifies this`dirty, table, table.index
      ensures Valid() && (table.index == old(table.index) || fresh(table.index))
      ensures (Model(), ok) == SendQueueModel.Opened(old(Model()), sid, old(Needed(alloc)))
    {
      hide TableOk, Represents, Recorded, Means;
      var slot := FindOrCreate(sid, alloc.table);
      if slot < 0 {
        return false;
      }
      var s := table.Get(slot, sid);
      if s.chunks == [] {
        table.Put(slot, sid, s.(unstarted := true));
      }
      return true;
    }

    method SetKey(sid: Sid, key: nat, alloc: Alloc) returns (ok: bool)
      requires Valid()
      modifies this`dirty, table, table.index
      ensures Valid() && (table.index == old(table.index) || fresh(table.index))
      ensures (Model(), ok) == SendQueueModel.SetKey(old(Model()), sid, key, old(Needed(alloc)))
    {
      hide TableOk, Represents, Recorded, Means;
      var slot := FindOrCreate(sid, alloc.table);
      if slot < 0 {
        return false;
      }
      var s := table.Get(slot, sid);
      if s.key != key {
        table.Put(slot, sid, s.(key := key));
        dirty := true;
      }
      return true;
    }

    /** Put a chunk at the tail. An unstarted stream starts with it, so the ranking is out of date. */
    method AppendChunk(slot: int, ghost sid: Sid, c: Chunk)
      requires Valid() && table.At(slot, sid)
      modifies this`dirty, table`slots, table`streams
      ensures Valid() && table.At(slot, sid) && Model() == Append(old(Model()), sid, c)
    {
      hide TableOk, Represents, Recorded, Means;
      var s := table.Get(slot, sid);
      if s.unstarted {
        dirty := true;
      }
      table.Put(slot, sid, s.(chunks := s.chunks + [c], remaining := s.remaining + |c.data|, unstarted := false));
    }

    method PushBareFin(slot: int, ghost sid: Sid, memory: bool) returns (r: PushResult)
      requires Valid() && table.At(slot, sid)
      modifies this`finMarkers, this`dirty, table`slots, table`streams
      ensures Valid()
      ensures (Model(), r) == SendQueueModel.PushBareFin(old(Model()), sid, memory)
    {
      hide TableOk, Represents, Recorded, Means;
      var s := table.Get(slot, sid);
      if s.chunks != [] {
        table.Put(slot, sid, s.(chunks := MarkFin(s.chunks)));
        return Accepted;
      }
      if !memory {
        return NoMemory;
      }
      finMarkers := finMarkers + 1;
      AppendChunk(slot, sid, Chunk([], 0, true));
      return Accepted;
    }

    method PushBytes(slot: int, sid: Sid, data: seq<Byte>, fin: bool, memory: bool, record: bool)
      returns (r: PushResult)
      requires Valid() && table.At(slot, sid)
      modifies this, table, table.index
      ensures Valid() && table.index == old(table.index)
      ensures (Model(), r) == SendQueueModel.PushBytes(old(Model()), sid, data, fin, memory,
                                                       record || old(|offs| < offsCap))
    {
      hide TableOk, Represents, Recorded, Means;
      var ok := memory;
      if ok {
        ok := OffsetNote(sid, record);
      }
      if !ok {
        var s := table.Get(slot, sid);
        if s.chunks == [] {
          ClearSlot(slot, sid);
        }
        return NoMemory;
      }
      queued := queued + |data|;
      if queued > highWater {
        highWater := queued;
      }
      AppendChunk(slot, sid, Chunk(data, 0, fin));
      return Accepted;
    }

    /** Whether the push needs budget: bytes do, and a FIN with no chunk to ride on. */
    method NeedsBudget(sid: Sid, data: seq<Byte>) returns (needs: bool)
      requires Valid()
      ensures needs <==> data != [] || !SendQueueModel.HasData(Model(), sid)
    {
      hide TableOk, Represents, Recorded, Means;
      var slot := table.Find(sid);
      needs := true;
      if slot >= 0 && data == [] {
        var s := table.Get(slot, sid);
        needs := s.chunks == [];
      }
    }

    method Push(sid: Sid, data: seq<Byte>, fin: bool, copied: bool, alloc: Alloc) returns (r: PushResult)
      requires Valid()
      modifies this, table, table.index
      ensures Valid() && (table.index == old(table.index) || fresh(table.index))
      ensures (Model(), r) == SendQueueModel.Push(old(Model()), sid, data, fin, copied, old(Needed(alloc)))
    {
      hide TableOk, Represents, Recorded, Means, SendQueueModel.PushAdmitted, SendQueueModel.HasData;
      if data == [] && !fin {
        return Accepted;
      }
      var needs := NeedsBudget(sid, data);
      if needs && Full() {
        wouldBlock := wouldBlock + 1;
        return CapFull;
      }
      r := PushAdmitted(sid, data, fin, copied, alloc);
    }

    method PushAdmitted(sid: Sid, data: seq<Byte>, fin: bool, copied: bool, alloc: Alloc) returns (r: PushResult)
      requires Valid()
      modifies this, table, table.index
      ensures Valid() && (table.index == old(table.index) || fresh(table.index))
      ensures (Model(), r) == SendQueueModel.PushAdmitted(old(Model()), sid, data, fin, copied, old(Needed(alloc)))
    {
      hide TableOk, Represents, Recorded, Means;
      var slot := FindOrCreate(sid, alloc.table);
      if slot < 0 {
        return NoMemory;
      }
      if data == [] {
        r := PushBareFin(slot, sid, alloc.chunk);
      } else {
        r := PushBytes(slot, sid, data, fin, alloc.chunk && (!copied || alloc.copy), alloc.record);
      }
    }

    // ----- providing -----

    method HasData(sid: Sid) returns (r: bool)
      requires Valid()
      ensures r == SendQueueModel.HasData(Model(), sid)
    {
      var slot := table.Find(sid);
      if slot < 0 {
        return false;
      }
      var s := table.Get(slot, sid);
      return s.chunks != [];
    }

    method Plan(sid: Sid, max: nat) returns (p: Provide)
      requires Valid()
      ensures p == SendQueueModel.Plan(Model(), sid, max)
    {
      var slot := table.Find(sid);
      if slot < 0 {
        return Nothing;
      }
      var s := table.Get(slot, sid);
      if s.chunks == [] {
        return Nothing;
      }
      var n := if s.remaining < max then s.remaining else max;
      n := if n < 0 then 0 else n;
      return Provide(n, n == s.remaining && s.chunks[|s.chunks| - 1].fin, n < s.remaining);
    }

    /** The slot and the counters give up what was drained. */
    method TakeOut(slot: int, sid: Sid, d: Drained)
      requires Valid() && table.At(slot, sid)
      modifies this`queued, this`finMarkers, table`slots, table`streams
      ensures Valid() && table.At(slot, sid)
      ensures var q := old(Model());
              && sid in q.streams
              && Model() == q.(streams := q.streams[sid := q.streams[sid].(chunks := d.rest,
                                                    remaining := q.streams[sid].remaining - |d.out|)],
                               queued := Sat(q.queued, |d.out|), finMarkers := q.finMarkers - d.markers)
    {
      hide TableOk, Represents, Recorded, Means;
      var s := table.Get(slot, sid);
      table.Put(slot, sid, s.(chunks := d.rest, remaining := s.remaining - |d.out|));
      queued := Sat(queued, |d.out|);
      finMarkers := finMarkers - d.markers;
    }

    /** Write a drained stream back, and count what was handed over. */
    method HandOver(slot: int, sid: Sid, d: Drained)
      requires Valid() && table.At(slot, sid)
      modifies this`queued, this`finMarkers, this`offs, this`records, table`slots, table`streams
      ensures Valid() && table.At(slot, sid)
      ensures Model() == SendQueueModel.HandOver(old(Model()), sid, d)
    {
      hide TableOk, Represents, Recorded, Means;
      TakeOut(slot, sid, d);
      OffsetAdd(sid, |d.out|);
    }

    method Commit(sid: Sid, nbytes: nat) returns (dst: seq<Byte>)
      requires Valid()
      modifies this, table, table.index
      ensures Valid() && table.index == old(table.index)
      ensures (Model(), dst) == SendQueueModel.Commit(old(Model()), sid, nbytes)
    {
      hide TableOk, Represents, Recorded, Means;
      var slot := table.Find(sid);
      if slot < 0 {
        return [];
      }
      var s := table.Get(slot, sid);
      var d := DrainChunks(s.chunks, nbytes);
      CommitSlot(slot, sid, d);
      return d.out;
    }

    /** Hand over, release the slot once it is empty, and end the offset record with the FIN. */
    method CommitSlot(slot: int, sid: Sid, d: Drained)
      requires Valid() && table.At(slot, sid)
      modifies this, table, table.index
      ensures Valid() && table.index == old(table.index)
      ensures Model() == CommitDrained(old(Model()), sid, d)
    {
      hide TableOk, Represents, Recorded, Means;
      HandOver(slot, sid, d);
      if d.rest == [] {
        ClearSlot(slot, sid);
      }
      if d.fin {
        OffsetForget(sid);
      }
    }

    method Drop(sid: Sid)
      requires Valid()
      modifies this, table, table.index
      ensures Valid() && table.index == old(table.index)
      ensures Model() == SendQueueModel.Drop(old(Model()), sid)
    {
      hide TableOk, Represents, Recorded, Means;
      var slot := table.Find(sid);
      if slot >= 0 {
        ClearSlot(slot, sid);
      }
      OffsetForget(sid);
    }

    /** Shorten a stream to the chunks kept. */
    method KeepOnly(slot: int, ghost sid: Sid, keep: nat) returns (left: int)
      requires Valid() && table.At(slot, sid)
      modifies this`queued, this`finMarkers, table`slots, table`streams
      ensures Valid() && table.At(slot, sid)
      ensures Model() == SendQueueModel.KeepOnly(old(Model()), sid, keep) && left == table.streams[sid].remaining
    {
      hide TableOk, Represents, Recorded, Means;
      var s := table.Get(slot, sid);
      var kept, cut, freed := TruncateChunks(s.chunks, keep);
      table.Put(slot, sid, s.(chunks := kept, remaining := s.remaining - cut));
      queued := Sat(queued, cut);
      finMarkers := finMarkers - freed;
      left := s.remaining - cut;
    }

    method Truncate(sid: Sid, reliable: nat) returns (left: int)
      requires Valid()
      modifies this, table, table.index
      ensures Valid() && table.index == old(table.index)
      ensures (Model(), left) == SendQueueModel.Truncate(old(Model()), sid, reliable)
    {
      hide TableOk, Represents, Recorded, Means, SendQueueModel.Drop, Keep, Bytes, Markers;
      var slot := table.Find(sid);
      if slot < 0 {
        OffsetForget(sid);
        return 0;
      }
      var at := OffsetFind(sid);
      var provided := if at >= 0 then offs[at].provided else 0;
      if reliable <= provided {
        Drop(sid);
        return 0;
      }
      left := KeepOnly(slot, sid, reliable - provided);
      if left == 0 {
        Drop(sid);
      }
    }

    // ----- priorities -----

    /** Rank the recorded keys once, if anything changed, and apply each changed level. */
    method ApplyPriorities(apply: (Sid, nat) -> bool, sort: seq<Rank> -> seq<Rank>, memory: bool)
      returns (ok: bool, calls: seq<Call>)
      requires Valid() && Sorts(sort)
      modifies this`orderCap, this`dirty, table`slots, table`streams
      ensures Valid()
      ensures !old(dirty) ==> ok && calls == [] && Model() == old(Model())
      ensures old(dirty) && ok ==> Model() == Rerank(old(Model()))
      ensures !ok ==> PartlyReranked(old(Model()), Model())
      ensures forall c :: c in calls ==> Deserved(old(Model()).streams, c)
    {
      hide TableOk, Represents, Recorded, Means;
      if !dirty {
        return true, [];
      }
      if orderCap < |table.slots| {
        if !memory {
          return false, [];
        }
        orderCap := |table.slots|;
      }
      ok, calls := table.Rank(apply, sort);
      if ok {
        dirty := false;
      }
    }
  }
}

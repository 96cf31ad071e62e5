/**
 Reliable resets of the WebTransport endpoint.  A reset that must still deliver
 a prefix truncates the stream's queue; if bytes of the prefix are still queued
 it is deferred, and issued by a later flush once they have been provided.
 The table of deferred resets is compacted in place by each flush.
 */
module DeferredResets {
  import ProbeTable
  import opened SendQueueModel
  import opened SendQueues
  import SlotTable

  type Sid = ProbeTable.Sid

  datatype Deferred = Deferred(sid: Sid, code: nat, size: nat)

  /** What the transport answers to a reset. */
  datatype Answer = Done | AlreadyClosed | Refused

  /** The transport's answers during one call: reset keeping a prefix, plain reset, restoring the stream context. */
  datatype Transport = Transport(
    resetAt: (Sid, nat, nat) -> Answer,
    reset: (Sid, nat) -> Answer,
    restore: Sid -> bool)

  datatype Frame = ResetStreamAt(sid: Sid, code: nat, size: nat) | ResetStream(sid: Sid, code: nat)

  /** The effect of issuing one reset: frames sent, whether the stream was quiesced, whether it succeeded. */
  datatype Issue = Issue(frames: seq<Frame>, quiesced: bool, ok: bool)

  function Issued(d: Deferred, t: Transport): Issue {
    match t.resetAt(d.sid, d.code, d.size)
    case Done => Issue([ResetStreamAt(d.sid, d.code, d.size)], true, t.restore(d.sid))
    case AlreadyClosed => Issue([], false, true)
    case Refused =>
      match t.reset(d.sid, d.code)
      case Done => Issue([ResetStream(d.sid, d.code)], true, t.restore(d.sid))
      case AlreadyClosed => Issue([], false, true)
      case Refused => Issue([], false, false)
  }

  function Quiesce(q: Queue, d: Deferred, t: Transport): Queue {
    if Issued(d, t).quiesced then Drop(q, d.sid) else q
  }

  datatype Flushed = Flushed(q: Queue, kept: seq<Deferred>, issued: seq<Deferred>, frames: seq<Frame>, failed: bool)

  /** One flush: entries whose stream still has data stay, the others are issued, in table order. */
  function Flush(q: Queue, entries: seq<Deferred>, t: Transport): Flushed
    decreases entries
  {
    if entries == [] then Flushed(q, [], [], [], false)
    else
      var d := entries[0];
      if HasData(q, d.sid) then
        var f := Flush(q, entries[1..], t);
        f.(kept := [d] + f.kept)
      else
        var i := Issued(d, t);
        var f := Flush(Quiesce(q, d, t), entries[1..], t);
        f.(issued := [d] + f.issued, frames := i.frames + f.frames, failed := !i.ok || f.failed)
  }

  /** A flush resumed at the tail of the table, with what was kept, issued, sent and failed before. */
  ghost predicate Resumes(all: Flushed, done: Flushed, rest: Flushed) {
    && all.q == rest.q
    && all.kept == done.kept + rest.kept
    && all.issued == done.issued + rest.issued
    && all.frames == done.frames + rest.frames
    && all.failed == (done.failed || rest.failed)
  }

  lemma ResumeNext(all: Flushed, done: Flushed, q: Queue, rest: seq<Deferred>, t: Transport)
    requires rest != [] && Resumes(all, done, Flush(q, rest, t))
    ensures var d := rest[0];
            if HasData(q, d.sid) then
              Resumes(all, done.(kept := done.kept + [d]), Flush(q, rest[1..], t))
            else
              Resumes(all, done.(issued := done.issued + [d], frames := done.frames + Issued(d, t).frames,
                                 failed := done.failed || !Issued(d, t).ok),
                      Flush(Quiesce(q, d, t), rest[1..], t))
  {
  }

  /** The entries whose stream has (or has not) data in q, in order. */
  function Select(q: Queue, entries: seq<Deferred>, data: bool): seq<Deferred> {
    if entries == [] then []
    else (if HasData(q, entries[0].sid) == data then [entries[0]] else []) + Select(q, entries[1..], data)
  }

  /** Two queues that agree on which streams have data and on every stream's bytes. */
  ghost predicate SameData(q: Queue, q': Queue) {
    && (forall s :: HasData(q', s) == HasData(q, s))
    && (forall s :: PendingOf(q', s) == PendingOf(q, s))
  }

  lemma QuiesceKeepsData(q: Queue, d: Deferred, t: Transport)
    requires !HasData(q, d.sid)
    ensures SameData(q, Quiesce(q, d, t))
  {
  }

  lemma {:induction false} SelectSame(q: Queue, q': Queue, entries: seq<Deferred>, data: bool)
    requires SameData(q, q')
    ensures Select(q', entries, data) == Select(q, entries, data)
  {
    if entries != [] {
      SelectSame(q, q', entries[1..], data);
    }
  }

  /** A flush splits the table: what still has data is kept, the rest is issued once each, both in order, and no
      stream loses a byte. */
  lemma {:induction false} FlushSplits(q: Queue, entries: seq<Deferred>, t: Transport)
    ensures var f := Flush(q, entries, t);
            && f.kept == Select(q, entries, true)
            && f.issued == Select(q, entries, false)
            && SameData(q, f.q)
            && (f.failed <==> exists d :: d in f.issued && !Issued(d, t).ok)
    decreases entries
  {
    if entries != [] {
      var d := entries[0];
      if HasData(q, d.sid) {
        FlushSplits(q, entries[1..], t);
      } else {
        var q1 := Quiesce(q, d, t);
        QuiesceKeepsData(q, d, t);
        FlushSplits(q1, entries[1..], t);
        SelectSame(q, q1, entries[1..], true);
        SelectSame(q, q1, entries[1..], false);
      }
    }
  }

  lemma FlushNothing(q: Queue, t: Transport)
    ensures Flush(q, [], t) == Flushed(q, [], [], [], false)
  {
  }

  /** Nothing is lost or duplicated by the split. */
  lemma {:induction false} SelectPartition(q: Queue, entries: seq<Deferred>)
    ensures multiset(Select(q, entries, true)) + multiset(Select(q, entries, false)) == multiset(entries)
  {
    if entries != [] {
      SelectPartition(q, entries[1..]);
      assert entries == [entries[0]] + entries[1..];
    }
  }

  datatype ResetResult = ResetOk | ResetDropped | ResetError

  class Endpoint {
    const queue: SendQueue
    const preamble: nat
    var deferredAt: array<Deferred>
    var count: nat
    var frames: seq<Frame>       // what the transport accepted
    var issued: seq<Deferred>    // resets issued from the table or at once

    ghost predicate Valid()
      reads this, deferredAt, queue, queue.table, queue.table.index
    {
      && count <= deferredAt.Length
      && queue.Valid()
    }

    ghost function Table(): seq<Deferred>
      reads this, deferredAt
      requires count <= deferredAt.Length
    {
      deferredAt[..count]
    }

    constructor (queue: SendQueue, preamble: nat)
      requires queue.Valid()
      ensures Valid() && fresh(deferredAt) && Table() == [] && frames == [] && issued == []
      ensures this.queue == queue && this.preamble == preamble
    {
      this.queue, this.preamble := queue, preamble;
      deferredAt, count := new Deferred[0], 0;
      frames, issued := [], [];
    }

    /** Try a reset that keeps the prefix, and a plain one if that is refused; either quiesces the stream. */
    method IssueReset(d: Deferred, t: Transport) returns (ok: bool)
      requires Valid()
      modifies this`frames, this`issued, queue, queue.table, queue.table.index
      ensures Valid() && queue.table.index == old(queue.table.index)
      ensures ok == Issued(d, t).ok && queue.Model() == Quiesce(old(queue.Model()), d, t)
      ensures frames == old(frames) + Issued(d, t).frames && issued == old(issued) + [d]
    {
      hide ProbeTable.Represents, SlotTable.TableOk, SlotTable.Means, SlotTable.Recorded;
      issued := issued + [d];
      var rc := t.resetAt(d.sid, d.code, d.size);
      if rc == Done {
        frames := frames + [ResetStreamAt(d.sid, d.code, d.size)];
      } else if rc != AlreadyClosed {
        rc := t.reset(d.sid, d.code);
        if rc == Done {
          frames := frames + [ResetStream(d.sid, d.code)];
        }
      }
      if rc == AlreadyClosed {
        return true;
      }
      if rc == Refused {
        return false;
      }
      queue.Drop(d.sid);
      return t.restore(d.sid);
    }

    /** Make room for one more deferred reset. */
    method Reserve(memory: bool) returns (ok: bool)
      requires Valid()
      modifies this`deferredAt
      ensures Valid() && Table() == old(Table()) && (deferredAt == old(deferredAt) || fresh(deferredAt))
      ensures ok <==> memory || old(count < deferredAt.Length)
      ensures ok ==> count < deferredAt.Length
    {
      if count == deferredAt.Length {
        if !memory {
          return false;
        }
        var n := new Deferred[if count == 0 then 4 else 2 * count];
        forall i | 0 <= i < count {
          n[i] := deferredAt[i];
        }
        deferredAt := n;
      }
      return true;
    }

    /** The session was detached: whatever waits in the table is given up. */
    method SettleDeferred()
      requires Valid()
      modifies this`count
      ensures Valid() && Table() == []
    {
      count := 0;
    }

    /** A reliable reset of a stream. The code was mapped to `wtCode` unless it is out of range (`codeOk`); `usable`
        means a local stream on a connection where both sides support it. */
    method ResetAt(sid: Sid, wtCode: nat, codeOk: bool, usable: bool, reliable: nat, t: Transport, memory: bool)
      returns (r: ResetResult)
      requires Valid()
      modifies this, deferredAt, queue, queue.table, queue.table.index
      ensures Valid() && (deferredAt == old(deferredAt) || fresh(deferredAt))
      ensures queue.table.index == old(queue.table.index)
      ensures !codeOk ==> r == ResetError
      ensures codeOk && !usable ==> r == ResetDropped
      ensures !codeOk || !usable ==> Table() == old(Table()) && issued == old(issued) && frames == old(frames)
                                     && queue.Model() == old(queue.Model())
      ensures codeOk && usable ==>
                var d := Deferred(sid, wtCode, preamble + reliable);
                var (q1, left) := Truncate(old(queue.Model()), sid, reliable);
                if left == 0 then
                  && r == (if Issued(d, t).ok then ResetOk else ResetError)
                  && Table() == old(Table()) && issued == old(issued) + [d]
                  && frames == old(frames) + Issued(d, t).frames && queue.Model() == Quiesce(q1, d, t)
                else
                  && r == (if memory || old(count < deferredAt.Length) then ResetOk else ResetError)
                  && Table() == (if r == ResetOk then old(Table()) + [d] else old(Table()))
                  && issued == old(issued) && frames == old(frames) && queue.Model() == q1
    {
      hide ProbeTable.Represents, SlotTable.TableOk, SlotTable.Means, SlotTable.Recorded;
      if !codeOk {
        return ResetError;
      }
      if !usable {
        return ResetDropped;
      }
      var d := Deferred(sid, wtCode, preamble + reliable);
      var left := queue.Truncate(sid, reliable);
      if left == 0 {
        var ok := IssueReset(d, t);
        return if ok then ResetOk else ResetError;
      }
      var room := Reserve(memory);
      if !room {
        return ResetError;
      }
      deferredAt[count] := d;
      count := count + 1;
      assert deferredAt[..count] == deferredAt[..count - 1] + [d];
      return ResetOk;
    }

    /** Visit one entry: move it down to `w` if its stream still has data, issue it otherwise. */
    method FlushEntry(r: nat, w: nat, t: Transport) returns (kept: bool, failed: bool)
      requires Valid() && w <= r < count
      modifies this`frames, this`issued, deferredAt, queue, queue.table, queue.table.index
      ensures Valid() && queue.table.index == old(queue.table.index)
      ensures kept == HasData(old(queue.Model()), old(deferredAt[r]).sid)
      ensures forall k :: r < k < count ==> deferredAt[k] == old(deferredAt[k])
      ensures kept ==> deferredAt[..w + 1] == old(deferredAt[..w]) + [old(deferredAt[r])] && !failed
      ensures kept ==> queue.Model() == old(queue.Model()) && frames == old(frames) && issued == old(issued)
      ensures !kept ==> deferredAt[..w] == old(deferredAt[..w]) && failed == !Issued(old(deferredAt[r]), t).ok
      ensures !kept ==> queue.Model() == Quiesce(old(queue.Model()), old(deferredAt[r]), t)
      ensures !kept ==> frames == old(frames) + Issued(old(deferredAt[r]), t).frames
      ensures !kept ==> issued == old(issued) + [old(deferredAt[r])]
    {
      hide Issued, Quiesce, ProbeTable.Represents, SlotTable.TableOk, SlotTable.Means, SlotTable.Recorded;
      var d := deferredAt[r];
      kept := queue.HasData(d.sid);
      if kept {
        deferredAt[w] := d;
        failed := false;
      } else {
        var ok := IssueReset(d, t);
        failed := !ok;
      }
    }

    /** Issue every deferred reset whose prefix has been provided, compacting the others in place. */
    method FlushResets(t: Transport) returns (failed: bool)
      requires Valid()
      modifies this, deferredAt, queue, queue.table, queue.table.index
      ensures Valid() && deferredAt == old(deferredAt) && queue.table.index == old(queue.table.index)
      ensures var f := Flush(old(queue.Model()), old(Table()), t);
              && Table() == f.kept && issued == old(issued) + f.issued && frames == old(frames) + f.frames
              && queue.Model() == f.q && failed == f.failed
    {
      hide Flush, Issued, Quiesce, HasData;
      hide ProbeTable.Represents, SlotTable.TableOk, SlotTable.Means, SlotTable.Recorded;
      failed := false;
      var w := 0;
      ghost var entries := Table();
      ghost var all := Flush(queue.Model(), entries, t);
      ghost var done := Flushed(queue.Model(), [], [], [], false);
      assert entries[0..] == entries;
      for r := 0 to count
        invariant w <= r && count == old(count) && deferredAt == old(deferredAt) && Valid()
        invariant queue.table.index == old(queue.table.index)
        invariant forall k :: r <= k < count ==> deferredAt[k] == entries[k]
        invariant deferredAt[..w] == done.kept && issued == old(issued) + done.issued
        invariant frames == old(frames) + done.frames && failed == done.failed
        invariant Resumes(all, done, Flush(queue.Model(), entries[r..], t))
      {
        ghost var d := entries[r];
        ResumeNext(all, done, queue.Model(), entries[r..], t);
        assert d == entries[r..][0] && entries[r..][1..] == entries[r + 1..];
        var kept, bad := FlushEntry(r, w, t);
        failed := failed || bad;
        if kept {
          w := w + 1;
          done := done.(kept := done.kept + [d]);
        } else {
          done := done.(issued := done.issued + [d], frames := done.frames + Issued(d, t).frames,
          failed := done.failed || !Issued(d, t).ok);
        }
      }
      FlushNothing(queue.Model(), t);
      assert entries[count..] == [];
      count := w;
    }

    /** A provide callback: tell the transport what comes, then copy it out. */
    method ProvideData(sid: Sid, space: nat, buffer: bool) returns (told: Provide, dst: seq<Byte>)
      requires Valid()
      modifies queue, queue.table, queue.table.index
      ensures Valid() && queue.table.index == old(queue.table.index)
      ensures told == Plan(old(queue.Model()), sid, space)
      ensures if told.Provide? && buffer
              then (queue.Model(), dst) == Commit(old(queue.Model()), sid, told.nbytes)
              else queue.Model() == old(queue.Model()) && dst == []
    {
      told := queue.Plan(sid, space);
      if told.Nothing? || !buffer {
        return told, [];
      }
      dst := queue.Commit(sid, told.nbytes);
    }
  }
}

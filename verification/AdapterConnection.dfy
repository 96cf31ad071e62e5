/**
 The adapter's connection object: the same operations done in place, on the list
 of stream records, the fixed array of staged entries and its running byte
 count, each proved to do to them what the value model says.
 */
module AdapterConnection {
  import opened StreamItems
  import opened RecordList
  import opened AdapterSends
  import opened AdapterSafety

  type Sid = AdapterSends.Sid

  class Connection {
    var list: seq<Node<Stream>>  // the stream records, newest first
    const ents: array<Entry>     // the staged entries
    var count: nat
    var staging: bool
    var stagedSid: Sid
    var stagedFin: bool
    var stagedBytes: nat         // bytes of the staged entries
    var pendingSends: int
    var reliableReset: bool
    var latch: Latches
    var nextBuffer: Buffer
    var past: Past
    ghost var streams: map<Sid, Stream>

    ghost predicate Valid()
      reads this, ents
    {
      && ents.Length == BATCH_MAX && count <= BATCH_MAX && Lists(list, streams)
      && (staging ==> stagedSid in streams && stagedBytes == |Data(ents[..count])|)
    }

    /** Between operations there is room for one more entry. */
    ghost predicate Resting()
      reads this, ents
    {
      Valid() && (staging ==> count < BATCH_MAX)
    }

    ghost function Building(): Staging
      requires Valid()
      reads this, ents
    {
      if staging then Staged(stagedSid, Batch(ents[..count], stagedFin)) else Nothing
    }

    ghost function Model(): Conn
      requires Valid()
      reads this, ents
    {
      Conn(streams, Building(), pendingSends, reliableReset, latch, nextBuffer, past)
    }

    constructor ()
      ensures Resting() && fresh(ents) && Model() == NewConn()
    {
      ents := new Entry[BATCH_MAX](_ => Entry(0, false, []));
      list, streams := [], map[];
      count, staging, stagedSid, stagedFin, stagedBytes := 0, false, 0, false, 0;
      pendingSends, reliableReset, nextBuffer := 0, false, 0;
      latch := Latches(false, false, false, false, false, false, false);
      past := Past(map[], [], false);
    }

    // ----- the records -----

    /** The place of a stream's record, or -1. */
    method Lookup(sid: Sid) returns (at: int)
      requires Valid()
      ensures at < |list| && (at < 0 <==> sid !in streams)
      ensures at >= 0 ==> list[at].id == sid && list[at].rec == streams[sid]
    {
      at := Find(list, sid, streams);
    }

    /** Update the record in place. */
    method Store(at: nat, s: Stream)
      requires Valid() && at < |list|
      modifies this`list, this`streams
      ensures Valid() && streams == old(streams)[old(list[at].id) := s]
      ensures Model() == Put(old(Model()), old(list[at].id), s)
    {
      SetRecord(list, streams, at, s);
      streams := streams[list[at].id := s];
      list := list[at := Node(list[at].id, s)];
    }

    /** A new record goes to the front of the list. */
    method NewRecord(sid: Sid, isLocal: bool, isBidi: bool)
      requires Resting() && sid !in streams
      modifies this`list, this`streams
      ensures Resting() && Model() == Put(old(Model()), sid, NewStream(isLocal, isBidi))
    {
      AddRecord(list, streams, sid, NewStream(isLocal, isBidi));
      streams := streams[sid := NewStream(isLocal, isBidi)];
      list := [Node(sid, NewStream(isLocal, isBidi))] + list;
    }

    /** Take the record out of the list; it stays known to the history. */
    method FreeRecord(at: nat)
      requires Resting() && at < |list| && (staging ==> stagedSid != list[at].id)
      modifies this`list, this`streams, this`past
      ensures Resting() && old(list[at].id) in old(streams)
      ensures Model() == Retire(old(Model()), old(list[at].id))
    {
      DropRecord(list, streams, at);
      past := past.(retired := past.retired[list[at].id := list[at].rec]);
      streams := streams - {list[at].id};
      list := list[..at] + list[at + 1..];
    }

    // ----- batches -----

    /** Drop the reference or free the copy of every entry, each once. */
    method ReleaseEntries(entries: seq<Entry>)
      modifies this`past
      ensures past == old(past).(released := old(past.released) + Buffers(entries))
    {
      for i := 0 to |entries|
        invariant past == old(past).(released := old(past.released) + Buffers(entries[..i]))
      {
        assert entries[..i + 1] == entries[..i] + [entries[i]];
        DataAppend(entries[..i], entries[i]);
        past := past.(released := past.released + [entries[i].buffer]);
      }
      assert entries[..|entries|] == entries;
    }

    /** The transport took the staged batch. */
    method HandOverBatch(at: nat, s: Stream, batch: Batch)
      requires Valid() && at < |list| && !staging && stagedBytes == Bytes(batch)
      modifies this`list, this`streams, this`pendingSends
      ensures Valid() && !staging
      ensures Model() == HandOver(old(Model()), old(list[at].id), s, batch)
    {
      hide Lists, Data, Items;
      var flags := s.flags.(finSent := s.flags.finSent || batch.fin);
      Store(at, s.(flags := flags, inflight := s.inflight + stagedBytes, sent := s.sent + stagedBytes,
            out := s.out + [batch], log := s.log.(handed := s.log.handed + Items(batch))));
      pendingSends := pendingSends + 1;
    }

    /** The transport refused it: no completion will come. */
    method RefuseBatch(at: nat, s: Stream, batch: Batch, byPeer: bool)
      requires Valid() && at < |list| && !staging
      modifies this`list, this`streams, this`past, this`latch
      ensures Valid() && !staging
      ensures Model() == Refuse(old(Model()), old(list[at].id), s, batch, byPeer)
    {
      hide Lists, Data, Buffers;
      Store(at, s);
      ReleaseEntries(batch.entries);
      past := past.(broken := true);
      if byPeer {
        latch := latch.(peerClosed := true);
      } else {
        latch := latch.(flushFailed := true);
      }
    }

    method BatchFlush(status: Status, control: set<Sid>)
      requires Valid()
      modifies this
      ensures Resting() && !staging && old(Linked(Model()))
      ensures Model() == Flush(old(Model()), status, control)
    {
      hide Captured, Lists, Data, Took, Buffers;
      if !staging {
        return;
      }
      var sid, batch := stagedSid, Batch(ents[..count], stagedFin);
      var at := Lookup(sid);
      var s := Captured(list[at].rec, sid in control);
      staging, stagedFin := false, false;
      if s.live && status.Success? {
        HandOverBatch(at, s, batch);
      } else {
        RefuseBatch(at, s, batch, s.live && status.Aborted?);
      }
    }

    method Drop(e: Entry)
      requires Resting()
      modifies this`past
      ensures Resting() && Model() == Discard(old(Model()), e)
    {
      if e.copied {
        past := past.(released := past.released + [e.buffer]);
      }
    }

    /** Start a batch for the stream unless one is being staged. */
    method OpenBatch(sid: Sid)
      requires Resting() && sid in streams && (staging ==> stagedSid == sid)
      modifies this`count, this`staging, this`stagedSid, this`stagedFin, this`stagedBytes
      ensures Resting() && staging && stagedSid == sid
      ensures Building() == if old(staging) then old(Building()) else Staged(sid, Batch([], false))
    {
      if !staging {
        count, staging, stagedSid, stagedFin, stagedBytes := 0, true, sid, false, 0;
      }
    }

    /** Put the entry at the end of the batch and count its bytes. */
    method WriteEntry(e: Entry, fin: bool)
      requires Resting() && staging
      modifies this`count, this`stagedFin, this`stagedBytes, ents
      ensures Valid() && count == old(count) + 1
      ensures ents[..count] == old(ents[..count]) + [e] && stagedFin == (old(stagedFin) || fin)
    {
      hide Data, Lists;
      ghost var before := ents[..count];
      DataAppend(before, e);
      ents[count] := e;
      count := count + 1;
      stagedBytes := stagedBytes + |e.data|;
      assert ents[..count] == before + [e];
      stagedFin := stagedFin || fin;
    }

    method Place(sid: Sid, e: Entry, fin: bool)
      requires Resting() && sid in streams && (staging ==> stagedSid == sid)
      modifies this`count, this`staging, this`stagedSid, this`stagedFin, this`stagedBytes, this`nextBuffer, ents
      ensures Valid() && staging && 0 < count && count == |Building().batch.entries|
      ensures Model() == Grown(old(Model()), sid, e, fin)
    {
      hide Data, Lists;
      OpenBatch(sid);
      WriteEntry(e, fin);
      if !e.copied {
        nextBuffer := nextBuffer + 1;
      }
    }

    method Stage(sid: Sid, e: Entry, fin: bool, env: Env) returns (r: Result)
      requires Resting() && sid in streams && (staging ==> stagedSid == sid)
      modifies this, ents
      ensures Resting()
      ensures (Model(), r) == AdapterSends.Stage(old(Model()), sid, e, fin, env)
    {
      hide Flush, Outcome, Accepting, Octets, Lists, Data;
      Place(sid, e, fin);
      if fin || count == BATCH_MAX {
        BatchFlush(env.second, env.control);
        r := Finish(sid, Octets(e.data) + EndMark(fin));
      } else {
        var at := Lookup(sid);
        Store(at, Accepting(list[at].rec, Octets(e.data)));
        r := Ok;
      }
    }

    /** The answer of an operation that has just flushed. */
    method Finish(sid: Sid, items: seq<Item>) returns (r: Result)
      requires Resting() && sid in streams
      modifies this`list, this`streams
      ensures Resting()
      ensures (Model(), r) == Outcome(old(Model()), sid, items)
    {
      hide Lists, Data, Accepting;
      if latch.flushFailed {
        return Error;
      }
      if latch.peerClosed {
        return WouldBlock;
      }
      var at := Lookup(sid);
      Store(at, Accepting(list[at].rec, items));
      return Ok;
    }

    method BatchAppend(sid: Sid, e: Entry, fin: bool, env: Env) returns (r: Result)
      requires Resting() && sid in streams
      modifies this, ents
      ensures Resting() && old(Linked(Model()))
      ensures (Model(), r) == Append(old(Model()), sid, e, fin, env)
    {
      hide Lists, Data, AdapterSends.Stage;
      if latch.peerClosed {
        Drop(e);
        return WouldBlock;
      }
      if staging && stagedSid != sid {
        BatchFlush(env.first, env.control);
        if latch.flushFailed {
          Drop(e);
          return Error;
        }
        if latch.peerClosed {
          Drop(e);
          return WouldBlock;
        }
      }
      if !staging && !env.record {
        Drop(e);
        return Error;
      }
      r := Stage(sid, e, fin, env);
    }

    // ----- endpoint operations -----

    /** The throttle, from the record and the running count of staged bytes. */
    method Blocks(at: nat, total: nat) returns (blocked: bool)
      requires Valid() && at < |list|
      ensures list[at].id in streams && (blocked <==> BudgetBlocks(Model(), list[at].id, total))
    {
      var s := list[at].rec;
      var ceiling := if s.ideal > BUDGET_MIN then s.ideal else BUDGET_MIN;
      var inflight := s.inflight + if staging && stagedSid == list[at].id then stagedBytes else 0;
      blocked := total != 0 && inflight != 0 && (inflight >= ceiling || total > ceiling - inflight);
    }

    method EndStream(sid: Sid, env: Env) returns (r: Result)
      requires Resting() && sid in streams
      modifies this, ents
      ensures Resting()
      ensures (Model(), r) == BareFin(old(Model()), sid, env)
    {
      hide Flush, Outcome, Accepting, Ended, Captured, Lists, Data;
      if staging && stagedSid == sid {
        stagedFin := true;
        BatchFlush(env.second, env.control);
        r := Finish(sid, [Fin]);
        return;
      }
      var at := Lookup(sid);
      var s := Captured(list[at].rec, sid in env.control);
      if !env.shutdown {
        Store(at, s);
        return Error;
      }
      Store(at, Accepting(Ended(s), [Fin]));
      return Ok;
    }

    method Write(sid: Sid, data: seq<Byte>, fin: bool, env: Env) returns (r: Result)
      requires Resting()
      modifies this, ents
      ensures Resting() && old(Linked(Model()))
      ensures (Model(), r) == AdapterSends.Write(old(Model()), sid, data, fin, env)
    {
      hide Append, BareFin, BudgetBlocks, Lists, Data;
      var at := Lookup(sid);
      if at < 0 || !list[at].rec.live {
        return Error;
      }
      if data == [] {
        if !fin {
          return Ok;
        }
        r := EndStream(sid, env);
        return;
      }
      if |data| > UINT32_MAX {
        return Error;
      }
      var blocked := Blocks(at, |data|);
      if blocked {
        return WouldBlock;
      }
      if !env.copy {
        return Error;
      }
      nextBuffer := nextBuffer + 1;
      r := BatchAppend(sid, Entry(nextBuffer - 1, true, data), fin, env);
    }

    method WritePayload(sid: Sid, data: seq<Byte>, fin: bool, env: Env) returns (r: Result)
      requires Resting()
      modifies this, ents
      ensures Resting() && old(Linked(Model()))
      ensures (Model(), r) == AdapterSends.WritePayload(old(Model()), sid, data, fin, env)
    {
      hide Append, BudgetBlocks, Lists, Data;
      var at := Lookup(sid);
      if at < 0 || !list[at].rec.live {
        return Error;
      }
      if |data| > UINT32_MAX {
        return Error;
      }
      var blocked := Blocks(at, |data|);
      if blocked {
        return WouldBlock;
      }
      r := BatchAppend(sid, Entry(nextBuffer, false, data), fin, env);
    }

    method ResetStream(sid: Sid, env: Env) returns (r: Result)
      requires Resting()
      modifies this
      ensures Resting() && old(Linked(Model()))
      ensures (Model(), r) == Reset(old(Model()), sid, env)
    {
      hide Flush, Lists, Data, AbortSend;
      BatchFlush(env.second, env.control);
      if latch.flushFailed {
        return Error;
      }
      var at := Lookup(sid);
      if at < 0 || !list[at].rec.live || list[at].rec.flags.committed || list[at].rec.flags.resetSent {
        return Ok;
      }
      r := Abort(at, env);
    }

    method ResetStreamAt(sid: Sid, reliable: nat, env: Env) returns (r: Result)
      requires Resting()
      modifies this
      ensures Resting() && old(Linked(Model()))
      ensures (Model(), r) == ResetAt(old(Model()), sid, reliable, env)
    {
      hide Flush, Lists, Data, AbortSend;
      BatchFlush(env.second, env.control);
      if latch.flushFailed {
        return Error;
      }
      var at := Lookup(sid);
      if at < 0 || !list[at].rec.live {
        return Ok;
      }
      var s := list[at].rec;
      if s.flags.committed || s.flags.resetSent {
        return Ok;
      }
      if !reliableReset || reliable > s.sent || latch.closePending || s.flags.sendCanceled {
        return Dropped;
      }
      if s.acked < reliable {
        return if s.inflight > 0 then WouldBlock else Dropped;
      }
      r := Abort(at, env);
    }

    method Abort(at: nat, env: Env) returns (r: Result)
      requires Resting() && at < |list|
      modifies this`list, this`streams
      ensures Resting() && old(list[at].id) in old(streams)
      ensures (Model(), r) == AbortSend(old(Model()), old(list[at].id), env)
    {
      var sid := list[at].id;
      var s := Captured(list[at].rec, sid in env.control);
      if !env.shutdown {
        Store(at, s);
        return Error;
      }
      Store(at, Withdrawn(s));
      return Ok;
    }

    // ----- events -----

    method OnSendComplete(sid: Sid, canceled: bool)
      requires Resting() && sid in streams && streams[sid].out != []
      modifies this
      ensures Resting()
      ensures Model() == SendComplete(old(Model()), sid, canceled)
    {
      hide Completed, Loses, Buffers, Lists, Data;
      var at := Lookup(sid);
      var batch, s := list[at].rec.out[0], Completed(list[at].rec, canceled);
      Store(at, s);
      latch := NoteLoss(latch, canceled && Loses(s));
      pendingSends := pendingSends - 1;
      ReleaseEntries(batch.entries);
    }

    method OnSendShutdownComplete(sid: Sid, graceful: bool)
      requires Resting() && sid in streams
      modifies this
      ensures Resting()
      ensures Model() == SendShutdownComplete(old(Model()), sid, graceful)
    {
      hide Loses, Lists, Data;
      var at := Lookup(sid);
      var s := list[at].rec;
      var f := s.flags.(shutdownComplete := true);
      if !graceful {
        Store(at, s.(flags := f.(aborted := true)));
        latch := NoteLoss(latch, Loses(s));
        return;
      }
      if !AckRefused(latch, s.flags) {
        f := f.(finAcked := true, committed := f.committed || (s.isLocal && !s.isBidi));
      }
      Store(at, s.(flags := f));
    }

    method OnPeerReceiveAborted(sid: Sid, control: set<Sid>)
      requires Resting() && sid in streams
      modifies this
      ensures Resting()
      ensures Model() == PeerStops(old(Model()), sid, control)
    {
      hide Lists, Data, Captured, Stopped;
      var at := Lookup(sid);
      var s := Captured(list[at].rec, sid in control);
      StoppedSo(s);
      var f := s.flags;
      if (s.isLocal || s.isBidi) && !f.control {
        f := f.(withdrawn := true);
      }
      Store(at, s.(flags := f.(aborted := true)));
    }

    method OnShutdownComplete(sid: Sid, kept: bool)
      requires Resting() && sid in streams && (staging ==> stagedSid != sid)
      modifies this
      ensures Resting()
      ensures Model() == ShutdownComplete(old(Model()), sid, kept)
    {
      hide Loses, Lists, Data;
      var at := Lookup(sid);
      var s := list[at].rec;
      latch := NoteLoss(latch, Loses(s));
      Store(at, s.(live := false));
      if !kept {
        at := Lookup(sid);
        FreeRecord(at);
      }
    }

    /** The flush barrier, scanning every stream record. */
    method PollFlush(ended: bool, quiet: bool) returns (p: Poll)
      requires Resting()
      ensures p == AdapterSends.PollFlush(Model(), ended, quiet)
    {
      if ended || Over(latch) {
        return PollClosed;
      }
      if latch.outputLost {
        return PollInternal;
      }
      if !quiet || staging || pendingSends != 0 {
        return PollDone;
      }
      for i := 0 to |list|
        invariant forall j :: 0 <= j < i ==> !Unsettled(list[j].rec.flags)
      {
        if Unsettled(list[i].rec.flags) {
          assert list[i].id in streams;
          return PollDone;
        }
      }
      forall sid | sid in streams
        ensures !Unsettled(streams[sid].flags)
      {
        assert Has(list, sid);
      }
      return PollOk;
    }
  }
}

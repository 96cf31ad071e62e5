/**
 What every operation of the sending half keeps: totals and logs of each
 stream, buffer ownership, the count of pending sends, and the record of loss.
 */
module AdapterSafety {
  import opened StreamItems
  import opened AdapterSends
  import opened MapTotals

  // ----- contents -----

  ghost function Payload(items: seq<Item>): seq<Byte> {
    if items == [] then []
    else if items[0].Octet? then [items[0].byte] + Payload(items[1..])
    else Payload(items[1..])
  }

  lemma {:induction false} PayloadConcat(a: seq<Item>, b: seq<Item>)
    ensures Payload(a + b) == Payload(a) + Payload(b)
  {
    if a == [] {
      assert a + b == b;
    } else {
      PayloadConcat(a[1..], b);
      assert (a + b)[1..] == a[1..] + b;
      assert Payload(a + b) == (if a[0].Octet? then [a[0].byte] else []) + Payload(a[1..] + b);
    }
  }

  lemma {:induction false} PayloadOctets(data: seq<Byte>)
    ensures Payload(Octets(data)) == data
  {
    if data != [] {
      PayloadOctets(data[1..]);
      assert Octets(data)[1..] == Octets(data[1..]);
    }
  }

  lemma PayloadItems(b: Batch)
    ensures Payload(Items(b)) == Data(b.entries)
    ensures b.fin <==> Fin in Items(b)
  {
    PayloadConcat(Octets(Data(b.entries)), EndMark(b.fin));
    PayloadOctets(Data(b.entries));
    assert Fin !in Octets(Data(b.entries));
  }

  lemma {:induction false} DataAppend(entries: seq<Entry>, e: Entry)
    ensures Data(entries + [e]) == Data(entries) + e.data
    ensures Buffers(entries + [e]) == Buffers(entries) + [e.buffer]
  {
    if entries == [] {
      assert entries + [e] == [e];
      assert Data([e]) == e.data + Data([]) && Buffers([e]) == [e.buffer] + Buffers([]);
    } else {
      DataAppend(entries[1..], e);
      assert (entries + [e])[1..] == entries[1..] + [e];
    }
  }

  ghost function OutData(out: seq<Batch>): seq<Byte> {
    if out == [] then [] else Data(out[0].entries) + OutData(out[1..])
  }

  ghost function OutBuffers(out: seq<Batch>): seq<Buffer> {
    if out == [] then [] else Buffers(out[0].entries) + OutBuffers(out[1..])
  }

  lemma OutHead(out: seq<Batch>)
    requires out != []
    ensures OutData(out) == Data(out[0].entries) + OutData(out[1..])
    ensures OutBuffers(out) == Buffers(out[0].entries) + OutBuffers(out[1..])
  {
  }

  lemma {:induction false} OutAppend(out: seq<Batch>, b: Batch)
    ensures OutData(out + [b]) == OutData(out) + Data(b.entries)
    ensures OutBuffers(out + [b]) == OutBuffers(out) + Buffers(b.entries)
  {
    hide Data, Buffers;
    if out == [] {
      assert out + [b] == [b];
      assert OutData([b]) == Data(b.entries) + OutData([]) && OutBuffers([b]) == Buffers(b.entries) + OutBuffers([]);
    } else {
      OutAppend(out[1..], b);
      assert (out + [b])[1..] == out[1..] + [b];
    }
  }

  // ----- one stream -----

  ghost predicate BatchOk(b: Batch) { 1 <= |b.entries| <= BATCH_MAX }

  /** Totals agree with the batches in flight; without a canceled byte the acknowledged bytes are the prefix of what
      was handed over, and what is in flight is the rest. */
  ghost predicate TotalsOk(s: Stream) {
    && s.inflight == |OutData(s.out)|
    && s.sent == s.acked + s.log.lost + |OutData(s.out)|
    && |s.log.acked| == s.acked
    && (s.log.lost == 0 ==> Payload(s.log.handed) == s.log.acked + OutData(s.out))
    && (s.log.lost > 0 ==> s.flags.sendCanceled)
    && (s.flags.finSent <==> Fin in s.log.handed)
    && forall k :: 0 <= k < |s.out| ==> BatchOk(s.out[k])
  }

  /** Bytes go missing only on a withdrawn stream or with the loss recorded; so does a stream's end. */
  ghost predicate LossOk(s: Stream, outputLost: bool) {
    && (s.flags.withdrawn ==> s.flags.resetSent || s.flags.aborted)
    && (!s.live ==> s.out == [])
    && (!outputLost && !s.flags.withdrawn ==> s.log.lost == 0 && (!s.live ==> !Loses(s)))
  }

  ghost predicate StreamOk(s: Stream, outputLost: bool) { TotalsOk(s) && LossOk(s, outputLost) }

  lemma TookOk(s: Stream, b: Batch, lost: bool)
    requires StreamOk(s, lost) && BatchOk(b) && s.live
    ensures StreamOk(Took(s, b), lost) && Took(s, b).live
  {
    hide TotalsOk, Items;
    TookTotals(s, b);
  }

  lemma TookTotals(s: Stream, b: Batch)
    requires TotalsOk(s) && BatchOk(b)
    ensures TotalsOk(Took(s, b))
  {
    hide Payload, OutData, Data, Items, BatchOk;
    OutAppend(s.out, b);
    TookPayload(s, b);
  }

  lemma TookPayload(s: Stream, b: Batch)
    ensures Payload(s.log.handed) == s.log.acked + OutData(s.out) ==>
              Payload(Took(s, b).log.handed) == s.log.acked + (OutData(s.out) + Data(b.entries))
    ensures Fin in Took(s, b).log.handed <==> Fin in s.log.handed || b.fin
  {
    hide Payload, OutData, Data, Items;
    PayloadItems(b);
    PayloadConcat(s.log.handed, Items(b));
    assert s.log.acked + OutData(s.out) + Data(b.entries) == s.log.acked + (OutData(s.out) + Data(b.entries));
  }

  lemma MoveFront(acked: seq<Byte>, front: seq<Byte>, rest: seq<Byte>)
    ensures acked + (front + rest) == acked + front + rest
    ensures |front| == 0 ==> acked + (front + rest) == acked + rest
  {
  }

  lemma CompletedOk(s: Stream, canceled: bool, lost: bool)
    requires StreamOk(s, lost) && s.out != []
    ensures StreamOk(Completed(s, canceled), lost || (canceled && Loses(Completed(s, canceled))))
    ensures Completed(s, canceled).live == s.live
    ensures Completed(s, canceled).log.handed == s.log.handed && Completed(s, canceled).log.accepted == s.log.accepted
  {
    hide Payload, OutData, Data;
    var b, rest := s.out[0], s.out[1..];
    OutHead(s.out);
    MoveFront(s.log.acked, Data(b.entries), OutData(rest));
  }

  lemma EndedOk(s: Stream, lost: bool)
    requires StreamOk(s, lost) && s.live
    ensures StreamOk(Ended(s), lost)
  {
    PayloadConcat(s.log.handed, [Fin]);
    assert Payload([Fin]) == [];
  }

  /** Raising marks other than an end or a cancellation. */
  ghost predicate Raised(f: Flags, after: Flags) {
    && after.sendCanceled == f.sendCanceled && after.finSent == f.finSent
    && (f.finAcked ==> after.finAcked) && (f.withdrawn ==> after.withdrawn)
    && (after.withdrawn ==> after.resetSent || after.aborted)
  }

  lemma RaisedOk(s: Stream, f: Flags, lost: bool)
    requires StreamOk(s, lost) && Raised(s.flags, f)
    ensures StreamOk(s.(flags := f), lost)
  {
    hide Payload, OutData, BatchOk;
  }

  lemma CapturedOk(s: Stream, control: bool, lost: bool)
    requires StreamOk(s, lost)
    ensures StreamOk(Captured(s, control), lost) && SameOutput(s, Captured(s, control))
  {
    RaisedOk(s, Captured(s, control).flags, lost);
    hide StreamOk;
  }

  ghost predicate SameOutput(s: Stream, after: Stream) {
    after.out == s.out && after.log.accepted == s.log.accepted && after.log.handed == s.log.handed
  }

  // ----- the connection -----

  function InFlight(s: Stream): nat { |s.out| }

  ghost predicate BuildingOk(c: Conn) {
    c.building.Staged? ==> c.building.sid in c.streams && c.streams[c.building.sid].live && BatchOk(c.building.batch)
  }

  ghost predicate AllOk(streams: map<Sid, Stream>, lost: bool) {
    forall sid :: sid in streams ==> StreamOk(streams[sid], lost)
  }

  ghost predicate Gone(retired: map<Sid, Stream>) { forall sid :: sid in retired ==> !retired[sid].live }

  ghost predicate StreamsOk(c: Conn) {
    && AllOk(c.streams, c.latch.outputLost) && AllOk(c.past.retired, c.latch.outputLost) && Gone(c.past.retired)
    && c.streams.Keys !! c.past.retired.Keys
  }

  ghost predicate Counted(c: Conn) { c.pendingSends == Total(c.streams, InFlight) }

  ghost predicate FlagsOk(c: Conn) {
    && (c.past.broken ==> c.latch.flushFailed || c.latch.fatal || c.latch.peerClosed)
    && (c.latch.flushFailed ==> c.past.broken)
  }

  /** Holds at every point, inside operations too. */
  ghost predicate Core(c: Conn) { BuildingOk(c) && StreamsOk(c) && Counted(c) && FlagsOk(c) }

  /** Between operations no staged batch is full or ends its stream. */
  ghost predicate Rested(c: Conn) {
    c.building.Staged? ==> !c.building.batch.fin && |c.building.batch.entries| < BATCH_MAX
  }

  // ----- meaning: what was accepted is what was handed over and what is staged -----

  ghost function StagedItems(building: Staging, sid: Sid): seq<Item> {
    if building.Staged? && building.sid == sid then Items(building.batch) else []
  }

  ghost predicate Complete(s: Stream, staged: seq<Item>) { s.log.accepted == s.log.handed + staged }

  ghost predicate AllComplete(streams: map<Sid, Stream>, building: Staging) {
    forall sid :: sid in streams ==> Complete(streams[sid], StagedItems(building, sid))
  }

  ghost predicate Faithful(c: Conn) {
    !c.past.broken && !c.latch.peerClosed ==>
      AllComplete(c.streams, c.building) && AllComplete(c.past.retired, Nothing)
  }

  lemma CompleteAt(streams: map<Sid, Stream>, building: Staging, sid: Sid)
    requires AllComplete(streams, building) && sid in streams
    ensures Complete(streams[sid], StagedItems(building, sid))
  {
  }

  lemma PutComplete(streams: map<Sid, Stream>, building: Staging, sid: Sid, s: Stream)
    requires AllComplete(streams, building) && Complete(s, StagedItems(building, sid))
    ensures AllComplete(streams[sid := s], building)
  {
    hide Complete, Items;
  }

  lemma StageComplete(streams: map<Sid, Stream>, before: Staging, after: Staging, sid: Sid, s: Stream)
    requires AllComplete(streams, before) && Complete(s, StagedItems(after, sid))
    requires (before.Staged? ==> before.sid == sid) && (after.Staged? ==> after.sid == sid)
    ensures AllComplete(streams[sid := s], after)
  {
    hide Complete, Items;
  }

  // ----- ownership: every buffer taken is held in one place or was released once -----

  ghost function Holds(t: Buffer): Stream -> nat { (s: Stream) => multiset(OutBuffers(s.out))[t] }

  ghost function StagedBuffers(c: Conn): seq<Buffer> {
    if c.building.Staged? then Buffers(c.building.batch.entries) else []
  }

  ghost function Count(c: Conn, t: Buffer): nat {
    multiset(c.past.released)[t] + multiset(StagedBuffers(c))[t] + Total(c.streams, Holds(t))
  }

  /** Of the buffers taken so far all but those in hand are accounted for exactly once. */
  ghost predicate Owned(c: Conn, inHand: set<Buffer>) {
    forall t: Buffer :: Count(c, t) == if t < c.nextBuffer && t !in inHand then 1 else 0
  }

  ghost predicate Inv(c: Conn) { Core(c) && Rested(c) && Faithful(c) && Owned(c, {}) }

  // ----- an update of one stream that leaves its batches and logs alone -----

  /** Replacing one stream changes the totals by that stream alone. */
  lemma ReplaceTotals(streams: map<Sid, Stream>, sid: Sid, s: Stream, t: Buffer)
    requires sid in streams
    ensures Total(streams[sid := s], Holds(t)) == Total(streams, Holds(t)) - Holds(t)(streams[sid]) + Holds(t)(s)
    ensures Total(streams[sid := s], InFlight) == Total(streams, InFlight) - |streams[sid].out| + |s.out|
  {
    TotalRemove(streams, sid, Holds(t));
    TotalSet(streams, sid, s, Holds(t));
    TotalRemove(streams, sid, InFlight);
    TotalSet(streams, sid, s, InFlight);
  }

  lemma PutCounts(c: Conn, sid: Sid, s: Stream, t: Buffer)
    requires sid in c.streams && s.out == c.streams[sid].out
    ensures Count(Put(c, sid, s), t) == Count(c, t)
    ensures Counted(c) ==> Counted(Put(c, sid, s))
  {
    ReplaceTotals(c.streams, sid, s, t);
  }

  lemma PutOwned(c: Conn, sid: Sid, s: Stream, inHand: set<Buffer>)
    requires sid in c.streams && s.out == c.streams[sid].out && Owned(c, inHand)
    ensures Owned(Put(c, sid, s), inHand)
  {
    forall t: Buffer
      ensures Count(Put(c, sid, s), t) == Count(c, t)
    {
      PutCounts(c, sid, s, t);
    }
    hide Count;
  }

  lemma AllAt(streams: map<Sid, Stream>, sid: Sid, lost: bool)
    requires AllOk(streams, lost) && sid in streams
    ensures StreamOk(streams[sid], lost)
  {
  }

  lemma PutOk(streams: map<Sid, Stream>, sid: Sid, s: Stream, lost: bool)
    requires sid in streams && AllOk(streams, lost) && StreamOk(s, lost)
    ensures AllOk(streams[sid := s], lost) && streams[sid := s].Keys == streams.Keys
  {
    hide StreamOk;
  }

  lemma PutCore(c: Conn, sid: Sid, s: Stream)
    requires Core(c) && sid in c.streams && s.out == c.streams[sid].out
    requires s.live == c.streams[sid].live || (c.building.Staged? ==> c.building.sid != sid)
    requires StreamOk(s, c.latch.outputLost)
    ensures Core(Put(c, sid, s))
  {
    hide AllOk, Gone, StreamOk, BatchOk, Counted;
    PutCounts(c, sid, s, 0);
    PutOk(c.streams, sid, s, c.latch.outputLost);
  }

  lemma PutKeeps(c: Conn, sid: Sid, s: Stream)
    requires Inv(c) && sid in c.streams && SameOutput(c.streams[sid], s)
    requires s.live == c.streams[sid].live || (c.building.Staged? ==> c.building.sid != sid)
    requires StreamOk(s, c.latch.outputLost)
    ensures Inv(Put(c, sid, s))
  {
    hide Core, Owned, Items, AllComplete;
    PutCore(c, sid, s);
    PutOwned(c, sid, s, {});
    if !c.past.broken && !c.latch.peerClosed {
      CompleteAt(c.streams, c.building, sid);
      PutComplete(c.streams, c.building, sid, s);
    }
  }

  // ----- flushing -----

  lemma TookHolds(s: Stream, b: Batch, t: Buffer)
    ensures Holds(t)(Took(s, b)) == Holds(t)(s) + multiset(Buffers(b.entries))[t]
    ensures |Took(s, b).out| == |s.out| + 1
  {
    OutAppend(s.out, b);
  }

  lemma HandOverCounts(c: Conn, sid: Sid, s: Stream, t: Buffer)
    requires c.building.Staged? && sid == c.building.sid && sid in c.streams && s.out == c.streams[sid].out
             && Counted(c)
    ensures var after := HandOver(c, sid, s, c.building.batch); Count(after, t) == Count(c, t) && Counted(after)
  {
    hide Buffers, Took, OutBuffers, Total;
    TookHolds(s, c.building.batch, t);
    ReplaceTotals(c.streams, sid, Took(s, c.building.batch), t);
  }

  lemma RefuseCounts(c: Conn, sid: Sid, s: Stream, byPeer: bool, t: Buffer)
    requires c.building.Staged? && sid == c.building.sid && sid in c.streams && s.out == c.streams[sid].out
             && Counted(c)
    ensures var after := Refuse(c, sid, s, c.building.batch, byPeer); Count(after, t) == Count(c, t) && Counted(after)
  {
    hide Buffers, OutBuffers, Total;
    ReplaceTotals(c.streams, sid, s, t);
  }

  lemma FlushCounts(c: Conn, status: Status, control: set<Sid>, t: Buffer)
    requires Linked(c) && Counted(c)
    ensures Count(Flush(c, status, control), t) == Count(c, t)
    ensures Counted(Flush(c, status, control))
  {
    if c.building.Staged? {
      var sid := c.building.sid;
      var s := Captured(c.streams[sid], sid in control);
      HandOverCounts(c, sid, s, t);
      RefuseCounts(c, sid, s, s.live && status.Aborted?, t);
      hide Count, Counted, HandOver, Refuse;
    }
  }

  lemma FlushCore(c: Conn, status: Status, control: set<Sid>)
    requires Core(c)
    ensures Core(Flush(c, status, control)) && Rested(Flush(c, status, control))
  {
    hide AllOk, StreamOk, BatchOk, HandOver, Refuse, Gone, Counted, Captured, FlagsOk;
    if c.building.Staged? {
      var sid := c.building.sid;
      var s := Captured(c.streams[sid], sid in control);
      AllAt(c.streams, sid, c.latch.outputLost);
      CapturedOk(c.streams[sid], sid in control, c.latch.outputLost);
      if s.live && status.Success? {
        HandOverCore(c, s);
      } else {
        RefuseCore(c, s, s.live && status.Aborted?);
      }
      hide Core, Rested;
    }
  }

  lemma HandOverCore(c: Conn, s: Stream)
    requires Core(c) && c.building.Staged? && s.live && StreamOk(s, c.latch.outputLost)
    requires s.out == c.streams[c.building.sid].out
    ensures Core(HandOver(c, c.building.sid, s, c.building.batch))
  {
    hide AllOk, Gone, StreamOk, BatchOk, Took, Counted;
    var sid, b := c.building.sid, c.building.batch;
    HandOverCounts(c, sid, s, 0);
    TookOk(s, b, c.latch.outputLost);
    PutOk(c.streams, sid, Took(s, b), c.latch.outputLost);
  }

  lemma RefuseCore(c: Conn, s: Stream, byPeer: bool)
    requires Core(c) && c.building.Staged? && StreamOk(s, c.latch.outputLost)
    requires s.out == c.streams[c.building.sid].out
    ensures Core(Refuse(c, c.building.sid, s, c.building.batch, byPeer))
  {
    hide AllOk, Gone, StreamOk, BatchOk, Counted, Buffers;
    RefuseCounts(c, c.building.sid, s, byPeer, 0);
    PutOk(c.streams, c.building.sid, s, c.latch.outputLost);
  }

  lemma FlushFaithful(c: Conn, status: Status, control: set<Sid>)
    requires Core(c) && Faithful(c)
    ensures Faithful(Flush(c, status, control))
  {
    hide StreamsOk, Counted, BatchOk, Items, AllComplete, Buffers, Bytes;
    if c.building.Staged? && !c.past.broken && !c.latch.peerClosed {
      var sid, b := c.building.sid, c.building.batch;
      var s := Captured(c.streams[sid], sid in control);
      CompleteAt(c.streams, c.building, sid);
      StageComplete(c.streams, c.building, Nothing, sid, Took(s, b));
    }
  }

  lemma FlushOwned(c: Conn, status: Status, control: set<Sid>, inHand: set<Buffer>)
    requires Core(c) && Owned(c, inHand)
    ensures Owned(Flush(c, status, control), inHand)
  {
    forall t: Buffer
      ensures Count(Flush(c, status, control), t) == Count(c, t)
    {
      FlushCounts(c, status, control, t);
    }
    hide Core, Count;
  }
}

/** Every operation and event of the sending half keeps its invariant. */
module AdapterOps {
  import opened StreamItems
  import opened AdapterSends
  import opened AdapterSafety
  import opened MapTotals

  // ----- staging -----

  /** The buffer of a write in progress: a copy already taken, or a payload about to be referenced. */
  ghost predicate InHand(c: Conn, e: Entry) {
    if e.copied then e.buffer < c.nextBuffer && Owned(c, {e.buffer}) else e.buffer == c.nextBuffer && Owned(c, {})
  }

  ghost predicate Midway(c: Conn, e: Entry) { Core(c) && Rested(c) && Faithful(c) && InHand(c, e) }

  ghost predicate StagesFor(c: Conn, sid: Sid) {
    sid in c.streams && c.streams[sid].live && (c.building.Staged? ==> c.building.sid == sid)
  }

  lemma GrownItems(b: Batch, e: Entry, fin: bool)
    requires !b.fin
    ensures Items(Batch(b.entries + [e], fin)) == Items(b) + (Octets(e.data) + EndMark(fin))
  {
    DataAppend(b.entries, e);
    OctetsConcat(Data(b.entries), e.data);
  }

  lemma GrownCore(c: Conn, sid: Sid, e: Entry, fin: bool)
    requires Core(c) && Rested(c) && StagesFor(c, sid)
    ensures Core(Grown(c, sid, e, fin))
  {
  }

  lemma GrownCount(c: Conn, sid: Sid, e: Entry, fin: bool, t: Buffer)
    requires StagesFor(c, sid)
    ensures Count(Grown(c, sid, e, fin), t) == Count(c, t) + if t == e.buffer then 1 else 0
  {
    DataAppend(if c.building.Staged? then c.building.batch.entries else [], e);
    hide Total, Buffers;
  }

  lemma GrownOwned(c: Conn, sid: Sid, e: Entry, fin: bool)
    requires StagesFor(c, sid) && InHand(c, e)
    ensures Owned(Grown(c, sid, e, fin), {})
  {
    forall t: Buffer
      ensures Count(Grown(c, sid, e, fin), t) == Count(c, t) + if t == e.buffer then 1 else 0
    {
      GrownCount(c, sid, e, fin, t);
    }
    hide Count;
  }

  lemma CompleteGrows(s: Stream, staged: seq<Item>, items: seq<Item>)
    requires Complete(s, staged)
    ensures Complete(Accepting(s, items), staged + items)
  {
    assert s.log.handed + staged + items == s.log.handed + (staged + items);
  }

  lemma GrownFaithful(c: Conn, sid: Sid, e: Entry, fin: bool)
    requires Faithful(c) && Rested(c) && StagesFor(c, sid)
    ensures Faithful(Accepted(Grown(c, sid, e, fin), sid, Octets(e.data) + EndMark(fin)))
  {
    hide Items, Octets, EndMark, AllComplete, Complete, Accepting;
    var b := if c.building.Staged? then c.building.batch else Batch([], false);
    var items := Octets(e.data) + EndMark(fin);
    GrownItems(b, e, fin);
    NoItems();
    if !c.past.broken && !c.latch.peerClosed {
      CompleteAt(c.streams, c.building, sid);
      CompleteGrows(c.streams[sid], Items(b), items);
      StageComplete(c.streams, c.building, Grown(c, sid, e, fin).building, sid, Accepting(c.streams[sid], items));
    }
  }

  lemma NoItems()
    ensures Items(Batch([], false)) == []
  {
  }

  /** What a flush hands over and what is then accepted agree, given that they did before the flush. */
  lemma FlushAccepted(c: Conn, sid: Sid, items: seq<Item>, status: Status, control: set<Sid>)
    requires Linked(c) && c.building.Staged? && c.building.sid == sid && Faithful(Accepted(c, sid, items))
    ensures Faithful(Accepted(Flush(c, status, control), sid, items))
  {
    hide Items, Buffers, Bytes, AllComplete;
    var after := Flush(c, status, control);
    if !after.past.broken && !after.latch.peerClosed {
      var b, s := c.building.batch, Captured(c.streams[sid], sid in control);
      var asked := c.streams[sid := Accepting(c.streams[sid], items)];
      CompleteAt(asked, c.building, sid);
      StageComplete(asked, c.building, Nothing, sid, Accepting(Took(s, b), items));
      assert Accepted(after, sid, items).streams == asked[sid := Accepting(Took(s, b), items)];
    }
  }

  lemma AcceptingOk(s: Stream, items: seq<Item>, lost: bool)
    requires StreamOk(s, lost)
    ensures StreamOk(Accepting(s, items), lost) && Accepting(s, items).out == s.out
            && Accepting(s, items).live == s.live
  {
    hide Payload, OutData, BatchOk;
  }

  lemma AcceptedCore(c: Conn, sid: Sid, items: seq<Item>)
    requires Core(c) && sid in c.streams
    ensures Core(Accepted(c, sid, items))
    ensures Owned(c, {}) ==> Owned(Accepted(c, sid, items), {})
    ensures Rested(c) ==> Rested(Accepted(c, sid, items))
  {
    var s := c.streams[sid];
    AcceptingOk(s, items, c.latch.outputLost);
    PutCore(c, sid, Accepting(s, items));
    if Owned(c, {}) {
      PutOwned(c, sid, Accepting(s, items), {});
    }
    hide Core, Owned;
  }

  /** A flush that ends an operation: whatever the transport answers, nothing is unaccounted for. */
  lemma OutcomeKeeps(c: Conn, sid: Sid, items: seq<Item>, status: Status, control: set<Sid>)
    requires Core(c) && Owned(c, {}) && c.building.Staged? && c.building.sid == sid
    requires Faithful(Accepted(c, sid, items))
    ensures Inv(Outcome(Flush(c, status, control), sid, items).0)
  {
    var c1 := Flush(c, status, control);
    FlushCore(c, status, control);
    FlushOwned(c, status, control, {});
    if !c1.latch.flushFailed && !c1.latch.peerClosed {
      FlushAccepted(c, sid, items, status, control);
      AcceptedCore(c1, sid, items);
    }
    hide Flush, Owned, AllOk, Gone, Counted, BuildingOk, StreamsOk;
  }

  lemma StageKeeps(c: Conn, sid: Sid, e: Entry, fin: bool, env: Env)
    requires Midway(c, e) && StagesFor(c, sid)
    ensures Inv(Stage(c, sid, e, fin, env).0)
  {
    var c2 := Grown(c, sid, e, fin);
    GrownCore(c, sid, e, fin);
    GrownOwned(c, sid, e, fin);
    GrownFaithful(c, sid, e, fin);
    assert c2.building.Staged? && c2.building.sid == sid;
    assert fin || |c2.building.batch.entries| == BATCH_MAX || Rested(c2);
    assert Octets(e.data) + EndMark(false) == Octets(e.data);
    hide Grown, Core, Owned, Faithful, Octets;
    if fin || |c2.building.batch.entries| == BATCH_MAX {
      OutcomeKeeps(c2, sid, Octets(e.data) + EndMark(fin), env.second, env.control);
    } else {
      AcceptedCore(c2, sid, Octets(e.data));
    }
  }

  lemma DiscardCount(c: Conn, e: Entry, t: Buffer)
    requires e.copied
    ensures Count(Discard(c, e), t) == Count(c, t) + if t == e.buffer then 1 else 0
  {
    hide Total, Buffers;
  }

  lemma DiscardOwned(c: Conn, e: Entry)
    requires InHand(c, e)
    ensures Owned(Discard(c, e), {})
  {
    if e.copied {
      forall t: Buffer
        ensures Count(Discard(c, e), t) == Count(c, t) + if t == e.buffer then 1 else 0
      {
        DiscardCount(c, e, t);
      }
      hide Count;
    }
  }

  lemma DiscardKeeps(c: Conn, e: Entry)
    requires Midway(c, e)
    ensures Inv(Discard(c, e))
  {
    DiscardOwned(c, e);
    hide Owned, AllOk, Gone, AllComplete, Total, BatchOk;
  }

  lemma FlushFrame(c: Conn, sid: Sid, status: Status, control: set<Sid>)
    requires Linked(c)
    ensures Flush(c, status, control).nextBuffer == c.nextBuffer && Flush(c, status, control).building.Nothing?
    ensures sid in Flush(c, status, control).streams <==> sid in c.streams
    ensures sid in c.streams ==> Flush(c, status, control).streams[sid].live == c.streams[sid].live
  {
    hide Items, Bytes, Buffers;
  }

  lemma SwitchKeeps(c: Conn, sid: Sid, e: Entry, status: Status, control: set<Sid>)
    requires Midway(c, e) && sid in c.streams && c.streams[sid].live
    ensures Midway(Flush(c, status, control), e) && StagesFor(Flush(c, status, control), sid)
  {
    FlushCore(c, status, control);
    FlushFaithful(c, status, control);
    FlushOwned(c, status, control, if e.copied then {e.buffer} else {});
    FlushFrame(c, sid, status, control);
    hide Flush, Core, Owned, Faithful;
  }

  lemma AppendKeeps(c: Conn, sid: Sid, e: Entry, fin: bool, env: Env)
    requires Midway(c, e) && sid in c.streams && c.streams[sid].live
    ensures Inv(Append(c, sid, e, fin, env).0)
  {
    assert Linked(c);
    SwitchKeeps(c, sid, e, env.first, env.control);
    hide Midway, Inv, Flush, Stage, Discard;
    DiscardKeeps(c, e);
    var c1 := Flush(c, env.first, env.control);
    DiscardKeeps(c1, e);
    StageKeeps(c1, sid, e, fin, env);
    if c.building.Staged? ==> c.building.sid == sid {
      StageKeeps(c, sid, e, fin, env);
    }
  }

  // ----- operations -----

  lemma BareFinKeeps(c: Conn, sid: Sid, env: Env)
    requires Inv(c) && sid in c.streams && c.streams[sid].live
    ensures Inv(BareFin(c, sid, env).0)
  {
    if c.building.Staged? && c.building.sid == sid {
      var b := c.building.batch;
      var c1 := c.(building := Staged(sid, b.(fin := true)));
      RidingFin(c, sid);
      hide Inv, Core, Owned, Faithful;
      OutcomeKeeps(c1, sid, [Fin], env.second, env.control);
    } else {
      var s := Captured(c.streams[sid], sid in env.control);
      GracefulFin(c, sid, sid in env.control);
      CapturedOk(c.streams[sid], sid in env.control, c.latch.outputLost);
      PutKeeps(c, sid, s);
      hide Inv;
    }
  }

  /** The end mark rides the staged batch. */
  lemma RidingFin(c: Conn, sid: Sid)
    requires Inv(c) && c.building.Staged? && c.building.sid == sid
    ensures var c1 := c.(building := Staged(sid, c.building.batch.(fin := true)));
            Core(c1) && Owned(c1, {}) && Faithful(Accepted(c1, sid, [Fin]))
  {
    hide Count, Items, Complete, AllComplete, AllOk, Gone, Accepting, Buffers, Counted;
    var b := c.building.batch;
    FinItems(b);
    if !c.past.broken && !c.latch.peerClosed {
      CompleteAt(c.streams, c.building, sid);
      CompleteGrows(c.streams[sid], Items(b), [Fin]);
      StageComplete(c.streams, c.building, Staged(sid, b.(fin := true)), sid, Accepting(c.streams[sid], [Fin]));
    }
    FinCounts(c, sid);
  }

  lemma FinItems(b: Batch)
    requires !b.fin
    ensures Items(b.(fin := true)) == Items(b) + [Fin]
  {
  }

  lemma FinCounts(c: Conn, sid: Sid)
    requires c.building.Staged? && c.building.sid == sid
    ensures var c1 := c.(building := Staged(sid, c.building.batch.(fin := true)));
            (forall t: Buffer :: Count(c1, t) == Count(c, t)) && (Counted(c) ==> Counted(c1))
  {
    hide Total, Buffers;
  }

  lemma EndedTogether(s: Stream, control: bool, lost: bool)
    requires StreamOk(s, lost) && s.live
    ensures var after := Accepting(Ended(Captured(s, control)), [Fin]);
            StreamOk(after, lost) && after.out == s.out && after.live && (Complete(s, []) ==> Complete(after, []))
  {
    hide StreamOk;
    CapturedOk(s, control, lost);
    EndedOk(Captured(s, control), lost);
    AcceptingOk(Ended(Captured(s, control)), [Fin], lost);
  }

  lemma GracefulFin(c: Conn, sid: Sid, control: bool)
    requires Inv(c) && sid in c.streams && c.streams[sid].live && (c.building.Staged? ==> c.building.sid != sid)
    ensures Inv(Put(c, sid, Accepting(Ended(Captured(c.streams[sid], control)), [Fin])))
  {
    hide Owned, Complete, AllComplete, Items, AllOk, StreamOk, Accepting, Ended, Captured, Gone, BatchOk, Counted;
    var after := Accepting(Ended(Captured(c.streams[sid], control)), [Fin]);
    AllAt(c.streams, sid, c.latch.outputLost);
    EndedTogether(c.streams[sid], control, c.latch.outputLost);
    PutCore(c, sid, after);
    PutOwned(c, sid, after, {});
    if !c.past.broken && !c.latch.peerClosed {
      CompleteAt(c.streams, c.building, sid);
      PutComplete(c.streams, c.building, sid, after);
    }
  }

  lemma CopyTaken(c: Conn, data: seq<Byte>)
    requires Inv(c)
    ensures Midway(c.(nextBuffer := c.nextBuffer + 1), Entry(c.nextBuffer, true, data))
  {
    var c1 := c.(nextBuffer := c.nextBuffer + 1);
    forall t: Buffer
      ensures Count(c1, t) == Count(c, t)
    {
      hide Total, Buffers;
    }
    hide Count, AllOk, Gone, AllComplete, BatchOk;
  }

  lemma WriteKeeps(c: Conn, sid: Sid, data: seq<Byte>, fin: bool, env: Env)
    requires Inv(c) && Linked(c)
    ensures Inv(Write(c, sid, data, fin, env).0)
  {
    hide Inv, Append, BareFin, BudgetBlocks, Midway;
    if sid in c.streams && c.streams[sid].live {
      if data == [] {
        BareFinKeeps(c, sid, env);
      } else {
        var c1, e := c.(nextBuffer := c.nextBuffer + 1), Entry(c.nextBuffer, true, data);
        CopyTaken(c, data);
        AppendKeeps(c1, sid, e, fin, env);
      }
    }
  }

  lemma WritePayloadKeeps(c: Conn, sid: Sid, data: seq<Byte>, fin: bool, env: Env)
    requires Inv(c) && Linked(c)
    ensures Inv(WritePayload(c, sid, data, fin, env).0)
  {
    hide Inv, Append, BudgetBlocks, Midway;
    PayloadInHand(c, data);
    if sid in c.streams && c.streams[sid].live {
      AppendKeeps(c, sid, Entry(c.nextBuffer, false, data), fin, env);
    }
  }

  lemma PayloadInHand(c: Conn, data: seq<Byte>)
    requires Inv(c)
    ensures Midway(c, Entry(c.nextBuffer, false, data))
  {
  }

  lemma AbortSendKeeps(c: Conn, sid: Sid, env: Env)
    requires Inv(c) && sid in c.streams
    ensures Inv(AbortSend(c, sid, env).0)
  {
    var s := Captured(c.streams[sid], sid in env.control);
    CapturedOk(c.streams[sid], sid in env.control, c.latch.outputLost);
    RaisedOk(s, Withdrawn(s).flags, c.latch.outputLost);
    hide Inv, StreamOk;
    PutKeeps(c, sid, s);
    PutKeeps(c, sid, Withdrawn(s));
  }

  lemma FlushKeeps(c: Conn, status: Status, control: set<Sid>)
    requires Inv(c)
    ensures Inv(Flush(c, status, control))
  {
    FlushCore(c, status, control);
    FlushFaithful(c, status, control);
    FlushOwned(c, status, control, {});
    hide Flush, Core, Owned, Faithful;
  }

  lemma ResetKeeps(c: Conn, sid: Sid, reliable: nat, env: Env)
    requires Inv(c)
    ensures Inv(Reset(c, sid, env).0) && Inv(ResetAt(c, sid, reliable, env).0)
  {
    var c1 := Flush(c, env.second, env.control);
    FlushKeeps(c, env.second, env.control);
    hide Flush, Inv, AbortSend;
    if sid in c1.streams {
      AbortSendKeeps(c1, sid, env);
    }
  }

  // ----- events -----

  lemma CompletedCounts(c: Conn, sid: Sid, canceled: bool, t: Buffer)
    requires sid in c.streams && c.streams[sid].out != [] && Counted(c)
    ensures Count(SendComplete(c, sid, canceled), t) == Count(c, t) && Counted(SendComplete(c, sid, canceled))
  {
    var s := c.streams[sid];
    OutHead(s.out);
    hide Buffers, OutBuffers, Total;
    ReplaceTotals(c.streams, sid, Completed(s, canceled), t);
  }

  /** A loss once recorded stays, and excuses every stream alike. */
  lemma NoteLossOk(streams: map<Sid, Stream>, lost: bool, more: bool)
    requires AllOk(streams, lost)
    ensures AllOk(streams, lost || more)
  {
    hide Payload, OutData, BatchOk;
  }

  lemma SendCompleteCore(c: Conn, sid: Sid, canceled: bool)
    requires Core(c) && sid in c.streams && c.streams[sid].out != []
    ensures Core(SendComplete(c, sid, canceled))
  {
    hide AllOk, Gone, BatchOk, Counted, Buffers, Completed, Loses, StreamOk;
    var s := Completed(c.streams[sid], canceled);
    var loss := canceled && Loses(s);
    var lost := c.latch.outputLost;
    CompletedCounts(c, sid, canceled, 0);
    AllAt(c.streams, sid, lost);
    CompletedOk(c.streams[sid], canceled, lost);
    NoteLossOk(c.streams, lost, loss);
    NoteLossOk(c.past.retired, lost, loss);
    PutOk(c.streams, sid, s, lost || loss);
  }

  lemma SendCompleteOwned(c: Conn, sid: Sid, canceled: bool)
    requires Counted(c) && Owned(c, {}) && sid in c.streams && c.streams[sid].out != []
    ensures Owned(SendComplete(c, sid, canceled), {})
  {
    hide Count, Counted, Completed, Loses, Buffers;
    forall t: Buffer
      ensures Count(SendComplete(c, sid, canceled), t) == Count(c, t)
    {
      CompletedCounts(c, sid, canceled, t);
    }
  }

  lemma SendCompleteKeeps(c: Conn, sid: Sid, canceled: bool)
    requires Inv(c) && sid in c.streams && c.streams[sid].out != []
    ensures Inv(SendComplete(c, sid, canceled))
  {
    hide AllOk, StreamOk, Gone, Owned, Items, Loses, Counted, Buffers, Completed, BatchOk, FlagsOk, AllComplete;
    SendCompleteCore(c, sid, canceled);
    SendCompleteOwned(c, sid, canceled);
    AllAt(c.streams, sid, c.latch.outputLost);
    CompletedOk(c.streams[sid], canceled, c.latch.outputLost);
    if !c.past.broken && !c.latch.peerClosed {
      CompleteAt(c.streams, c.building, sid);
      PutComplete(c.streams, c.building, sid, Completed(c.streams[sid], canceled));
    }
  }

  /** Latches may rise; a refused batch stays explained by one of them. */
  lemma LatchKeeps(c: Conn, l: Latches)
    requires Inv(c) && l.outputLost == c.latch.outputLost && (c.latch.peerClosed ==> l.peerClosed)
    requires (c.past.broken ==> l.flushFailed || l.fatal || l.peerClosed) && (l.flushFailed ==> c.past.broken)
    ensures Inv(c.(latch := l))
  {
    hide AllOk, Gone, BatchOk, AllComplete, Total, Buffers;
  }

  lemma LossKeeps(c: Conn, more: bool)
    requires Inv(c)
    ensures Inv(c.(latch := NoteLoss(c.latch, more)))
  {
    hide AllOk, Gone, BatchOk, AllComplete, Total, Buffers;
    NoteLossOk(c.streams, c.latch.outputLost, more);
    NoteLossOk(c.past.retired, c.latch.outputLost, more);
  }

  lemma SendShutdownKeeps(c: Conn, sid: Sid, graceful: bool)
    requires Inv(c) && sid in c.streams
    ensures Inv(SendShutdownComplete(c, sid, graceful))
  {
    var s := c.streams[sid];
    var f := ShutdownFlags(s, graceful, c.latch);
    assert StreamOk(s, c.latch.outputLost);
    RaisedOk(s, f, c.latch.outputLost);
    hide Inv, StreamOk;
    PutKeeps(c, sid, s.(flags := f));
    LossKeeps(Put(c, sid, s.(flags := f)), !graceful && Loses(s));
  }

  lemma PeerStopsKeeps(c: Conn, sid: Sid, control: set<Sid>)
    requires Inv(c) && sid in c.streams
    ensures Inv(PeerStops(c, sid, control))
  {
    var s := Captured(c.streams[sid], sid in control);
    CapturedOk(c.streams[sid], sid in control, c.latch.outputLost);
    RaisedOk(s, Stopped(s).flags, c.latch.outputLost);
    hide Inv, StreamOk;
    PutKeeps(c, sid, Stopped(s));
  }

  lemma IdealKeeps(c: Conn, sid: Sid, ideal: nat)
    requires Inv(c) && sid in c.streams
    ensures Inv(Put(c, sid, c.streams[sid].(ideal := ideal)))
  {
    var s := c.streams[sid].(ideal := ideal);
    assert StreamOk(c.streams[sid], c.latch.outputLost);
    assert StreamOk(s, c.latch.outputLost);
    hide Inv, StreamOk;
    PutKeeps(c, sid, s);
  }

  lemma DeadOk(s: Stream, lost: bool)
    requires StreamOk(s, lost) && s.out == []
    ensures StreamOk(s.(live := false), lost || Loses(s))
  {
    hide Payload, OutData, BatchOk;
  }

  lemma DeadKeeps(c: Conn, sid: Sid)
    requires Inv(c) && sid in c.streams && c.streams[sid].out == [] && (c.building.Staged? ==> c.building.sid != sid)
    ensures Inv(ShutdownComplete(c, sid, true))
  {
    var s := c.streams[sid];
    var loss := Loses(s);
    var c1 := c.(latch := NoteLoss(c.latch, loss));
    assert StreamOk(s, c.latch.outputLost);
    DeadOk(s, c.latch.outputLost);
    LossKeeps(c, loss);
    hide Inv, StreamOk, Loses;
    PutKeeps(c1, sid, s.(live := false));
    assert ShutdownComplete(c, sid, true) == Put(c1, sid, s.(live := false));
  }

  lemma RetireCounts(c: Conn, sid: Sid, t: Buffer)
    requires sid in c.streams && c.streams[sid].out == [] && Counted(c)
    ensures Count(Retire(c, sid), t) == Count(c, t) && Counted(Retire(c, sid))
  {
    TotalRemove(c.streams, sid, Holds(t));
    TotalRemove(c.streams, sid, InFlight);
  }

  lemma RetireOwned(c: Conn, sid: Sid)
    requires sid in c.streams && c.streams[sid].out == [] && Counted(c) && Owned(c, {})
    ensures Owned(Retire(c, sid), {})
  {
    hide Count, Counted;
    forall t: Buffer
      ensures Count(Retire(c, sid), t) == Count(c, t)
    {
      RetireCounts(c, sid, t);
    }
  }

  lemma RetireOk(c: Conn, sid: Sid)
    requires StreamsOk(c) && sid in c.streams && !c.streams[sid].live
    ensures StreamsOk(Retire(c, sid))
  {
    hide StreamOk;
  }

  lemma RetireKeeps(c: Conn, sid: Sid)
    requires Inv(c) && sid in c.streams && !c.streams[sid].live
    ensures Inv(Retire(c, sid))
  {
    hide StreamsOk, Counted, Owned, BatchOk, Faithful;
    DeadSilent(c, sid);
    RetireOk(c, sid);
    RetireCounts(c, sid, 0);
    RetireOwned(c, sid);
    RetireFaithful(c, sid);
  }

  lemma RetireFaithful(c: Conn, sid: Sid)
    requires Faithful(c) && BuildingOk(c) && sid in c.streams && !c.streams[sid].live
    ensures Faithful(Retire(c, sid))
  {
    hide BatchOk, Items, AllComplete, Complete;
    if !c.past.broken && !c.latch.peerClosed {
      CompleteAt(c.streams, c.building, sid);
      PutComplete(c.past.retired, Nothing, sid, c.streams[sid]);
      FewerComplete(c.streams, c.building, sid);
    }
  }

  lemma FewerComplete(streams: map<Sid, Stream>, building: Staging, sid: Sid)
    requires AllComplete(streams, building)
    ensures AllComplete(streams - {sid}, building)
  {
    hide Complete, Items;
  }

  lemma DeadSilent(c: Conn, sid: Sid)
    requires StreamsOk(c) && sid in c.streams && !c.streams[sid].live
    ensures c.streams[sid].out == []
  {
    assert StreamOk(c.streams[sid], c.latch.outputLost);
  }

  lemma ShutdownKeeps(c: Conn, sid: Sid, kept: bool)
    requires Inv(c) && sid in c.streams && c.streams[sid].out == [] && (c.building.Staged? ==> c.building.sid != sid)
    ensures Inv(ShutdownComplete(c, sid, kept))
  {
    hide Inv;
    DeadKeeps(c, sid);
    if !kept {
      RetireKeeps(ShutdownComplete(c, sid, true), sid);
    }
  }

  lemma OpenCounts(c: Conn, sid: Sid, s: Stream, t: Buffer)
    requires sid !in c.streams && s.out == [] && Counted(c)
    ensures Count(Put(c, sid, s), t) == Count(c, t) && Counted(Put(c, sid, s))
  {
    TotalSet(c.streams, sid, s, Holds(t));
    TotalSet(c.streams, sid, s, InFlight);
    assert c.streams - {sid} == c.streams;
  }

  lemma OpenOwned(c: Conn, sid: Sid, s: Stream)
    requires sid !in c.streams && s.out == [] && Counted(c) && Owned(c, {})
    ensures Owned(Put(c, sid, s), {})
  {
    hide Count, Counted;
    forall t: Buffer
      ensures Count(Put(c, sid, s), t) == Count(c, t)
    {
      OpenCounts(c, sid, s, t);
    }
  }

  lemma NewStreamOk(isLocal: bool, isBidi: bool, lost: bool)
    ensures var s := NewStream(isLocal, isBidi); StreamOk(s, lost) && Complete(s, []) && s.out == []
  {
  }

  lemma OpenOk(c: Conn, sid: Sid, s: Stream)
    requires StreamsOk(c) && sid !in c.streams && sid !in c.past.retired && StreamOk(s, c.latch.outputLost)
    ensures StreamsOk(Put(c, sid, s))
  {
    hide StreamOk;
  }

  lemma OpenCore(c: Conn, sid: Sid, s: Stream)
    requires Core(c) && sid !in c.streams && sid !in c.past.retired && StreamOk(s, c.latch.outputLost) && s.out == []
    ensures Core(Put(c, sid, s))
  {
    hide StreamsOk, StreamOk, Counted, BatchOk;
    OpenOk(c, sid, s);
    OpenCounts(c, sid, s, 0);
  }

  lemma OpenKeeps(c: Conn, sid: Sid, isLocal: bool, isBidi: bool)
    requires Inv(c) && sid !in c.streams && sid !in c.past.retired
    ensures Inv(Put(c, sid, NewStream(isLocal, isBidi)))
  {
    hide StreamsOk, StreamOk, NewStream, Counted, Owned, Complete, AllComplete, BatchOk, Items;
    var s := NewStream(isLocal, isBidi);
    NewStreamOk(isLocal, isBidi, c.latch.outputLost);
    OpenCore(c, sid, s);
    OpenOwned(c, sid, s);
    hide Core;
    if !c.past.broken && !c.latch.peerClosed {
      PutComplete(c.streams, c.building, sid, s);
    }
  }

  lemma ServicedKeeps(c: Conn, status: Status, control: set<Sid>)
    requires Inv(c) && Linked(c)
    ensures Inv(Serviced(c, status, control))
  {
    hide Inv, Flush;
    FlushKeeps(c, status, control);
    var c1 := Flush(c, status, control);
    if c1.latch.flushFailed {
      LatchKeeps(c1, c1.latch.(flushFailed := false, fatal := true));
    }
  }
}

/**
 A write or reliable reset that reports it would block always has a wake on
 its way: a completion on the same stream, or the end of the connection.
 */
module AdapterWakes {
  import opened StreamItems
  import opened AdapterSends
  import opened AdapterSafety
  import opened AdapterOps
  import opened AdapterRuns

  /** The connection is ending, so whatever is parked will be cleared. */
  predicate Ending(c: Conn) { c.latch.flushFailed || c.latch.fatal || c.latch.peerClosed }

  /** Bytes of the stream on their way to a completion. */
  function Pending(c: Conn, sid: Sid): int {
    (if sid in c.streams then c.streams[sid].inflight else 0) + StagedBytes(c, sid)
  }

  predicate WakeOwed(c: Conn, sid: Sid) { Ending(c) || Pending(c, sid) > 0 }

  // ----- pending bytes only grow, except by a completion -----

  lemma FlushPends(c: Conn, sid: Sid, status: Status, control: set<Sid>)
    requires Linked(c)
    ensures var after := Flush(c, status, control);
            Ending(after) || (!Ending(c) && Pending(after, sid) == Pending(c, sid))
  {
    hide Items, Buffers, Data;
  }

  lemma GrownPends(c: Conn, sid: Sid, at: Sid, e: Entry, fin: bool)
    requires c.building.Staged? ==> c.building.sid == at
    ensures Pending(Grown(c, at, e, fin), sid) >= Pending(c, sid)
  {
    DataAppend(if c.building.Staged? then c.building.batch.entries else [], e);
    hide Data;
  }

  lemma AcceptedPends(c: Conn, sid: Sid, at: Sid, items: seq<Item>)
    requires at in c.streams
    ensures Pending(Accepted(c, at, items), sid) == Pending(c, sid) && Ending(Accepted(c, at, items)) == Ending(c)
  {
    hide Data;
  }

  lemma OutcomePends(c: Conn, sid: Sid, at: Sid, items: seq<Item>)
    requires at in c.streams && WakeOwed(c, sid)
    ensures WakeOwed(Outcome(c, at, items).0, sid)
  {
    hide Accepted, Pending, Ending;
    AcceptedPends(c, sid, at, items);
  }

  lemma StagePends(c: Conn, sid: Sid, at: Sid, e: Entry, fin: bool, env: Env)
    requires at in c.streams && (c.building.Staged? ==> c.building.sid == at) && WakeOwed(c, sid)
    ensures WakeOwed(Stage(c, at, e, fin, env).0, sid)
  {
    hide Accepted, Pending, Flush, Outcome, Octets;
    var c2 := Grown(c, at, e, fin);
    GrownPends(c, sid, at, e, fin);
    FlushPends(c2, sid, env.second, env.control);
    OutcomePends(Flush(c2, env.second, env.control), sid, at, Octets(e.data) + EndMark(fin));
    AcceptedPends(c2, sid, at, Octets(e.data));
  }

  lemma AppendPends(c: Conn, sid: Sid, at: Sid, e: Entry, fin: bool, env: Env)
    requires Linked(c) && at in c.streams && WakeOwed(c, sid)
    ensures WakeOwed(Append(c, at, e, fin, env).0, sid)
  {
    hide Flush, Stage;
    var c1 := Flush(c, env.first, env.control);
    FlushPends(c, sid, env.first, env.control);
    StagePends(c1, sid, at, e, fin, env);
    if c.building.Staged? ==> c.building.sid == at {
      StagePends(c, sid, at, e, fin, env);
    }
  }

  lemma BareFinPends(c: Conn, sid: Sid, at: Sid, env: Env)
    requires at in c.streams && WakeOwed(c, sid)
    ensures WakeOwed(BareFin(c, at, env).0, sid)
  {
    hide Flush, Outcome, Data;
    if c.building.Staged? && c.building.sid == at {
      var c1 := c.(building := Staged(at, c.building.batch.(fin := true)));
      FlushPends(c1, sid, env.second, env.control);
      OutcomePends(Flush(c1, env.second, env.control), sid, at, [Fin]);
    }
  }

  lemma WritePends(c: Conn, sid: Sid, at: Sid, data: seq<Byte>, fin: bool, env: Env)
    requires Linked(c) && WakeOwed(c, sid)
    ensures WakeOwed(Write(c, at, data, fin, env).0, sid) && WakeOwed(WritePayload(c, at, data, fin, env).0, sid)
  {
    hide Append, BareFin, BudgetBlocks, Data;
    if at in c.streams {
      BareFinPends(c, sid, at, env);
      AppendPends(c.(nextBuffer := c.nextBuffer + 1), sid, at, Entry(c.nextBuffer, true, data), fin, env);
      AppendPends(c, sid, at, Entry(c.nextBuffer, false, data), fin, env);
    }
  }

  lemma ResetPends(c: Conn, sid: Sid, at: Sid, reliable: nat, env: Env)
    requires Linked(c) && WakeOwed(c, sid)
    ensures WakeOwed(Reset(c, at, env).0, sid) && WakeOwed(ResetAt(c, at, reliable, env).0, sid)
  {
    hide Flush, Data;
    FlushPends(c, sid, env.second, env.control);
  }

  /** The record of a stream that still has bytes pending cannot go away. */
  lemma NothingPending(c: Conn, sid: Sid)
    requires Inv(c) && sid in c.streams && c.streams[sid].out == []
    requires c.building.Staged? ==> c.building.sid != sid
    ensures Pending(c, sid) == 0
  {
    assert StreamOk(c.streams[sid], c.latch.outputLost);
  }

  lemma DeadUnstaged(c: Conn, sid: Sid)
    requires Inv(c) && sid in c.streams && !c.streams[sid].live
    ensures c.streams[sid].out == [] && (c.building.Staged? ==> c.building.sid != sid)
  {
    assert StreamOk(c.streams[sid], c.latch.outputLost);
  }

  lemma EventPends(c: Conn, sid: Sid, op: Op)
    requires Linked(c) && Enabled(c, op) && WakeOwed(c, sid)
    requires op.OpenOp? || op.CompleteOp? || op.SendShutdownOp? || op.PeerStopOp? || op.IdealOp? || op.ShutdownOp?
             || op.TerminalFedOp? || op.NegotiatedOp? || op.PeerClosedOp? || op.ClosingOp? || op.TeardownOp?
             || op.ShutDownOp? || op.FatalOp?
    requires (op.CompleteOp? || op.ShutdownOp? || op.TerminalFedOp?) && op.sid == sid ==> Ending(c)
    requires op.OpenOp? && op.sid == sid ==> Ending(c) || StagedBytes(c, sid) > 0
    ensures WakeOwed(Step(c, op), sid)
  {
    hide Data, Buffers, Loses, SendShutdownComplete, PeerStops, Completed, NewStream;
    match op
    case SendShutdownOp(at, graceful) => SendShutdownPends(c, sid, at, graceful);
    case PeerStopOp(at, env) => PeerStopPends(c, sid, at, env.control);
    case _ =>
  }

  lemma SendShutdownPends(c: Conn, sid: Sid, at: Sid, graceful: bool)
    requires at in c.streams && WakeOwed(c, sid)
    ensures WakeOwed(SendShutdownComplete(c, at, graceful), sid)
  {
    hide Data, Loses, ShutdownFlags;
  }

  lemma PeerStopPends(c: Conn, sid: Sid, at: Sid, control: set<Sid>)
    requires at in c.streams && WakeOwed(c, sid)
    ensures WakeOwed(PeerStops(c, at, control), sid)
  {
    hide Data;
  }

  lemma StepPends(c: Conn, sid: Sid, op: Op)
    requires Inv(c) && Linked(c) && Enabled(c, op) && WakeOwed(c, sid) && !(op.CompleteOp? && op.sid == sid)
    ensures WakeOwed(Step(c, op), sid)
  {
    hide Inv, Write, WritePayload, Reset, ResetAt, Flush, WakeOwed, SendComplete, SendShutdownComplete, PeerStops;
    hide ShutdownComplete, Retire, NewStream;
    match op
    case WriteOp(at, data, fin, env) => WritePends(c, sid, at, data, fin, env);
    case PayloadOp(at, data, fin, env) => WritePends(c, sid, at, data, fin, env);
    case ResetOp(at, env) => ResetPends(c, sid, at, 0, env);
    case ResetAtOp(at, reliable, env) => ResetPends(c, sid, at, reliable, env);
    case FlushOp(env) => ServicePends(c, sid, env);
    case ServiceOp(env) => ServicePends(c, sid, env);
    case _ => EventsPend(c, sid, op);
  }

  lemma ServicePends(c: Conn, sid: Sid, env: Env)
    requires Linked(c) && WakeOwed(c, sid)
    ensures WakeOwed(Flush(c, env.second, env.control), sid) && WakeOwed(Serviced(c, env.second, env.control), sid)
  {
    hide Flush, Data;
    FlushPends(c, sid, env.second, env.control);
  }

  lemma EventsPend(c: Conn, sid: Sid, op: Op)
    requires Inv(c) && Linked(c) && Enabled(c, op) && WakeOwed(c, sid) && !(op.CompleteOp? && op.sid == sid)
    requires !op.WriteOp? && !op.PayloadOp? && !op.ResetOp? && !op.ResetAtOp? && !op.FlushOp? && !op.ServiceOp?
    ensures WakeOwed(Step(c, op), sid)
  {
    hide Inv, Step;
    if op.TerminalFedOp? && op.sid == sid {
      DeadUnstaged(c, sid);
      NothingPending(c, sid);
    } else if op.ShutdownOp? && op.sid == sid {
      NothingPending(c, sid);
    }
    EventPends(c, sid, op);
  }

  // ----- what a refusal promises -----

  /** The operation told the bridge to wait. */
  predicate Blocked(c: Conn, op: Op, sid: Sid)
    requires Linked(c)
  {
    match op
    case WriteOp(at, data, fin, env) => at == sid && Write(c, at, data, fin, env).1.WouldBlock?
    case PayloadOp(at, data, fin, env) => at == sid && WritePayload(c, at, data, fin, env).1.WouldBlock?
    case ResetAtOp(at, reliable, env) => at == sid && ResetAt(c, at, reliable, env).1.WouldBlock?
    case _ => false
  }

  lemma AppendParks(c: Conn, sid: Sid, e: Entry, fin: bool, env: Env)
    requires Linked(c) && sid in c.streams && Append(c, sid, e, fin, env).1.WouldBlock?
    ensures Append(c, sid, e, fin, env).0.latch.peerClosed
  {
    hide Flush, Accepted, Octets;
  }

  lemma BudgetPends(c: Conn, sid: Sid, total: nat)
    requires Inv(c) && sid in c.streams && BudgetBlocks(c, sid, total)
    ensures Pending(c, sid) > 0
  {
    assert StreamOk(c.streams[sid], c.latch.outputLost);
  }

  lemma BlockedOwes(c: Conn, op: Op, sid: Sid)
    requires Inv(c) && Linked(c) && Blocked(c, op, sid)
    ensures WakeOwed(Step(c, op), sid)
  {
    hide Inv, Append, Flush, Data, BudgetBlocks, Accepted;
    match op
    case WriteOp(_, data, fin, env) =>
      if BudgetBlocks(c, sid, |data|) {
        BudgetPends(c, sid, |data|);
      } else if data != [] {
        AppendParks(c.(nextBuffer := c.nextBuffer + 1), sid, Entry(c.nextBuffer, true, data), fin, env);
      }
    case PayloadOp(_, data, fin, env) =>
      if BudgetBlocks(c, sid, |data|) {
        BudgetPends(c, sid, |data|);
      } else {
        AppendParks(c, sid, Entry(c.nextBuffer, false, data), fin, env);
      }
    case ResetAtOp(_, reliable, env) =>
  }

  lemma {:induction false} BytesInFlight(out: seq<Batch>)
    requires |OutData(out)| > 0
    ensures exists k :: 0 <= k < |out| && Bytes(out[k]) > 0
  {
    if Bytes(out[0]) == 0 {
      BytesInFlight(out[1..]);
      var k :| 0 <= k < |out[1..]| && Bytes(out[1..][k]) > 0;
      assert out[k + 1] == out[1..][k];
    }
  }

  /** No wait without a wake: from the moment an operation on a stream reports that it would block until a send of that
      stream completes, the connection is ending or bytes of the stream are on their way; and once the pass has flushed,
      they are in a batch the transport holds, whose completion services the bridge again. */
  lemma {:induction false} NoWaitWithoutWake(states: seq<Conn>, ops: seq<Op>, k: nat, j: nat, sid: Sid)
    requires Run(states, ops) && k < j < |states| && Blocked(states[k], ops[k], sid)
    requires forall m :: k < m < j ==> !(ops[m].CompleteOp? && ops[m].sid == sid)
    ensures WakeOwed(states[j], sid)
    ensures !Ending(states[j]) && states[j].building.Nothing? ==>
              && sid in states[j].streams
              && exists n :: 0 <= n < |states[j].streams[sid].out| && Bytes(states[j].streams[sid].out[n]) > 0
  {
    hide Step, WakeOwed;
    EveryState(states, ops, j - 1);
    if j == k + 1 {
      BlockedOwes(states[k], ops[k], sid);
    } else {
      NoWaitWithoutWake(states, ops, k, j - 1, sid);
      StepPends(states[j - 1], sid, ops[j - 1]);
    }
    EveryState(states, ops, j);
    InFlightNow(states[j], sid);
  }

  lemma InFlightNow(c: Conn, sid: Sid)
    requires Inv(c) && WakeOwed(c, sid)
    ensures !Ending(c) && c.building.Nothing? ==>
              && sid in c.streams
              && exists n :: 0 <= n < |c.streams[sid].out| && Bytes(c.streams[sid].out[n]) > 0
  {
    if !Ending(c) && c.building.Nothing? {
      assert StreamOk(c.streams[sid], c.latch.outputLost);
      BytesInFlight(c.streams[sid].out);
    }
  }

  /** A reliable reset goes out only with the prefix acknowledged, and what is acknowledged is what was handed over. */
  lemma ResetAtWaits(c: Conn, sid: Sid, reliable: nat, env: Env)
    requires Inv(c) && Linked(c)
    ensures var (after, r) := ResetAt(c, sid, reliable, env);
            sid in after.streams && after.streams[sid].flags.resetSent && !c.streams[sid].flags.resetSent ==>
              && var s := after.streams[sid];
              && r.Ok? && reliable <= s.acked <= |Payload(s.log.handed)|
              && s.log.acked == Payload(s.log.handed)[..s.acked]
              && !s.flags.sendCanceled && !after.latch.closePending
    ensures var (after, r) := ResetAt(c, sid, reliable, env);
            r.WouldBlock? ==> sid in c.streams && Pending(after, sid) > 0
  {
    hide Inv, Flush, Data, Payload;
    var c1 := Flush(c, env.second, env.control);
    FlushKeeps(c, env.second, env.control);
    FlushMarks(c, sid, env.second, env.control);
    if sid in c1.streams && !c1.streams[sid].flags.sendCanceled {
      AckedPrefix(c1, sid);
    }
  }

  lemma FlushMarks(c: Conn, sid: Sid, status: Status, control: set<Sid>)
    requires Linked(c)
    ensures var after := Flush(c, status, control);
            && (sid in after.streams <==> sid in c.streams) && after.latch.closePending == c.latch.closePending
            && after.building.Nothing?
            && (sid in c.streams ==> after.streams[sid].flags.resetSent == c.streams[sid].flags.resetSent)
  {
    hide Took, Buffers;
    if c.building.Staged? {
      TookMarks(Captured(c.streams[c.building.sid], c.building.sid in control), c.building.batch);
    }
  }

  lemma TookMarks(s: Stream, b: Batch)
    ensures Took(s, b).flags.resetSent == s.flags.resetSent
  {
  }

  lemma AckedPrefix(c: Conn, sid: Sid)
    requires Inv(c) && sid in c.streams && !c.streams[sid].flags.sendCanceled
    ensures var s := c.streams[sid];
            s.acked <= |Payload(s.log.handed)| && s.log.acked == Payload(s.log.handed)[..s.acked]
  {
    assert StreamOk(c.streams[sid], c.latch.outputLost);
  }

  // ----- the budget -----

  /** The throttle, written as a subtraction, blocks exactly a write that would take bytes already pending past the
      ceiling; an empty write and a write to an idle stream always pass. */
  lemma BudgetExact(c: Conn, sid: Sid, total: nat)
    requires sid in c.streams
    ensures BudgetBlocks(c, sid, total) <==>
              total > 0 && Pending(c, sid) != 0 && Pending(c, sid) + total > Ceiling(c.streams[sid])
  {
    hide Data;
  }

  lemma FlushExact(c: Conn, sid: Sid, status: Status, control: set<Sid>)
    requires Linked(c)
    ensures var after := Flush(c, status, control);
            !after.latch.flushFailed && !after.latch.peerClosed ==> Pending(after, sid) == Pending(c, sid)
  {
    hide Items, Buffers, Data;
  }

  lemma GrownExact(c: Conn, sid: Sid, e: Entry, fin: bool)
    requires c.building.Staged? ==> c.building.sid == sid
    ensures Pending(Grown(c, sid, e, fin), sid) == Pending(c, sid) + |e.data|
  {
    DataAppend(if c.building.Staged? then c.building.batch.entries else [], e);
    hide Data;
  }

  lemma StageExact(c: Conn, sid: Sid, e: Entry, fin: bool, env: Env)
    requires sid in c.streams && (c.building.Staged? ==> c.building.sid == sid) && Stage(c, sid, e, fin, env).1.Ok?
    ensures Pending(Stage(c, sid, e, fin, env).0, sid) == Pending(c, sid) + |e.data|
  {
    hide Accepted, Pending, Flush, Octets;
    var c2 := Grown(c, sid, e, fin);
    GrownExact(c, sid, e, fin);
    FlushExact(c2, sid, env.second, env.control);
    AcceptedPends(Flush(c2, env.second, env.control), sid, sid, Octets(e.data) + EndMark(fin));
    AcceptedPends(c2, sid, sid, Octets(e.data));
  }

  lemma AppendExact(c: Conn, sid: Sid, e: Entry, fin: bool, env: Env)
    requires Linked(c) && sid in c.streams && Append(c, sid, e, fin, env).1.Ok?
    ensures Pending(Append(c, sid, e, fin, env).0, sid) == Pending(c, sid) + |e.data|
  {
    hide Flush, Stage, Pending;
    var c1 := Flush(c, env.first, env.control);
    if c.building.Staged? && c.building.sid != sid {
      FlushExact(c, sid, env.first, env.control);
      StageExact(c1, sid, e, fin, env);
    } else {
      StageExact(c, sid, e, fin, env);
    }
  }

  /** A payload write answered Ok adds exactly its bytes to what is pending, and unless the stream was idle what is
      pending stays within the ceiling; so does a copied write of at least one byte. */
  lemma WriteBounded(c: Conn, sid: Sid, data: seq<Byte>, fin: bool, env: Env)
    requires Linked(c)
    ensures var (after, r) := WritePayload(c, sid, data, fin, env);
            r.Ok? ==> sid in c.streams && Bounded(c, after, sid, |data|)
    ensures data != [] ==>
              var (after, r) := Write(c, sid, data, fin, env);
              r.Ok? ==> sid in c.streams && Bounded(c, after, sid, |data|)
  {
    hide Append, BudgetBlocks, Data;
    if sid in c.streams {
      BudgetExact(c, sid, |data|);
      var c1, e := c.(nextBuffer := c.nextBuffer + 1), Entry(c.nextBuffer, true, data);
      if Append(c, sid, e.(copied := false), fin, env).1.Ok? {
        AppendExact(c, sid, e.(copied := false), fin, env);
      }
      if Append(c1, sid, e, fin, env).1.Ok? {
        AppendExact(c1, sid, e, fin, env);
      }
    }
  }

  predicate Bounded(c: Conn, after: Conn, sid: Sid, total: nat)
    requires sid in c.streams
  {
    && Pending(after, sid) == Pending(c, sid) + total
    && (total > 0 && Pending(c, sid) != 0 ==> Pending(after, sid) <= Ceiling(c.streams[sid]))
  }
}

/**
 Whole runs of the sending half, over any interleaving of operations and
 events: batching keeps every stream's bytes and order, every buffer is
 released exactly once, a blocked write always has a wake coming, a reliable
 reset waits for its prefix, and a successful flush means what it says.
 */
module AdapterRuns {
  import opened StreamItems
  import opened AdapterSends
  import opened AdapterSafety
  import opened AdapterOps
  import opened MapTotals

  datatype Op =
    | OpenOp(sid: Sid, isLocal: bool, isBidi: bool)
    | WriteOp(sid: Sid, data: seq<Byte>, fin: bool, env: Env)
    | PayloadOp(sid: Sid, data: seq<Byte>, fin: bool, env: Env)
    | ResetOp(sid: Sid, env: Env)
    | ResetAtOp(sid: Sid, reliable: nat, env: Env)
    | FlushOp(env: Env)                             // a stop-sending or a transport close flushes first
    | ServiceOp(env: Env)                           // the end of a bridge pass
    | CompleteOp(sid: Sid, canceled: bool)
    | SendShutdownOp(sid: Sid, graceful: bool)
    | PeerStopOp(sid: Sid, env: Env)
    | IdealOp(sid: Sid, ideal: nat)
    | ShutdownOp(sid: Sid, kept: bool)
    | TerminalFedOp(sid: Sid)
    | NegotiatedOp(agreed: bool)
    | PeerClosedOp                                  // an open was refused for the peer's close
    | ClosingOp | TeardownOp | ShutDownOp | FatalOp

  /** What the transport promises: a new stream has a new id; completions of a stream come while it has sends out, and
      all of them before the stream's own SHUTDOWN_COMPLETE, which never comes amid a pass with the stream staged. */
  ghost predicate Enabled(c: Conn, op: Op) {
    match op
    case OpenOp(sid, _, _) => sid !in c.streams && sid !in c.past.retired
    case CompleteOp(sid, _) => sid in c.streams && c.streams[sid].out != []
    case SendShutdownOp(sid, _) => sid in c.streams && c.streams[sid].live
    case PeerStopOp(sid, _) => sid in c.streams && c.streams[sid].live
    case IdealOp(sid, _) => sid in c.streams && c.streams[sid].live
    case ShutdownOp(sid, _) =>
      && sid in c.streams && c.streams[sid].live && c.streams[sid].out == []
      && (c.building.Staged? ==> c.building.sid != sid)
    case TerminalFedOp(sid) => sid in c.streams && !c.streams[sid].live
    case _ => true
  }

  function Step(c: Conn, op: Op): Conn
    requires Linked(c) && Enabled(c, op)
  {
    match op
    case OpenOp(sid, isLocal, isBidi) => Put(c, sid, NewStream(isLocal, isBidi))
    case WriteOp(sid, data, fin, env) => Write(c, sid, data, fin, env).0
    case PayloadOp(sid, data, fin, env) => WritePayload(c, sid, data, fin, env).0
    case ResetOp(sid, env) => Reset(c, sid, env).0
    case ResetAtOp(sid, reliable, env) => ResetAt(c, sid, reliable, env).0
    case FlushOp(env) => Flush(c, env.second, env.control)
    case ServiceOp(env) => Serviced(c, env.second, env.control)
    case CompleteOp(sid, canceled) => SendComplete(c, sid, canceled)
    case SendShutdownOp(sid, graceful) => SendShutdownComplete(c, sid, graceful)
    case PeerStopOp(sid, env) => PeerStops(c, sid, env.control)
    case IdealOp(sid, ideal) => Put(c, sid, c.streams[sid].(ideal := ideal))
    case ShutdownOp(sid, kept) => ShutdownComplete(c, sid, kept)
    case TerminalFedOp(sid) => Retire(c, sid)
    case NegotiatedOp(agreed) => c.(reliableReset := agreed)
    case PeerClosedOp => c.(latch := c.latch.(peerClosed := true))
    case ClosingOp => c.(latch := c.latch.(closePending := true))
    case TeardownOp => c.(latch := c.latch.(teardownSent := true))
    case ShutDownOp => c.(latch := c.latch.(shutDown := true))
    case FatalOp => c.(latch := c.latch.(fatal := true))
  }

  ghost predicate Run(states: seq<Conn>, ops: seq<Op>) {
    && |states| == |ops| + 1 && states[0] == NewConn()
    && forall k :: 0 <= k < |ops| ==>
         Linked(states[k]) && Enabled(states[k], ops[k]) && states[k + 1] == Step(states[k], ops[k])
  }

  lemma StepKeeps(c: Conn, op: Op)
    requires Inv(c) && Linked(c) && Enabled(c, op)
    ensures Inv(Step(c, op))
  {
    hide Inv, Write, WritePayload, Reset, ResetAt, Flush, Serviced, SendComplete, SendShutdownComplete, PeerStops;
    hide ShutdownComplete, Retire, NewStream;
    match op
    case OpenOp(sid, isLocal, isBidi) => OpenKeeps(c, sid, isLocal, isBidi);
    case WriteOp(sid, data, fin, env) => WriteKeeps(c, sid, data, fin, env);
    case PayloadOp(sid, data, fin, env) => WritePayloadKeeps(c, sid, data, fin, env);
    case ResetOp(sid, env) => ResetKeeps(c, sid, 0, env);
    case ResetAtOp(sid, reliable, env) => ResetKeeps(c, sid, reliable, env);
    case FlushOp(env) => FlushKeeps(c, env.second, env.control);
    case ServiceOp(env) => ServicedKeeps(c, env.second, env.control);
    case CompleteOp(sid, canceled) => SendCompleteKeeps(c, sid, canceled);
    case SendShutdownOp(sid, graceful) => SendShutdownKeeps(c, sid, graceful);
    case PeerStopOp(sid, env) => PeerStopsKeeps(c, sid, env.control);
    case IdealOp(sid, ideal) => IdealKeeps(c, sid, ideal);
    case ShutdownOp(sid, kept) => ShutdownKeeps(c, sid, kept);
    case TerminalFedOp(sid) => RetireKeeps(c, sid);
    case _ => LatchOps(c, op);
  }

  lemma LatchOps(c: Conn, op: Op)
    requires Inv(c) && Linked(c) && Enabled(c, op)
    requires op.NegotiatedOp? || op.PeerClosedOp? || op.ClosingOp? || op.TeardownOp? || op.ShutDownOp? || op.FatalOp?
    ensures Inv(Step(c, op))
  {
    hide AllOk, Gone, BatchOk, AllComplete, Total, Buffers;
  }

  lemma {:induction false} EveryState(states: seq<Conn>, ops: seq<Op>, k: nat)
    requires Run(states, ops) && k < |states|
    ensures Inv(states[k])
  {
    if k == 0 {
    } else {
      EveryState(states, ops, k - 1);
      hide Inv, Step;
      StepKeeps(states[k - 1], ops[k - 1]);
    }
  }

  // ----- what is accepted: exactly the writes answered Ok -----

  ghost predicate Adds(c: Conn, after: Conn, x: Sid, items: seq<Item>) {
    x in c.streams ==> x in after.streams && after.streams[x].log.accepted == c.streams[x].log.accepted + items
  }

  lemma FlushAdds(c: Conn, x: Sid, status: Status, control: set<Sid>)
    requires Linked(c)
    ensures Adds(c, Flush(c, status, control), x, [])
  {
    hide Items, Bytes, Buffers;
  }

  /** The items a result stands for. */
  function Meant(x: Sid, sid: Sid, r: Result, items: seq<Item>): seq<Item> { if x == sid && r.Ok? then items else [] }

  lemma OutcomeAdds(c: Conn, sid: Sid, items: seq<Item>, x: Sid)
    requires sid in c.streams
    ensures Adds(c, Outcome(c, sid, items).0, x, Meant(x, sid, Outcome(c, sid, items).1, items))
    ensures Adds(c, Accepted(c, sid, items), x, Meant(x, sid, Ok, items))
  {
  }

  lemma StageAdds(c: Conn, sid: Sid, e: Entry, fin: bool, env: Env, x: Sid)
    requires sid in c.streams
    ensures var (after, r) := Stage(c, sid, e, fin, env);
            Adds(c, after, x, Meant(x, sid, r, Octets(e.data) + EndMark(fin)))
  {
    hide Flush, Outcome, Accepted, Octets;
    var c2 := Grown(c, sid, e, fin);
    FlushAdds(c2, x, env.second, env.control);
    OutcomeAdds(Flush(c2, env.second, env.control), sid, Octets(e.data) + EndMark(fin), x);
    OutcomeAdds(c2, sid, Octets(e.data), x);
    assert Octets(e.data) + EndMark(false) == Octets(e.data);
  }

  lemma AppendAdds(c: Conn, sid: Sid, e: Entry, fin: bool, env: Env, x: Sid)
    requires Linked(c) && sid in c.streams
    ensures var (after, r) := Append(c, sid, e, fin, env);
            Adds(c, after, x, Meant(x, sid, r, Octets(e.data) + EndMark(fin)))
  {
    hide Flush, Stage, Octets;
    FlushAdds(c, x, env.first, env.control);
    StageAdds(Flush(c, env.first, env.control), sid, e, fin, env, x);
    StageAdds(c, sid, e, fin, env, x);
  }

  lemma BareFinAdds(c: Conn, sid: Sid, env: Env, x: Sid)
    requires sid in c.streams
    ensures Adds(c, BareFin(c, sid, env).0, x, Meant(x, sid, BareFin(c, sid, env).1, [Fin]))
  {
    hide Flush, Outcome;
    if c.building.Staged? && c.building.sid == sid {
      var c1 := c.(building := Staged(sid, c.building.batch.(fin := true)));
      FlushAdds(c1, x, env.second, env.control);
      OutcomeAdds(Flush(c1, env.second, env.control), sid, [Fin], x);
    }
  }

  /** A write answered Ok adds its bytes, then its end mark, to its own stream; any other answer adds nothing. */
  lemma WriteAdds(c: Conn, sid: Sid, data: seq<Byte>, fin: bool, env: Env, x: Sid)
    requires Linked(c)
    ensures var (after, r) := Write(c, sid, data, fin, env);
            Adds(c, after, x, Meant(x, sid, r, Octets(data) + EndMark(fin)))
    ensures var (after, r) := WritePayload(c, sid, data, fin, env);
            Adds(c, after, x, Meant(x, sid, r, Octets(data) + EndMark(fin)))
  {
    hide Append, BareFin, BudgetBlocks;
    assert data == [] ==> Octets(data) + EndMark(fin) == EndMark(fin);
    if sid in c.streams {
      BareFinAdds(c, sid, env, x);
      AppendAdds(c.(nextBuffer := c.nextBuffer + 1), sid, Entry(c.nextBuffer, true, data), fin, env, x);
      AppendAdds(c, sid, Entry(c.nextBuffer, false, data), fin, env, x);
    }
  }

  // ----- batching keeps the meaning of the writes -----

  /** As long as no batch was refused and the peer has not closed, what the transport took of a stream followed by what
      is staged for it is exactly what was accepted, in order; so the end mark comes last if it was written last. */
  lemma BatchingFaithful(states: seq<Conn>, ops: seq<Op>, k: nat, sid: Sid)
    requires Run(states, ops) && k < |states| && !states[k].past.broken && !states[k].latch.peerClosed
    ensures var c := states[k];
            && (sid in c.streams ==>
                  && var log := c.streams[sid].log;
                  && log.accepted == log.handed + StagedItems(c.building, sid)
                  && (EndsOnce(log.accepted) ==> EndsOnce(log.handed)))
            && (sid in c.past.retired ==> c.past.retired[sid].log.accepted == c.past.retired[sid].log.handed)
            && (c.building.Staged? ==> 1 <= |c.building.batch.entries| < BATCH_MAX && !c.building.batch.fin)
  {
    hide Run, Items, StreamsOk, Counted, Owned;
    EveryState(states, ops, k);
    var c := states[k];
    if sid in c.streams {
      CompleteAt(c.streams, c.building, sid);
      var log := c.streams[sid].log;
      assert forall i :: 0 <= i < |log.handed| ==> log.handed[i] == log.accepted[i];
    }
    if sid in c.past.retired {
      CompleteAt(c.past.retired, Nothing, sid);
    }
  }

  // ----- ownership -----

  lemma {:induction false} ZeroTotal(streams: map<Sid, Stream>, t: Buffer)
    requires Total(streams, InFlight) == 0
    ensures Total(streams, Holds(t)) == 0
    decreases |streams|
  {
    if streams.Keys != {} {
      var sid :| sid in streams;
      TotalRemove(streams, sid, InFlight);
      TotalRemove(streams, sid, Holds(t));
      WithoutIsSmaller(streams, sid);
      ZeroTotal(streams - {sid}, t);
    }
  }

  /** Every reference or copy taken so far is either held by one staged or in-flight entry and was never released, or
      was released exactly once and is held nowhere; with nothing staged or in flight all of them have been released. */
  lemma ReleasedOnce(states: seq<Conn>, ops: seq<Op>, k: nat, t: Buffer)
    requires Run(states, ops) && k < |states|
    ensures var c := states[k];
            && Count(c, t) == (if t < c.nextBuffer then 1 else 0)
            && (c.building.Nothing? && c.pendingSends == 0 ==> multiset(c.past.released)[t] == Count(c, t))
  {
    hide Run, StreamsOk, FlagsOk, Faithful, BatchOk;
    EveryState(states, ops, k);
    var c := states[k];
    if c.building.Nothing? && c.pendingSends == 0 {
      ZeroTotal(c.streams, t);
    }
  }
}

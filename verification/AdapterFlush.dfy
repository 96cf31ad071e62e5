/**
 The flush barrier: if it reports success, every stream ever opened on the
 connection has been withdrawn, or all that was accepted for it has been
 acknowledged by the peer, its end included.
 */
module AdapterFlush {
  import opened StreamItems
  import opened AdapterSends
  import opened AdapterSafety
  import opened AdapterRuns
  import opened MapTotals

  /** The record of a stream, live or retired. */
  predicate Known(c: Conn, sid: Sid) { sid in c.streams || sid in c.past.retired }

  function Record(c: Conn, sid: Sid): Stream
    requires Known(c, sid)
  {
    if sid in c.streams then c.streams[sid] else c.past.retired[sid]
  }

  /** Everything accepted for the stream reached the peer. */
  ghost predicate Delivered(s: Stream) {
    && s.acked == s.sent && s.log.acked == Payload(s.log.accepted)
    && (Fin in s.log.accepted ==> s.flags.finSent && s.flags.finAcked)
  }

  lemma {:induction false} ZeroInFlight(streams: map<Sid, Stream>, sid: Sid)
    requires Total(streams, InFlight) == 0 && sid in streams
    ensures streams[sid].out == []
  {
    TotalRemove(streams, sid, InFlight);
  }

  lemma SettledDelivered(s: Stream)
    requires StreamOk(s, false) && s.out == [] && Complete(s, []) && !s.flags.withdrawn
    requires s.flags.finSent ==> s.flags.finAcked
    ensures Delivered(s)
  {
    assert s.log.accepted == s.log.handed;
    assert s.log.acked + OutData(s.out) == s.log.acked;
  }

  /** A successful poll accounts for every record, live or retired. */
  lemma PollAccounts(c: Conn, ended: bool, quiet: bool, sid: Sid)
    requires Inv(c) && PollFlush(c, ended, quiet).PollOk? && Known(c, sid)
    ensures Record(c, sid).flags.withdrawn || Delivered(Record(c, sid))
  {
    hide StreamOk, BatchOk, Owned, Complete, Delivered, Items;
    var s := Record(c, sid);
    if sid in c.streams {
      AllAt(c.streams, sid, false);
      ZeroInFlight(c.streams, sid);
      CompleteAt(c.streams, c.building, sid);
      if !s.flags.withdrawn {
        SettledDelivered(s);
      }
    } else {
      AllAt(c.past.retired, sid, false);
      CompleteAt(c.past.retired, Nothing, sid);
      if !s.flags.withdrawn {
        RetiredDelivered(s);
      }
    }
  }

  lemma RetiredDelivered(s: Stream)
    requires StreamOk(s, false) && !s.live && Complete(s, []) && !s.flags.withdrawn
    ensures Delivered(s)
  {
    SettledDelivered(s);
  }

  // ----- records stay known, and are withdrawn only for cause -----

  /** The bridge reset the stream, or the peer asked it to stop. */
  predicate Withdraws(op: Op, sid: Sid) { (op.ResetOp? || op.ResetAtOp? || op.PeerStopOp?) && op.sid == sid }

  /** The step neither forgets nor withdraws the stream. */
  ghost predicate Steady(c: Conn, after: Conn, sid: Sid) {
    && (sid in c.streams <==> sid in after.streams) && after.past.retired == c.past.retired
    && (sid in c.streams ==> after.streams[sid].flags.withdrawn == c.streams[sid].flags.withdrawn)
  }

  lemma FlushSteady(c: Conn, sid: Sid, status: Status, control: set<Sid>)
    requires Linked(c)
    ensures Steady(c, Flush(c, status, control), sid)
  {
    hide Items, Bytes, Buffers;
  }

  lemma OutcomeSteady(c: Conn, at: Sid, items: seq<Item>, sid: Sid)
    requires at in c.streams
    ensures Steady(c, Outcome(c, at, items).0, sid) && Steady(c, Accepted(c, at, items), sid)
  {
  }

  lemma StageSteady(c: Conn, at: Sid, e: Entry, fin: bool, env: Env, sid: Sid)
    requires at in c.streams
    ensures Steady(c, Stage(c, at, e, fin, env).0, sid)
  {
    hide Flush, Outcome, Accepted, Octets;
    var c2 := Grown(c, at, e, fin);
    FlushSteady(c2, sid, env.second, env.control);
    OutcomeSteady(Flush(c2, env.second, env.control), at, Octets(e.data) + EndMark(fin), sid);
    OutcomeSteady(c2, at, Octets(e.data), sid);
  }

  lemma AppendSteady(c: Conn, at: Sid, e: Entry, fin: bool, env: Env, sid: Sid)
    requires Linked(c) && at in c.streams
    ensures Steady(c, Append(c, at, e, fin, env).0, sid)
  {
    hide Flush, Stage;
    FlushSteady(c, sid, env.first, env.control);
    StageSteady(Flush(c, env.first, env.control), at, e, fin, env, sid);
    StageSteady(c, at, e, fin, env, sid);
  }

  lemma BareFinSteady(c: Conn, at: Sid, env: Env, sid: Sid)
    requires at in c.streams
    ensures Steady(c, BareFin(c, at, env).0, sid)
  {
    hide Flush, Outcome;
    if c.building.Staged? && c.building.sid == at {
      var c1 := c.(building := Staged(at, c.building.batch.(fin := true)));
      FlushSteady(c1, sid, env.second, env.control);
      OutcomeSteady(Flush(c1, env.second, env.control), at, [Fin], sid);
    }
  }

  lemma WriteSteady(c: Conn, at: Sid, data: seq<Byte>, fin: bool, env: Env, sid: Sid)
    requires Linked(c)
    ensures Steady(c, Write(c, at, data, fin, env).0, sid) && Steady(c, WritePayload(c, at, data, fin, env).0, sid)
  {
    hide Append, BareFin, BudgetBlocks;
    if at in c.streams {
      BareFinSteady(c, at, env, sid);
      AppendSteady(c.(nextBuffer := c.nextBuffer + 1), at, Entry(c.nextBuffer, true, data), fin, env, sid);
      AppendSteady(c, at, Entry(c.nextBuffer, false, data), fin, env, sid);
    }
  }

  /** The step keeps the stream known, and withdraws it only for cause and only off a session control stream. */
  ghost predicate Aged(c: Conn, op: Op, after: Conn, sid: Sid) {
    && (Known(c, sid) || (op.OpenOp? && op.sid == sid) ==> Known(after, sid))
    && (Known(after, sid) && Record(after, sid).flags.withdrawn ==>
          || (Known(c, sid) && Record(c, sid).flags.withdrawn)
          || (Withdraws(op, sid) && !Record(after, sid).flags.control))
  }

  lemma ResetAges(c: Conn, at: Sid, reliable: nat, env: Env, sid: Sid)
    requires Linked(c)
    ensures Aged(c, ResetOp(at, env), Reset(c, at, env).0, sid)
    ensures Aged(c, ResetAtOp(at, reliable, env), ResetAt(c, at, reliable, env).0, sid)
  {
    hide Flush;
    FlushSteady(c, sid, env.second, env.control);
  }

  lemma EventAges(c: Conn, op: Op, sid: Sid)
    requires Linked(c) && Enabled(c, op)
    requires !op.WriteOp? && !op.PayloadOp? && !op.ResetOp? && !op.ResetAtOp? && !op.FlushOp? && !op.ServiceOp?
    ensures Aged(c, op, Step(c, op), sid)
  {
    hide Data, Buffers, Bytes, Loses, AckRefused, Write, WritePayload, Reset, ResetAt, Flush, Serviced;
  }

  lemma StepAges(c: Conn, op: Op, sid: Sid)
    requires Linked(c) && Enabled(c, op)
    ensures Aged(c, op, Step(c, op), sid)
  {
    hide Write, WritePayload, Reset, ResetAt, Flush;
    match op
    case WriteOp(at, data, fin, env) => WriteSteady(c, at, data, fin, env, sid);
    case PayloadOp(at, data, fin, env) => WriteSteady(c, at, data, fin, env, sid);
    case ResetOp(at, env) => ResetAges(c, at, 0, env, sid);
    case ResetAtOp(at, reliable, env) => ResetAges(c, at, reliable, env, sid);
    case FlushOp(env) => FlushSteady(c, sid, env.second, env.control);
    case ServiceOp(env) => FlushSteady(c, sid, env.second, env.control);
    case _ => EventAges(c, op, sid);
  }

  lemma {:induction false} StaysKnown(states: seq<Conn>, ops: seq<Op>, m: nat, k: nat, sid: Sid)
    requires Run(states, ops) && m < k < |states| && ops[m].OpenOp? && ops[m].sid == sid
    ensures Known(states[k], sid)
  {
    hide Step;
    StepAges(states[k - 1], ops[k - 1], sid);
    if m < k - 1 {
      StaysKnown(states, ops, m, k - 1, sid);
    }
  }

  ghost predicate WithdrawnAt(states: seq<Conn>, ops: seq<Op>, n: nat, sid: Sid) {
    n < |ops| && n + 1 < |states| && Withdraws(ops[n], sid) && Known(states[n + 1], sid)
    && !Record(states[n + 1], sid).flags.control
  }

  lemma {:induction false} WithdrawnForCause(states: seq<Conn>, ops: seq<Op>, k: nat, sid: Sid)
    requires Run(states, ops) && k < |states| && Known(states[k], sid) && Record(states[k], sid).flags.withdrawn
    ensures exists n: nat :: n < k && WithdrawnAt(states, ops, n, sid)
  {
    hide Step;
    if k > 0 {
      StepAges(states[k - 1], ops[k - 1], sid);
      if Known(states[k - 1], sid) && Record(states[k - 1], sid).flags.withdrawn {
        WithdrawnForCause(states, ops, k - 1, sid);
      } else {
        assert WithdrawnAt(states, ops, k - 1, sid);
      }
    }
  }

  /** Flush soundness over whole runs: when the barrier reports success, each stream opened at any time before was reset
      or stopped by the peer while not a session control stream, or all it accepted is acknowledged, its end
      included. */
  lemma FlushSound(states: seq<Conn>, ops: seq<Op>, m: nat, k: nat, sid: Sid, ended: bool, quiet: bool)
    requires Run(states, ops) && m < k < |states| && ops[m].OpenOp? && ops[m].sid == sid
    requires PollFlush(states[k], ended, quiet).PollOk?
    ensures Known(states[k], sid)
    ensures || (exists n: nat :: n < k && WithdrawnAt(states, ops, n, sid))
            || Delivered(Record(states[k], sid))
  {
    hide Run, Inv, PollFlush, Delivered;
    StaysKnown(states, ops, m, k, sid);
    EveryState(states, ops, k);
    PollAccounts(states[k], ended, quiet, sid);
    if Record(states[k], sid).flags.withdrawn {
      WithdrawnForCause(states, ops, k, sid);
    }
  }
}

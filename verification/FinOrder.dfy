/**
 Where a FIN stands among the chunks of a stream, over every run and for any
 callers: exactly when bytes are queued behind a FIN, and so exactly when a plan
 may deny the FIN its commit hands over.
 */
module FinOrder {
  import ProbeTable
  import opened SendQueueModel
  import opened SendQueueRuns
  import opened ByteStreams

  type Sid = ProbeTable.Sid

  // ----- chunk lists -----

  /** Some chunk but the last carries a FIN, and `m` bytes are queued up to the end of it. */
  ghost predicate Behind(c: seq<Chunk>, m: int) {
    |c| >= 2 && ((c[0].fin && Left(c[0]) == m) || Behind(c[1..], m - Left(c[0])))
  }

  lemma {:induction false} BehindLast(c: seq<Chunk>, m: int)
    requires FinLast(c)
    ensures !Behind(c, m)
  {
    if |c| >= 2 {
      BehindLast(c[1..], m - Left(c[0]));
    }
  }

  lemma {:induction false} LastBehind(c: seq<Chunk>) returns (m: int)
    requires !FinLast(c)
    ensures Behind(c, m)
  {
    if c[0].fin {
      m := Left(c[0]);
    } else {
      var i :| 0 <= i < |c| - 1 && c[i].fin;
      assert c[1..][i - 1].fin;
      m := LastBehind(c[1..]);
      m := m + Left(c[0]);
    }
  }

  /** A chunk appended to a list that ends with a FIN puts that FIN before it. */
  lemma {:induction false} AppendBehind(c: seq<Chunk>, k: Chunk, m: int)
    ensures Behind(c + [k], m) <==> Behind(c, m) || (Closed(c) && m == Bytes(c))
  {
    if |c| <= 1 {
      assert c == [] ==> c + [k] == [k];
      assert |c| == 1 ==> (c + [k])[1..] == [k] && Pending(c) == c[0].data[c[0].offset..] + Pending([]);
    } else {
      AppendBehind(c[1..], k, m - Left(c[0]));
      assert (c + [k])[1..] == c[1..] + [k];
      assert Closed(c) == Closed(c[1..]) && Bytes(c) == Left(c[0]) + Bytes(c[1..]);
    }
  }

  lemma {:induction false} MarkBehind(c: seq<Chunk>, m: int)
    requires c != []
    ensures Behind(MarkFin(c), m) <==> Behind(c, m)
  {
    if |c| >= 2 {
      MarkBehind(c[1..], m - Left(c[0]));
      assert MarkFin(c)[1..] == MarkFin(c[1..]) && MarkFin(c)[0] == c[0];
    }
  }

  /** A commit hands over the FINs it passes and moves the others closer. */
  lemma {:induction false} DrainBehind(c: seq<Chunk>, need: nat, m: int)
    requires ChunksOk(c)
    ensures Behind(Drain(c, need).rest, m) <==> m > 0 && Behind(c, m + |Drain(c, need).out|)
  {
    if c != [] {
      if need < Left(c[0]) {
        var rest := Drain(c, need).rest;
        assert rest[1..] == c[1..];
        BehindPositive(c[1..], m - Left(rest[0]));
      } else {
        DrainBehind(c[1..], need - Left(c[0]), m);
        if |c| >= 2 {
          assert Behind(c, m + |Drain(c, need).out|) <==>
            (c[0].fin && Left(c[0]) == m + |Drain(c, need).out|)
            || Behind(c[1..], m + |Drain(c[1..], need - Left(c[0])).out|);
        }
      }
    }
  }

  lemma {:induction false} BehindPositive(c: seq<Chunk>, m: int)
    ensures Behind(c, m) ==> m >= 0
  {
    if |c| >= 2 {
      BehindPositive(c[1..], m - Left(c[0]));
    }
  }

  // ----- runs -----

  /** The push puts bytes on a stream whose last chunk carries a FIN. */
  predicate PushesBehind(s: State, op: Op, sid: Sid) {
    && op.PushOp? && op.sid == sid && op.data != [] && ClosedOf(s.q, sid)
    && Push(s.q, sid, op.data, op.fin, op.copied, op.alloc).1.Accepted?
  }

  predicate Cuts(op: Op, sid: Sid) { (op.DropOp? || op.TruncateOp?) && op.sid == sid }

  predicate Commits(op: Op, sid: Sid) { op.CommitOp? && op.sid == sid }

  function HandedCount(s: State, sid: Sid): nat { |HistoryOf(s.log, sid).handed| }

  /** Of the bytes queued on the stream before operation j, how many are still to be handed over in state k. */
  function Ahead(states: seq<State>, j: nat, k: nat, sid: Sid): int
    requires j <= k < |states|
  {
    |PendingOf(states[j].q, sid)| - (HandedCount(states[k], sid) - HandedCount(states[j], sid))
  }

  /** Operation j pushed bytes behind a FIN, and in state k both are still queued: the stream has not been cut since,
      and no commit has come, or none that reached the FIN. */
  ghost predicate Overtakes(states: seq<State>, ops: seq<Op>, j: nat, k: nat, sid: Sid) {
    && j < k < |states| && |states| == |ops| + 1
    && PushesBehind(states[j], ops[j], sid)
    && (forall i :: j < i < k ==> !Cuts(ops[i], sid))
    && ((forall i :: j < i < k ==> !Commits(ops[i], sid)) || Ahead(states, j, k, sid) > 0)
  }

  /** What operation k does to an earlier push behind a FIN. */
  lemma OvertakesStep(states: seq<State>, ops: seq<Op>, j: nat, k: nat, sid: Sid)
    requires |states| == |ops| + 1 && j < k < |ops| && Next(states[k], ops[k], states[k + 1])
    ensures Cuts(ops[k], sid) ==> !Overtakes(states, ops, j, k + 1, sid)
    ensures Commits(ops[k], sid) ==>
              (Overtakes(states, ops, j, k + 1, sid) <==>
               Overtakes(states, ops, j, k, sid) && Ahead(states, j, k + 1, sid) > 0)
    ensures !Cuts(ops[k], sid) && !Commits(ops[k], sid) ==>
              && (Overtakes(states, ops, j, k + 1, sid) <==> Overtakes(states, ops, j, k, sid))
              && Ahead(states, j, k + 1, sid) == Ahead(states, j, k, sid)
  {
    hide PushesBehind, Next, PendingOf;
    HandedGrows(states[k], ops[k], states[k + 1], sid);
  }

  lemma HandedGrows(s: State, op: Op, s': State, sid: Sid)
    requires Next(s, op, s')
    ensures HandedCount(s', sid) >= HandedCount(s, sid)
    ensures !Commits(op, sid) ==> HandedCount(s', sid) == HandedCount(s, sid)
  {
    hide Push, Commit, Truncate, Drop, OwedBytes;
  }

  lemma OvertakesNow(states: seq<State>, ops: seq<Op>, k: nat, sid: Sid)
    requires |states| == |ops| + 1 && k < |ops| && Next(states[k], ops[k], states[k + 1])
    ensures Overtakes(states, ops, k, k + 1, sid) <==> PushesBehind(states[k], ops[k], sid)
    ensures PushesBehind(states[k], ops[k], sid) ==> Ahead(states, k, k + 1, sid) == |PendingOf(states[k].q, sid)|
  {
    hide PushesBehind, Next, PendingOf, Ahead;
    if PushesBehind(states[k], ops[k], sid) {
      AheadNow(states, ops, k, sid);
    }
  }

  lemma AheadNow(states: seq<State>, ops: seq<Op>, k: nat, sid: Sid)
    requires k < |ops| && k + 1 < |states| && Next(states[k], ops[k], states[k + 1])
             && PushesBehind(states[k], ops[k], sid)
    ensures Ahead(states, k, k + 1, sid) == |PendingOf(states[k].q, sid)|
  {
    HandedGrows(states[k], ops[k], states[k + 1], sid);
    hide Next, PendingOf;
  }

  /** The chunks of the stream after one operation, as far as FINs before the last are concerned. */
  lemma BehindStep(s: State, op: Op, s': State, sid: Sid, m: int)
    requires Next(s, op, s') && AllOk(s.q)
    ensures var c, c' := ChunksOf(s.q, sid), ChunksOf(s'.q, sid);
            && (Cuts(op, sid) ==> !Behind(c', m))
            && (Commits(op, sid) ==>
                  (Behind(c', m) <==> m > 0 && Behind(c, m + (HandedCount(s', sid) - HandedCount(s, sid)))))
            && (!Cuts(op, sid) && !Commits(op, sid) ==>
                  (Behind(c', m) <==> Behind(c, m) || (PushesBehind(s, op, sid) && m == |PendingOf(s.q, sid)|)))
  {
    hide Behind, Next;
    if op.RankOp? || op.sid != sid {
      NextOther(s, op, s', sid);
    } else if op.PushOp? {
      PushBehind(s, op, s', m);
    } else if op.CommitOp? {
      CommitBehind(s, op, s', m);
    } else if op.TruncateOp? || op.DropOp? {
      CutBehind(s, op, s', m);
    } else {
      NextSlot(s, op, s');
    }
  }

  lemma PushBehind(s: State, op: Op, s': State, m: int)
    requires op.PushOp? && Next(s, op, s')
    ensures Behind(ChunksOf(s'.q, op.sid), m) <==>
              Behind(ChunksOf(s.q, op.sid), m) || (PushesBehind(s, op, op.sid) && m == |PendingOf(s.q, op.sid)|)
  {
    hide Behind, Next, Push, MarkFin;
    var c := ChunksOf(s.q, op.sid);
    PendingIsOfChunks(s.q, op.sid);
    if op.data != [] {
      PushBytesOutcome(s.q, op.sid, op.data, op.fin, op.copied, op.alloc);
      AppendBehind(c, Chunk(op.data, 0, op.fin), m);
    } else {
      PushFinOutcome(s.q, op.sid, op.fin, op.copied, op.alloc);
      NoneBehind(m);
      if c != [] {
        MarkBehind(c, m);
      }
    }
    PushedQueue(s, op, s');
  }

  lemma NoneBehind(m: int)
    ensures !Behind([], m) && !Behind([Chunk([], 0, true)], m)
  {
  }

  lemma PushedQueue(s: State, op: Op, s': State)
    requires op.PushOp? && Next(s, op, s')
    ensures s'.q == Push(s.q, op.sid, op.data, op.fin, op.copied, op.alloc).0
  {
    hide Push;
  }

  lemma CommitBehind(s: State, op: Op, s': State, m: int)
    requires op.CommitOp? && Next(s, op, s') && AllOk(s.q)
    ensures Behind(ChunksOf(s'.q, op.sid), m) <==>
              m > 0 && Behind(ChunksOf(s.q, op.sid), m + (HandedCount(s', op.sid) - HandedCount(s, op.sid)))
  {
    hide Behind, Drain, Pending, Markers;
    NoneBehind(m);
    NoneBehind(m + (HandedCount(s', op.sid) - HandedCount(s, op.sid)));
    if op.sid in s.q.streams {
      DrainBehind(s.q.streams[op.sid].chunks, op.nbytes, m);
    }
  }

  lemma CutBehind(s: State, op: Op, s': State, m: int)
    requires (op.TruncateOp? || op.DropOp?) && Next(s, op, s') && AllOk(s.q)
    ensures !Behind(ChunksOf(s'.q, op.sid), m)
  {
    hide Behind, Truncate;
    if op.TruncateOp? {
      TruncateKeeps(s.q, op.sid, op.reliable);
    }
    BehindLast(ChunksOf(s'.q, op.sid), m);
  }

  /** Some push behind a FIN is still queued with it, and `m` bytes are queued up to the end of that FIN's chunk. */
  ghost predicate Overtaken(states: seq<State>, ops: seq<Op>, k: nat, sid: Sid, m: int) {
    k < |states| && exists j: nat :: j < k && Overtakes(states, ops, j, k, sid) && Ahead(states, j, k, sid) == m
  }

  lemma CutStep(states: seq<State>, ops: seq<Op>, k: nat, sid: Sid, m: int)
    requires |states| == |ops| + 1 && k < |ops| && Next(states[k], ops[k], states[k + 1]) && Cuts(ops[k], sid)
    ensures !Overtaken(states, ops, k + 1, sid, m)
  {
    hide Next, Ahead;
    var n := k + 1;
    OvertakesNow(states, ops, k, sid);
    forall j: nat | j < k
      ensures !Overtakes(states, ops, j, n, sid)
    {
      OvertakesStep(states, ops, j, k, sid);
    }
  }

  lemma CommitStep(states: seq<State>, ops: seq<Op>, k: nat, sid: Sid, m: int)
    requires |states| == |ops| + 1 && k < |ops| && Next(states[k], ops[k], states[k + 1]) && Commits(ops[k], sid)
    ensures var moved := HandedCount(states[k + 1], sid) - HandedCount(states[k], sid);
            Overtaken(states, ops, k + 1, sid, m) <==> m > 0 && Overtaken(states, ops, k, sid, m + moved)
  {
    hide Next, Overtakes, PendingOf;
    var n := k + 1;
    OvertakesNow(states, ops, k, sid);
    NotPushed(states[k], ops[k], sid);
    forall j: nat | j < k
      ensures Overtakes(states, ops, j, n, sid) <==>
                Overtakes(states, ops, j, k, sid) && Ahead(states, j, n, sid) > 0
    {
      OvertakesStep(states, ops, j, k, sid);
    }
  }

  lemma NotPushed(s: State, op: Op, sid: Sid)
    requires Commits(op, sid)
    ensures !PushesBehind(s, op, sid)
  {
  }

  lemma OtherStep(states: seq<State>, ops: seq<Op>, k: nat, sid: Sid, m: int)
    requires |states| == |ops| + 1 && k < |ops| && Next(states[k], ops[k], states[k + 1])
    requires !Cuts(ops[k], sid) && !Commits(ops[k], sid)
    ensures Overtaken(states, ops, k + 1, sid, m) <==>
              || Overtaken(states, ops, k, sid, m)
              || (PushesBehind(states[k], ops[k], sid) && m == |PendingOf(states[k].q, sid)|)
  {
    hide Next, Overtakes, PendingOf, PushesBehind, Ahead;
    var n := k + 1;
    OvertakesNow(states, ops, k, sid);
    forall j: nat | j < k
      ensures Overtakes(states, ops, j, n, sid) <==> Overtakes(states, ops, j, k, sid)
      ensures Ahead(states, j, n, sid) == Ahead(states, j, k, sid)
    {
      OvertakesStep(states, ops, j, k, sid);
    }
  }

  /** In every run, FINs before the last chunk are those that a push has been put behind and both are still queued. */
  lemma {:induction false} BehindIff(states: seq<State>, ops: seq<Op>, cap: nat, k: nat, sid: Sid, m: int)
    requires Run(states, ops, cap) && k < |states|
    ensures Behind(ChunksOf(states[k].q, sid), m) <==> Overtaken(states, ops, k, sid, m)
  {
    hide Behind, Next, Overtakes, PendingOf, PushesBehind, Cuts, Commits, ChunksOf;
    if k == 0 {
      NoStream(cap, sid);
      NoneBehind(m);
    } else {
      hide Overtaken;
      var n := k - 1;
      EveryState(states, ops, cap, n);
      BehindStep(states[n], ops[n], states[k], sid, m);
      BehindIff(states, ops, cap, n, sid, m);
      BehindIff(states, ops, cap, n, sid, m + (HandedCount(states[k], sid) - HandedCount(states[n], sid)));
      if Cuts(ops[n], sid) {
        CutStep(states, ops, n, sid, m);
      } else if Commits(ops[n], sid) {
        CommitStep(states, ops, n, sid, m);
      } else {
        OtherStep(states, ops, n, sid, m);
      }
    }
  }

  lemma NoStream(cap: nat, sid: Sid)
    ensures ChunksOf(Init(cap).q, sid) == []
  {
  }

  /** In every run and for any callers, a FIN is on the last chunk of a stream at most if and only if no bytes pushed
      behind a FIN are still queued with it. */
  lemma FinLastIff(states: seq<State>, ops: seq<Op>, cap: nat, k: nat, sid: Sid)
    requires Run(states, ops, cap) && k < |states|
    ensures FinLast(ChunksOf(states[k].q, sid)) <==> !exists j: nat :: j < k && Overtakes(states, ops, j, k, sid)
  {
    hide Run, Overtakes, FinLast, Behind;
    var c := ChunksOf(states[k].q, sid);
    if FinLast(c) {
      forall j: nat | j < k
        ensures !Overtakes(states, ops, j, k, sid)
      {
        BehindLast(c, Ahead(states, j, k, sid));
        BehindIff(states, ops, cap, k, sid, Ahead(states, j, k, sid));
      }
    } else {
      var m := LastBehind(c);
      BehindIff(states, ops, cap, k, sid, m);
    }
  }

  /** In every run, all plans of a stream announce the FIN exactly when their commit hands one over, if and only if no
      bytes pushed behind a FIN are still queued with it. */
  lemma PlansTruthfulIff(states: seq<State>, ops: seq<Op>, cap: nat, k: nat, sid: Sid)
    requires Run(states, ops, cap) && k < |states| && HasData(states[k].q, sid)
    ensures var q := states[k].q;
            (forall max: nat :: Plan(q, sid, max).isFin == Drain(q.streams[sid].chunks, Plan(q, sid, max).nbytes).fin)
            <==> !exists j: nat :: j < k && Overtakes(states, ops, j, k, sid)
  {
    hide Run, Overtakes, FinLast, Plan, Drain;
    EveryState(states, ops, cap, k);
    PlansTruthful(states[k].q, sid);
    FinLastIff(states, ops, cap, k, sid);
  }

  // ----- a run that gets there -----

  const PLENTY := Alloc(true, true, true, true)

  /** Two pushes, a FIN with the first: the plan for one byte denies the FIN that its commit hands over. */
  lemma DeniedFin(sid: Sid, x: Byte, y: Byte)
    ensures exists states: seq<State>, ops: seq<Op> ::
              && ops == [PushOp(sid, [x], true, true, PLENTY), PushOp(sid, [y], false, true, PLENTY)]
              && Run(states, ops, 2) && HasData(states[2].q, sid)
              && Plan(states[2].q, sid, 1) == Provide(1, false, true)
              && HandsFin(states[2].q, sid, 1)
  {
    var ops := [PushOp(sid, [x], true, true, PLENTY), PushOp(sid, [y], false, true, PLENTY)];
    var s0 := Init(2);
    var s1 := Step(s0, ops[0]);
    var s2 := Step(s1, ops[1]);
    var states := [s0, s1, s2];
    assert s1.q.streams[sid].chunks == [Chunk([x], 0, true)];
    assert s2.q.streams[sid].chunks == [Chunk([x], 0, true), Chunk([y], 0, false)];
    assert Run(states, ops, 2);
  }
}

/**
 Stream credit over whole runs: permitted opens stay within the peer's limit,
 the pending counters are exact and never run below zero, and the ids the
 adapter computes are the ones the transport will assign, in order.
 */
module CreditRuns {
  import opened StreamCredit

  // ----- invariant -----

  ghost function DoneSids(done: seq<Done>): seq<Sid> { seq(|done|, i requires 0 <= i < |done| => done[i].sid) }

  /** The starts the adapter has not heard the end of. */
  ghost function Waits(t: Transport): multiset<Sid> { multiset(t.queue) + multiset(DoneSids(t.done)) }

  predicate IsWaiting(streams: map<Sid, Record>, bidi: bool, sid: Sid) {
    sid in streams && streams[sid].isLocal && streams[sid].isBidi == bidi && streams[sid].startPending
  }

  /** Each such start is a record marked pending, and is waited for once. */
  ghost predicate WaitsOk(streams: map<Sid, Record>, bidi: bool, t: Transport) {
    forall sid: Sid :: Waits(t)[sid] == if IsWaiting(streams, bidi, sid) then 1 else 0
  }

  ghost predicate IdsOk(isClient: bool, bidi: bool, started: nat, t: Transport) {
    && |t.ids| == started && (forall i :: 0 <= i < |t.ids| ==> t.ids[i] == IdOf(isClient, bidi, i))
    && (t.clean ==>
          && t.counted + |t.queue| == started
          && forall j :: 0 <= j < |t.queue| ==> t.queue[j] == IdOf(isClient, bidi, t.counted + j))
  }

  ghost predicate LimitOk(known: bool, credit: nat, t: Transport) {
    && t.counted <= t.limit
    && (known && credit > 0 ==> credit + t.counted + |t.queue| <= t.limit)
    && (t.ungated == 0 ==> t.counted + |t.queue| <= t.limit)
  }

  ghost predicate DirOk(a: Starts, bidi: bool, t: Transport) {
    var s := SideOf(a, bidi);
    && s.pending == |t.queue| + |t.done|
    && WaitsOk(a.streams, bidi, t) && IdsOk(a.isClient, bidi, s.started, t) && LimitOk(a.known, s.credit, t)
  }

  ghost predicate Inv(w: World) { RecordsOk(w.a) && DirOk(w.a, true, w.bidi) && DirOk(w.a, false, w.uni) }

  // ----- opening -----

  lemma WaitsPush(t: Transport, id: Sid, known: bool)
    ensures Waits(Opening(t, id, known)) == Waits(t) + multiset{id}
  {
  }

  lemma OpenWaits(streams: map<Sid, Record>, bidi: bool, t: Transport, id: Sid, known: bool)
    requires WaitsOk(streams, bidi, t) && id !in streams
    ensures WaitsOk(streams[id := NewLocal(bidi)], bidi, Opening(t, id, known))
  {
    hide Waits, Opening;
    WaitsPush(t, id, known);
  }

  lemma OpenIds(isClient: bool, bidi: bool, started: nat, t: Transport, known: bool)
    requires IdsOk(isClient, bidi, started, t)
    ensures IdsOk(isClient, bidi, started + 1, Opening(t, IdOf(isClient, bidi, started), known))
  {
    hide IdOf;
  }

  lemma OpenKeepsDir(a: Starts, bidi: bool, env: Env, t: Transport)
    requires RecordsOk(a) && DirOk(a, bidi, t) && Open(a, bidi, env).1.Ok?
    ensures DirOk(Open(a, bidi, env).0, bidi, Opening(t, Open(a, bidi, env).1.id, a.known))
  {
    hide RecordsOk, WaitsOk, IdsOk, IdOf;
    OpenIsNew(a, bidi);
    OpenWaits(a.streams, bidi, t, IdOf(a.isClient, bidi, SideOf(a, bidi).started), a.known);
    OpenIds(a.isClient, bidi, SideOf(a, bidi).started, t, a.known);
  }

  lemma OpenKeepsOther(a: Starts, bidi: bool, env: Env, t: Transport)
    requires RecordsOk(a) && DirOk(a, !bidi, t)
    ensures DirOk(Open(a, bidi, env).0, !bidi, t)
  {
    hide RecordsOk, IdsOk, LimitOk, Waits, IdOf;
    OpenIsNew(a, bidi);
  }

  lemma OpenKeeps(w: World, bidi: bool, env: Env)
    requires Inv(w)
    ensures Inv(Step(w, OpenOp(bidi, env)))
  {
    hide RecordsOk, DirOk;
    OpenKeepsRecords(w.a, bidi, env);
    OpenKeepsOther(w.a, bidi, env, DirOf(w, !bidi));
    if Open(w.a, bidi, env).1.Ok? {
      OpenKeepsDir(w.a, bidi, env, DirOf(w, bidi));
    } else {
      RefusedOpen(w.a, bidi, env, DirOf(w, bidi));
    }
  }

  lemma RefusedOpen(a: Starts, bidi: bool, env: Env, t: Transport)
    requires DirOk(a, bidi, t) && !Open(a, bidi, env).1.Ok?
    ensures DirOk(Open(a, bidi, env).0, bidi, t)
  {
    hide WaitsOk, IdsOk, LimitOk;
  }

  // ----- processing and completing starts -----

  lemma ProcessKeeps(a: Starts, bidi: bool, t: Transport, ok: bool)
    requires DirOk(a, bidi, t) && t.queue != [] && (ok ==> t.counted < t.limit)
    ensures DirOk(a, bidi, Processing(t, ok))
  {
    var t1 := Processing(t, ok);
    assert t.queue == [t.queue[0]] + t1.queue;
    assert DoneSids(t1.done) == DoneSids(t.done) + [t.queue[0]];
    assert Waits(t1) == Waits(t);
  }

  lemma WaitsPop(t: Transport)
    requires t.done != []
    ensures Waits(t) == Waits(t.(done := t.done[1..])) + multiset{t.done[0].sid}
  {
    assert DoneSids(t.done) == [t.done[0].sid] + DoneSids(t.done[1..]);
  }

  lemma SettleWaits(streams: map<Sid, Record>, bidi: bool, t: Transport, sid: Sid, after: Transport)
    requires WaitsOk(streams, bidi, t) && Waits(t) == Waits(after) + multiset{sid}
    ensures IsWaiting(streams, bidi, sid)
    ensures WaitsOk(streams[sid := streams[sid].(startPending := false)], bidi, after)
  {
    hide Waits;
    forall x: Sid
      ensures Waits(t)[x] == Waits(after)[x] + if x == sid then 1 else 0
    {
    }
  }

  lemma OtherWaits(streams: map<Sid, Record>, bidi: bool, t: Transport, sid: Sid)
    requires WaitsOk(streams, bidi, t) && sid in streams && streams[sid].isBidi != bidi
    ensures WaitsOk(streams[sid := streams[sid].(startPending := false)], bidi, t)
  {
    hide Waits;
  }

  /** The oldest completion settles its own start and no other. */
  lemma CompleteKeeps(a: Starts, bidi: bool, t: Transport, other: Transport)
    requires DirOk(a, bidi, t) && DirOk(a, !bidi, other) && t.done != []
    ensures IsWaiting(a.streams, bidi, t.done[0].sid)
    ensures DirOk(Settle(a, t.done[0].sid), bidi, t.(done := t.done[1..]))
    ensures DirOk(Settle(a, t.done[0].sid), !bidi, other)
  {
    hide Waits, WaitsOk;
    var sid := t.done[0].sid;
    WaitsPop(t);
    SettleWaits(a.streams, bidi, t, sid, t.(done := t.done[1..]));
    OtherWaits(a.streams, !bidi, other, sid);
  }

  // ----- shutdown -----

  lemma {:induction false} DropCounts(s: seq<Sid>, sid: Sid)
    ensures multiset(Drop(s, sid)) == multiset(s)[sid := 0]
    ensures sid !in s ==> Drop(s, sid) == s
  {
    if s != [] {
      DropCounts(s[1..], sid);
      assert s == [s[0]] + s[1..];
    }
  }

  lemma DoneFront(d: Done, rest: seq<Done>)
    ensures DoneSids([d] + rest) == [d.sid] + DoneSids(rest)
  {
  }

  lemma {:induction false} DropDoneCounts(s: seq<Done>, sid: Sid)
    ensures multiset(DoneSids(DropDone(s, sid))) == multiset(DoneSids(s))[sid := 0]
  {
    if s != [] {
      DropDoneCounts(s[1..], sid);
      DoneFront(s[0], s[1..]);
      assert [s[0]] + s[1..] == s;
      DoneFront(s[0], DropDone(s[1..], sid));
      hide DoneSids;
    }
  }

  lemma EndingWaits(t: Transport, sid: Sid)
    ensures Waits(Ending(t, sid)) == Waits(t)[sid := 0]
    ensures |Ending(t, sid).queue| + |Ending(t, sid).done| == |t.queue| + |t.done| - Waits(t)[sid]
    ensures |Ending(t, sid).queue| <= |t.queue|
    ensures sid !in t.queue ==> Ending(t, sid).queue == t.queue
  {
    DropCounts(t.queue, sid);
    DropDoneCounts(t.done, sid);
    assert |multiset(t.queue)[sid := 0]| == |t.queue| - multiset(t.queue)[sid];
    assert |multiset(DoneSids(t.done))[sid := 0]| == |t.done| - multiset(DoneSids(t.done))[sid];
    assert |multiset(DoneSids(DropDone(t.done, sid)))| == |DropDone(t.done, sid)|;
  }

  lemma ShutdownWaits(streams: map<Sid, Record>, bidi: bool, t: Transport, sid: Sid, r: Record)
    requires WaitsOk(streams, bidi, t) && !r.startPending
    ensures WaitsOk(streams - {sid}, bidi, Ending(t, sid)) && WaitsOk(streams[sid := r], bidi, Ending(t, sid))
  {
    hide Waits, Ending;
    EndingWaits(t, sid);
  }

  lemma EndingIds(isClient: bool, bidi: bool, started: nat, t: Transport, sid: Sid)
    requires IdsOk(isClient, bidi, started, t)
    ensures IdsOk(isClient, bidi, started, Ending(t, sid))
  {
    hide Drop, DropDone, IdOf;
    DropCounts(t.queue, sid);
  }

  /** A stream that ends gives back exactly the start it still had pending. */
  lemma ShutdownKeeps(a: Starts, bidi: bool, t: Transport, sid: Sid, kept: bool)
    requires RecordsOk(a) && DirOk(a, bidi, t) && sid in a.streams
    ensures DirOk(Shutdown(a, sid, kept), bidi, Ending(t, sid))
  {
    hide Waits, RecordsOk, WaitsOk, IdsOk, RecordOk, Drop, DropDone;
    EndingWaits(t, sid);
    var r := a.streams[sid].(startPending := false);
    ShutdownWaits(a.streams, bidi, t, sid, r.(terminalOwed := true));
    EndingIds(a.isClient, bidi, SideOf(a, bidi).started, t, sid);
    StillWaiting(a, bidi, t, sid);
    assert a.streams[sid := r] - {sid} == a.streams - {sid};
    assert a.streams[sid := r][sid := r.(terminalOwed := true)] == a.streams[sid := r.(terminalOwed := true)];
  }

  lemma StillWaiting(a: Starts, bidi: bool, t: Transport, sid: Sid)
    requires RecordsOk(a) && WaitsOk(a.streams, bidi, t) && sid in a.streams
    ensures Waits(t)[sid] == if a.streams[sid].isBidi == bidi && a.streams[sid].startPending then 1 else 0
  {
    hide Waits;
    assert RecordOk(a.isClient, SideOf(a, a.streams[sid].isBidi).started, sid, a.streams[sid]);
  }

  /** A record the bridge has heard the end of was not waiting for its start. */
  lemma TerminalKeeps(a: Starts, bidi: bool, t: Transport, sid: Sid)
    requires RecordsOk(a) && DirOk(a, bidi, t) && sid in a.streams && a.streams[sid].terminalOwed
    ensures DirOk(Forgotten(a, sid), bidi, t)
  {
    hide Waits, IdsOk, LimitOk;
    assert RecordOk(a.isClient, SideOf(a, a.streams[sid].isBidi).started, sid, a.streams[sid]);
  }

  // ----- every step -----

  lemma ReportKeeps(a: Starts, bidi: bool, t: Transport, bidiCount: nat, uniCount: nat)
    requires DirOk(a, bidi, t) && (if bidi then bidiCount else uniCount) == Available(t)
    ensures DirOk(Report(a, bidiCount, uniCount), bidi, t)
  {
    hide WaitsOk, IdsOk;
  }

  lemma PeerKeeps(a: Starts, sid: Sid, peerBidi: bool, bidi: bool, t: Transport)
    requires DirOk(a, bidi, t) && sid !in a.streams
    ensures DirOk(a.(streams := a.streams[sid := Record(peerBidi, false, false, false)]), bidi, t)
  {
    hide Waits, IdsOk, LimitOk;
  }

  lemma RaiseKeeps(a: Starts, bidi: bool, t: Transport, limit: nat)
    requires DirOk(a, bidi, t) && t.limit <= limit
    ensures DirOk(a, bidi, t.(limit := limit))
  {
    assert Waits(t.(limit := limit)) == Waits(t);
    hide Waits;
  }

  lemma SharedRecords(a: Starts, op: Op, w: World)
    requires w.a == a && RecordsOk(a) && Enabled(w, op) && !op.OpenOp?
    ensures RecordsOk(Step(w, op).a)
  {
    hide Drop, DropDone;
    if op.CompleteOp? {
      SettleRecords(a, DirOf(w, op.bidi).done[0].sid, false);
    } else if op.ShutdownOp? {
      SettleRecords(a, op.sid, op.kept);
    }
  }

  lemma StepKeeps(w: World, op: Op)
    requires Inv(w) && Enabled(w, op)
    ensures Inv(Step(w, op))
  {
    hide RecordsOk, DirOk, Shutdown, Forgotten, Ending, Settle, Report, Available, Processing, Open;
    if !op.OpenOp? {
      SharedRecords(w.a, op, w);
    }
    match op
    case OpenOp(bidi, env) => OpenKeeps(w, bidi, env);
    case ProcessOp(bidi, ok) => ProcessKeeps(w.a, bidi, DirOf(w, bidi), ok);
    case CompleteOp(bidi) => CompleteKeeps(w.a, bidi, DirOf(w, bidi), DirOf(w, !bidi));
    case ReportOp =>
      ReportKeeps(w.a, true, w.bidi, Available(w.bidi), Available(w.uni));
      ReportKeeps(w.a, false, w.uni, Available(w.bidi), Available(w.uni));
    case RaiseOp(bidi, limit) => RaiseKeeps(w.a, bidi, DirOf(w, bidi), limit);
    case PeerOp(sid, bidi) =>
      PeerKeeps(w.a, sid, bidi, true, w.bidi);
      PeerKeeps(w.a, sid, bidi, false, w.uni);
    case ShutdownOp(sid, kept) =>
      ShutdownKeeps(w.a, true, w.bidi, sid, kept);
      ShutdownKeeps(w.a, false, w.uni, sid, kept);
    case TerminalOp(sid) =>
      TerminalKeeps(w.a, true, w.bidi, sid);
      TerminalKeeps(w.a, false, w.uni, sid);
  }

  /** Who opened the connection never changes, and counts of started streams only grow. */
  lemma StepGrows(w: World, op: Op, bidi: bool)
    requires Enabled(w, op)
    ensures Step(w, op).a.isClient == w.a.isClient
    ensures SideOf(Step(w, op).a, bidi).started ==
              SideOf(w.a, bidi).started
            + if op.OpenOp? && op.bidi == bidi && Open(w.a, bidi, op.env).1.Ok? then 1 else 0
  {
    hide IdOf, Ending, Processing, Available, CreditAfterPending, Settle, Shutdown;
    if op.CompleteOp? {
      SettleGrows(w.a, DirOf(w, op.bidi).done[0].sid, bidi, false);
    } else if op.ShutdownOp? {
      SettleGrows(w.a, op.sid, bidi, op.kept);
    }
  }

  lemma SettleGrows(a: Starts, sid: Sid, bidi: bool, kept: bool)
    requires sid in a.streams
    ensures Settle(a, sid).isClient == a.isClient == Shutdown(a, sid, kept).isClient
    ensures SideOf(Settle(a, sid), bidi).started == SideOf(a, bidi).started
    ensures SideOf(Shutdown(a, sid, kept), bidi).started == SideOf(a, bidi).started
  {
  }

  lemma StartOk(isClient: bool, bidiLimit: nat, uniLimit: nat)
    ensures Inv(World(NewStarts(isClient), Start(bidiLimit), Start(uniLimit)))
  {
  }

  lemma {:induction false} EveryState(states: seq<World>, ops: seq<Op>, isClient: bool, bidiLimit: nat,
                                      uniLimit: nat, k: nat)
    requires Run(states, ops, isClient, bidiLimit, uniLimit) && k < |states|
    ensures Inv(states[k]) && states[k].a.isClient == isClient
  {
    hide Inv, Step, Enabled;
    if k == 0 {
      StartOk(isClient, bidiLimit, uniLimit);
    } else {
      EveryState(states, ops, isClient, bidiLimit, uniLimit, k - 1);
      StepKeeps(states[k - 1], ops[k - 1]);
      StepGrows(states[k - 1], ops[k - 1], true);
    }
  }

  // ----- what follows -----

  /** The streams that count against the peer's limit once every queued start is processed. */
  function Committed(t: Transport): nat { t.counted + |t.queue| }

  /** Once credit is known every permitted open stays within the limit; and if none went out before the first report,
      the limit holds throughout. */
  lemma CreditSafe(states: seq<World>, ops: seq<Op>, isClient: bool, bidiLimit: nat, uniLimit: nat, k: nat, bidi: bool)
    requires Run(states, ops, isClient, bidiLimit, uniLimit) && k < |states|
    ensures DirOf(states[k], bidi).ungated == 0 ==> Committed(DirOf(states[k], bidi)) <= DirOf(states[k], bidi).limit
    ensures k < |ops| && ops[k].OpenOp? && ops[k].bidi == bidi && states[k].a.known
            && Open(states[k].a, bidi, ops[k].env).1.Ok? ==>
              Committed(DirOf(states[k + 1], bidi)) <= DirOf(states[k + 1], bidi).limit
  {
    EveryState(states, ops, isClient, bidiLimit, uniLimit, k);
    hide WaitsOk, IdsOk, RecordsOk, IdOf;
  }

  /** The pending counter of a direction is the number of records marked pending, so it never runs below zero. */
  lemma PendingExact(states: seq<World>, ops: seq<Op>, isClient: bool, bidiLimit: nat, uniLimit: nat,
                     k: nat, bidi: bool)
    requires Run(states, ops, isClient, bidiLimit, uniLimit) && k < |states|
    ensures SideOf(states[k].a, bidi).pending
         == |set sid | sid in states[k].a.streams && IsWaiting(states[k].a.streams, bidi, sid)|
  {
    EveryState(states, ops, isClient, bidiLimit, uniLimit, k);
    hide Run, IdsOk, RecordsOk, LimitOk;
    var a, t := states[k].a, DirOf(states[k], bidi);
    var waiting := set sid | sid in a.streams && IsWaiting(a.streams, bidi, sid);
    assert Waits(t) == multiset(waiting);
    assert |Waits(t)| == |t.queue| + |t.done|;
  }

  lemma {:induction false} StartedGrows(states: seq<World>, ops: seq<Op>, isClient: bool, bidiLimit: nat, uniLimit: nat,
                                        j: nat, k: nat, bidi: bool)
    requires Run(states, ops, isClient, bidiLimit, uniLimit) && j <= k < |states|
    ensures SideOf(states[j].a, bidi).started <= SideOf(states[k].a, bidi).started
  {
    hide Step, Enabled;
    if j < k {
      StartedGrows(states, ops, isClient, bidiLimit, uniLimit, j, k - 1, bidi);
      StepGrows(states[k - 1], ops[k - 1], bidi);
    }
  }

  /** The ids handed out are distinct, of the right type, and increasing in each direction without a gap. */
  lemma IdsInOrder(states: seq<World>, ops: seq<Op>, isClient: bool, bidiLimit: nat, uniLimit: nat, j: nat, k: nat)
    requires Run(states, ops, isClient, bidiLimit, uniLimit) && j < k < |ops| && ops[j].OpenOp? && ops[k].OpenOp?
    requires Open(states[j].a, ops[j].bidi, ops[j].env).1.Ok? && Open(states[k].a, ops[k].bidi, ops[k].env).1.Ok?
    ensures var early := Open(states[j].a, ops[j].bidi, ops[j].env).1.id;
            var late := Open(states[k].a, ops[k].bidi, ops[k].env).1.id;
            var between := SideOf(states[k].a, ops[k].bidi).started - SideOf(states[j].a, ops[j].bidi).started;
            && early != late && early % 4 == TypeBits(isClient, ops[j].bidi)
            && (ops[j].bidi == ops[k].bidi ==> early < late && late - early == 4 * between)
  {
    EveryState(states, ops, isClient, bidiLimit, uniLimit, j);
    EveryState(states, ops, isClient, bidiLimit, uniLimit, k);
    StepGrows(states[j], ops[j], ops[j].bidi);
    StartedGrows(states, ops, isClient, bidiLimit, uniLimit, j + 1, k, ops[j].bidi);
    IdParts(isClient, ops[j].bidi, SideOf(states[j].a, ops[j].bidi).started);
    IdParts(isClient, ops[k].bidi, SideOf(states[k].a, ops[k].bidi).started);
    hide Inv, Step;
  }

  /** As long as every start was counted, the transport numbers the next one exactly as the adapter did. */
  lemma IdsAgree(states: seq<World>, ops: seq<Op>, isClient: bool, bidiLimit: nat, uniLimit: nat, k: nat, bidi: bool)
    requires Run(states, ops, isClient, bidiLimit, uniLimit) && k < |states|
    requires DirOf(states[k], bidi).clean && DirOf(states[k], bidi).queue != []
    ensures DirOf(states[k], bidi).queue[0] == IdOf(isClient, bidi, DirOf(states[k], bidi).counted)
  {
    EveryState(states, ops, isClient, bidiLimit, uniLimit, k);
    hide Run, WaitsOk, RecordsOk, LimitOk, IdOf;
  }
}

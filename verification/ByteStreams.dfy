/**
 Each stream of the send queue as a byte stream.  For every run: the bytes
 handed over followed by the bytes queued are the accepted bytes, in order; a
 plan tells the truth about the commit that follows it; and, for callers that
 push nothing behind a FIN, a truncate keeps exactly the prefix still owed,
 however commits and further truncates interleave with it.
 */
module ByteStreams {
  import ProbeTable
  import opened SendQueueModel
  import opened SendQueueRuns

  type Sid = ProbeTable.Sid

  // ----- one operation -----

  /** A plan describes the commit that follows it; with FIN on the last chunk at most, the FIN too. */
  lemma PlanTellsCommit(q: Queue, sid: Sid, max: nat)
    requires AllOk(q) && HasData(q, sid)
    ensures var p := Plan(q, sid, max);
            var (q', out) := Commit(q, sid, p.nbytes);
            && p.nbytes <= max
            && out == PendingOf(q, sid)[..p.nbytes]
            && PendingOf(q', sid) == PendingOf(q, sid)[p.nbytes..]
            && p.stillActive == HasData(q', sid)
            && (p.isFin ==> ClosedOf(q, sid) && sid !in q'.streams)
            && (FinLast(q.streams[sid].chunks) ==> p.isFin == Drain(q.streams[sid].chunks, p.nbytes).fin)
            && (FinLast(q.streams[sid].chunks) && p.isFin ==> sid !in q'.provided)
            && (FinLast(q.streams[sid].chunks) && !p.isFin && sid in q.provided ==>
                  sid in q'.provided && q'.provided[sid] == q.provided[sid] + p.nbytes)
  {
    var s := q.streams[sid];
    var n := Plan(q, sid, max).nbytes;
    DrainBytes(s.chunks, n);
    DrainEmpties(s.chunks, n);
    if FinLast(s.chunks) {
      DrainFin(s.chunks, n);
    }
  }

  lemma {:induction false} FinPoppedEarly(chunks: seq<Chunk>, i: nat) returns (n: nat)
    requires ChunksOk(chunks) && i + 1 < |chunks| && chunks[i].fin
    ensures n < Bytes(chunks) && Drain(chunks, n).fin
  {
    var rest := chunks[1..];
    if i == 0 {
      n := Left(chunks[0]);
      assert Pending(rest) == rest[0].data[rest[0].offset..] + Pending(rest[1..]);
    } else {
      var n' := FinPoppedEarly(rest, i - 1);
      n := Left(chunks[0]) + n';
    }
  }

  /** Every plan announces the FIN exactly when its commit hands one over, if and only if FIN is on the last chunk
      at most, that is, if and only if nothing was pushed behind a FIN still queued. */
  lemma PlansTruthful(q: Queue, sid: Sid)
    requires AllOk(q) && HasData(q, sid)
    ensures (forall max: nat :: Plan(q, sid, max).isFin == Drain(q.streams[sid].chunks, Plan(q, sid, max).nbytes).fin)
            <==> FinLast(q.streams[sid].chunks)
  {
    var chunks := q.streams[sid].chunks;
    if FinLast(chunks) {
      forall max: nat ensures Plan(q, sid, max).isFin == Drain(chunks, Plan(q, sid, max).nbytes).fin {
        PlanTellsCommit(q, sid, max);
      }
    } else {
      var i :| 0 <= i < |chunks| - 1 && chunks[i].fin;
      var n := FinPoppedEarly(chunks, i);
      assert Plan(q, sid, n).nbytes == n && !Plan(q, sid, n).isFin;
    }
  }

  /** A truncate keeps the part of the reliable prefix that was not provided, and no FIN. */
  lemma TruncateKeeps(q: Queue, sid: Sid, reliable: nat)
    requires AllOk(q)
    ensures var (q', left) := Truncate(q, sid, reliable);
            var owed := Max(0, reliable - ProvidedOf(q, sid));
            && PendingOf(q', sid) == PendingOf(q, sid)[..Min(owed, |PendingOf(q, sid)|)]
            && left == |PendingOf(q', sid)|
            && !ClosedOf(q', sid)
            && (left == 0 ==> sid !in q'.streams && sid !in q'.provided)
            && (left > 0 ==> q'.provided == q.provided)
            && (sid in q'.streams ==> FinLast(q'.streams[sid].chunks))
  {
    hide Keep, Pending, Markers, Drain;
    if sid in q.streams && reliable > ProvidedOf(q, sid) {
      var chunks := q.streams[sid].chunks;
      KeepBytes(chunks, reliable - ProvidedOf(q, sid));
      KeepShape(chunks, reliable - ProvidedOf(q, sid));
    }
  }

  /** Truncating twice is truncating once at the smaller size. */
  lemma TruncateTwice(q: Queue, sid: Sid, first: nat, second: nat)
    requires Conserved(q)
    ensures var q1 := Truncate(q, sid, first).0;
            PendingOf(Truncate(q1, sid, second).0, sid) == PendingOf(Truncate(q, sid, Min(first, second)).0, sid)
  {
    hide Keep, Pending, Drain;
    var q1 := Truncate(q, sid, first).0;
    TruncateConserves(q, sid, first);
    TruncateKeeps(q, sid, first);
    TruncateKeeps(q1, sid, second);
    TruncateKeeps(q, sid, Min(first, second));
  }

  // ----- what an operation does to one stream -----

  /** Chunks, record and log of a stream are untouched by operations on others. */
  ghost predicate SameStream(s: State, s': State, sid: Sid) {
    SameIn(s.q, s'.q, sid) && SameLog(s, s', sid)
  }

  ghost predicate SameLog(s: State, s': State, sid: Sid) {
    HistoryOf(s'.log, sid) == HistoryOf(s.log, sid)
  }

  ghost predicate SameIn(q: Queue, q': Queue, sid: Sid) {
    && (sid in q'.streams <==> sid in q.streams)
    && (sid in q.streams ==> q'.streams[sid].chunks == q.streams[sid].chunks)
    && (sid in q'.provided <==> sid in q.provided)
    && (sid in q.provided ==> q'.provided[sid] == q.provided[sid])
  }

  lemma PushBytesOther(q: Queue, at: Sid, data: seq<Byte>, fin: bool, memory: bool, record: bool, sid: Sid)
    requires at in q.streams && at != sid
    ensures SameIn(q, PushBytes(q, at, data, fin, memory, record).0, sid)
    ensures SameIn(q, PushBareFin(q, at, memory).0, sid)
  {
    hide Pending, Markers;
  }

  lemma AdmittedOther(q: Queue, op: Op, sid: Sid)
    requires op.PushOp? && op.sid != sid
    ensures SameIn(q, PushAdmitted(q, op.sid, op.data, op.fin, op.copied, op.alloc).0, sid)
  {
    hide PushBytes, PushBareFin;
    var q1 := FindOrCreate(q, op.sid);
    var memory := op.alloc.chunk && (!op.copied || op.alloc.copy);
    PushBytesOther(q1, op.sid, op.data, op.fin, memory, op.alloc.record, sid);
    PushBytesOther(q1, op.sid, op.data, op.fin, op.alloc.chunk, op.alloc.record, sid);
  }

  lemma PushOther(q: Queue, op: Op, sid: Sid)
    requires op.PushOp? && op.sid != sid
    ensures SameIn(q, Push(q, op.sid, op.data, op.fin, op.copied, op.alloc).0, sid)
  {
    hide PushAdmitted;
    AdmittedOther(q, op, sid);
  }

  lemma CommitOther(q: Queue, op: Op, sid: Sid)
    requires op.CommitOp? && op.sid != sid
    ensures SameIn(q, Commit(q, op.sid, op.nbytes).0, sid)
  {
    hide Drain, Pending, Markers;
  }

  lemma TruncateOther(q: Queue, op: Op, sid: Sid)
    requires op.TruncateOp? && op.sid != sid
    ensures SameIn(q, Truncate(q, op.sid, op.reliable).0, sid)
  {
    hide Keep, Pending, Markers;
  }

  lemma NextOther(s: State, op: Op, s': State, sid: Sid)
    requires Next(s, op, s') && (op.RankOp? || op.sid != sid)
    ensures SameStream(s, s', sid)
  {
    match op
    case PushOp(_, _, _, _, _) => PushOther(s.q, op, sid);
    case CommitOp(_, _) => CommitOther(s.q, op, sid);
    case TruncateOp(_, _) => TruncateOther(s.q, op, sid);
    case _ =>
  }

  /** Opening or keying a stream may give it an empty slot and changes nothing else about it. */
  lemma NextSlot(s: State, op: Op, s': State)
    requires Next(s, op, s') && (op.Open? || op.Key?)
    ensures s'.log == s.log && s'.q.provided == s.q.provided
    ensures s'.q.streams == s.q.streams
            || (op.sid in s'.q.streams
                && s'.q.streams[op.sid].chunks == if op.sid in s.q.streams then s.q.streams[op.sid].chunks else [])
  {
  }

  /** The chunks of a stream; none if it holds no slot. */
  function ChunksOf(q: Queue, sid: Sid): seq<Chunk> {
    if sid in q.streams then q.streams[sid].chunks else []
  }

  lemma PendingIsOfChunks(q: Queue, sid: Sid)
    ensures PendingOf(q, sid) == Pending(ChunksOf(q, sid)) && ClosedOf(q, sid) == Closed(ChunksOf(q, sid))
  {
  }

  /** The three outcomes of a push, for the stream pushed to. */
  lemma BytesPushed(q: Queue, sid: Sid, data: seq<Byte>, fin: bool, memory: bool, record: bool)
    requires sid in q.streams && data != []
    ensures var (q', r) := PushBytes(q, sid, data, fin, memory, record);
            var c, c' := ChunksOf(q, sid), ChunksOf(q', sid);
            if r.Accepted? then
              && c' == c + [Chunk(data, 0, fin)] && sid in q'.streams
              && sid in q'.provided && q'.provided[sid] == ProvidedOf(q, sid)
            else r.NoMemory? && c' == c && q'.provided == q.provided && (sid in q'.streams <==> c != [])
  {
    hide Pending, Markers, Max;
  }

  lemma Created(q: Queue, sid: Sid)
    ensures var q1 := FindOrCreate(q, sid);
            && sid in q1.streams && ChunksOf(q1, sid) == ChunksOf(q, sid)
            && q1.provided == q.provided && ProvidedOf(q1, sid) == ProvidedOf(q, sid)
  {
  }

  lemma PushBytesOutcome(q: Queue, sid: Sid, data: seq<Byte>, fin: bool, copied: bool, alloc: Alloc)
    requires data != []
    ensures var (q', r) := Push(q, sid, data, fin, copied, alloc);
            var c, c' := ChunksOf(q, sid), ChunksOf(q', sid);
            if r.Accepted? then
              c' == c + [Chunk(data, 0, fin)] && sid in q'.provided && q'.provided[sid] == ProvidedOf(q, sid)
            else c' == c && q'.provided == q.provided
  {
    hide BudgetFull, PushBytes, FindOrCreate, PushBareFin;
    Created(q, sid);
    BytesPushed(FindOrCreate(q, sid), sid, data, fin, alloc.chunk && (!copied || alloc.copy), alloc.record);
  }

  lemma PushFinOutcome(q: Queue, sid: Sid, fin: bool, copied: bool, alloc: Alloc)
    ensures var (q', r) := Push(q, sid, [], fin, copied, alloc);
            var c, c' := ChunksOf(q, sid), ChunksOf(q', sid);
            && q'.provided == q.provided
            && c' == if !r.Accepted? || !fin then c else if c == [] then [Chunk([], 0, true)] else MarkFin(c)
  {
    hide Pending, Markers, MarkFin, BudgetFull;
  }

  lemma PushOutcome(s: State, op: Op, s': State)
    requires op.PushOp? && Next(s, op, s')
    ensures var c, c' := ChunksOf(s.q, op.sid), ChunksOf(s'.q, op.sid);
            || (c' == c && s'.q.provided == s.q.provided && SameLog(s, s', op.sid))
            || (op.data != [] && c' == c + [Chunk(op.data, 0, op.fin)] && op.sid in s'.q.provided
                && s'.q.provided[op.sid] == ProvidedOf(s.q, op.sid) && Noted(s, op, s'))
            || (op.data == [] && op.fin && s'.q.provided == s.q.provided && Noted(s, op, s')
                && c' == if c == [] then [Chunk([], 0, true)] else MarkFin(c))
  {
    hide Push, ChunksOf, MarkFin, OwedBytes;
    PushBytesOutcome(s.q, op.sid, if op.data != [] then op.data else [0], op.fin, op.copied, op.alloc);
    PushFinOutcome(s.q, op.sid, op.fin, op.copied, op.alloc);
  }

  /** The push was accepted and noted. */
  ghost predicate Noted(s: State, op: Op, s': State)
    requires op.PushOp?
  {
    HistoryOf(s'.log, op.sid) == Accepting(HistoryOf(s.log, op.sid), op.data, op.fin)
  }

  lemma PendingAfterPush(c: seq<Chunk>, data: seq<Byte>, fin: bool)
    ensures data != [] ==> Pending(c + [Chunk(data, 0, fin)]) == Pending(c) + data
    ensures Pending(if c == [] then [Chunk([], 0, true)] else MarkFin(c)) == Pending(c)
  {
    if data != [] {
      var k: Chunk := Chunk(data, 0, fin);
      PendingAppend(c, [k]);
      assert Pending([k]) == data[0..] + Pending([]);
    }
    if c != [] {
      PendingMarkFin(c);
    }
  }

  // ----- order, for any callers -----

  /** What was handed over, then what is queued, is what was accepted. */
  ghost predicate Ordered(s: State, sid: Sid) {
    var h := HistoryOf(s.log, sid);
    !h.cut ==> h.handed + PendingOf(s.q, sid) == h.accepted
  }

  lemma PushOrdered(s: State, op: Op, s': State)
    requires op.PushOp? && Next(s, op, s') && Ordered(s, op.sid)
    ensures Ordered(s', op.sid)
  {
    hide Next, Pending, MarkFin, OwedBytes;
    PushOutcome(s, op, s');
    PendingAfterPush(ChunksOf(s.q, op.sid), op.data, op.fin);
    PendingIsOfChunks(s.q, op.sid);
    PendingIsOfChunks(s'.q, op.sid);
    ConcatAssoc(HistoryOf(s.log, op.sid).handed, PendingOf(s.q, op.sid), op.data);
  }

  /** A commit moves bytes from the queue to the caller. */
  lemma CommitMoves(s: State, op: Op, s': State)
    requires op.CommitOp? && Next(s, op, s')
    ensures var h, h' := HistoryOf(s.log, op.sid), HistoryOf(s'.log, op.sid);
            && h' == h.(handed := h'.handed) && h.handed <= h'.handed
            && h'.handed + PendingOf(s'.q, op.sid) == h.handed + PendingOf(s.q, op.sid)
  {
    hide Drain, Pending;
    var (q', out) := Commit(s.q, op.sid, op.nbytes);
    CommitBytes(s.q, op.sid, op.nbytes);
    ConcatAssoc(HistoryOf(s.log, op.sid).handed, out, PendingOf(s'.q, op.sid));
  }

  lemma CommitBytes(q: Queue, sid: Sid, n: nat)
    ensures var (q', out) := Commit(q, sid, n); out + PendingOf(q', sid) == PendingOf(q, sid)
  {
    hide Drain;
    if sid in q.streams {
      DrainBytes(q.streams[sid].chunks, n);
    }
  }

  lemma NextOrdered(s: State, op: Op, s': State, sid: Sid)
    requires Next(s, op, s') && AllOk(s.q) && Ordered(s, sid)
    ensures Ordered(s', sid)
  {
    if op.RankOp? || op.sid != sid {
      NextOther(s, op, s', sid);
    } else if op.PushOp? {
      PushOrdered(s, op, s');
    } else if op.CommitOp? {
      CommitMoves(s, op, s');
    } else if op.Open? || op.Key? {
      NextSlot(s, op, s');
    }
  }

  /** In every run, a stream that was neither dropped nor truncated delivers its accepted bytes in order. */
  lemma {:induction false} ByteOrder(states: seq<State>, ops: seq<Op>, cap: nat, i: nat, sid: Sid)
    requires Run(states, ops, cap) && i < |states|
    ensures Ordered(states[i], sid)
  {
    if i > 0 {
      ByteOrder(states, ops, cap, i - 1, sid);
      EveryState(states, ops, cap, i - 1);
      assert Next(states[i - 1], ops[i - 1], states[i]);
      NextOrdered(states[i - 1], ops[i - 1], states[i], sid);
    }
  }

  // ----- the owed bytes, for callers that push nothing behind a FIN -----

  ghost predicate Allowed(s: State, op: Op) {
    op.PushOp? && (op.data != [] || op.fin) ==> !HistoryOf(s.log, op.sid).closed
  }

  ghost predicate Disciplined(states: seq<State>, ops: seq<Op>) {
    |states| == |ops| + 1 && forall i :: 0 <= i < |ops| ==> Allowed(states[i], ops[i])
  }

  /** Handed over plus queued is what the stream owes: all of its bytes, or those up to the tightest cut since the last
      were accepted, and in any case what had been handed over before. */
  ghost predicate BytesOwed(h: History, pending: seq<Byte>) {
    && |h.handed| <= |h.full| && h.handed + pending == OwedBytes(h)
    && (!h.resumed ==> h.full == h.accepted)
    && (h.resumed || h.limit.UpTo? ==> h.cut)
  }

  /** The offset record counts the bytes handed over since its base, and is there whenever bytes are queued. */
  ghost predicate RecordOwed(h: History, q: Queue, sid: Sid) {
    && h.base <= |h.handed|
    && (sid in q.provided ==> q.provided[sid] == |h.handed| - h.base)
    && (PendingOf(q, sid) != [] ==> sid in q.provided)
    && (sid !in q.provided && !h.closed ==> h.base == |h.handed|)
    && (h.base > 0 ==> h.cut)
  }

  /** A FIN is queued on the last chunk at most, and was accepted and not cut off. */
  ghost predicate FinOwed(h: History, chunks: seq<Chunk>) {
    FinLast(chunks) && (Closed(chunks) ==> h.closed)
  }

  ghost predicate Owed(s: State, sid: Sid) {
    var h := HistoryOf(s.log, sid);
    BytesOwed(h, PendingOf(s.q, sid)) && RecordOwed(h, s.q, sid) && FinOwed(h, ChunksOf(s.q, sid))
  }

  /** Bytes accepted are owed behind all that is owed already. */
  lemma AcceptedOwed(h: History, pending: seq<Byte>, data: seq<Byte>, fin: bool)
    requires BytesOwed(h, pending)
    ensures BytesOwed(Accepting(h, data, fin), pending + data)
  {
    if data == [] {
      assert pending + data == pending;
    } else {
      ConcatAssoc(h.handed, pending, data);
    }
  }

  lemma PushFin(c: seq<Chunk>, data: seq<Byte>, fin: bool)
    requires FinLast(c) && !Closed(c)
    ensures data != [] ==> FinLast(c + [Chunk(data, 0, fin)]) && Closed(c + [Chunk(data, 0, fin)]) == fin
    ensures FinLast(if c == [] then [Chunk([], 0, true)] else MarkFin(c))
  {
  }

  lemma PushOwed(s: State, op: Op, s': State)
    requires op.PushOp? && Next(s, op, s') && Allowed(s, op) && Owed(s, op.sid)
    ensures Owed(s', op.sid)
  {
    hide Next, Pending, MarkFin, FinLast, Closed, BytesOwed, PendingOf;
    var h, c := HistoryOf(s.log, op.sid), ChunksOf(s.q, op.sid);
    PushOutcome(s, op, s');
    PendingAfterPush(c, op.data, op.fin);
    PendingIsOfChunks(s.q, op.sid);
    PendingIsOfChunks(s'.q, op.sid);
    AcceptedOwed(h, PendingOf(s.q, op.sid), op.data, op.fin);
    assert PendingOf(s.q, op.sid) + [] == PendingOf(s.q, op.sid);
    if ChunksOf(s'.q, op.sid) != c {
      PushFin(c, op.data, op.fin);
    }
  }

  /** Bytes moved from the queue to the caller stay owed bytes. */
  lemma MovedOwed(h: History, pending: seq<Byte>, h': History, pending': seq<Byte>)
    requires BytesOwed(h, pending) && h' == h.(handed := h'.handed) && h.handed <= h'.handed
    requires h'.handed + pending' == h.handed + pending
    ensures BytesOwed(h', pending')
  {
    assert |h'.handed| <= |h.handed + pending|;
  }

  predicate HandsFin(q: Queue, sid: Sid, n: nat) { sid in q.streams && Drain(q.streams[sid].chunks, n).fin }

  /** The record advances with the bytes and goes with the FIN. */
  lemma CommitRecord(q: Queue, sid: Sid, n: nat)
    ensures var (q', out) := Commit(q, sid, n);
            q'.provided == if HandsFin(q, sid, n) then q.provided - {sid}
                           else if sid in q.provided then q.provided[sid := q.provided[sid] + |out|]
                           else q.provided
  {
    hide Drain, Markers, Pending;
    if sid in q.streams {
      NothingDrained(q.streams[sid].chunks, n);
    } else if sid in q.provided {
      assert q.provided[sid := q.provided[sid] + 0] == q.provided;
    }
  }

  lemma NothingDrained(chunks: seq<Chunk>, n: nat)
    ensures chunks == [] ==> Drain(chunks, n) == Drained([], [], false, 0)
  {
  }

  /** A FIN on the last chunk stays there until it is handed over with the last byte. */
  lemma CommitFin(q: Queue, sid: Sid, n: nat)
    requires AllOk(q) && FinLast(ChunksOf(q, sid))
    ensures var q' := Commit(q, sid, n).0;
            && FinLast(ChunksOf(q', sid)) && (Closed(ChunksOf(q', sid)) ==> Closed(ChunksOf(q, sid)))
            && (HandsFin(q, sid, n) ==> Closed(ChunksOf(q, sid)) && PendingOf(q', sid) == [])
  {
    hide Drain, Markers;
    if sid in q.streams {
      var c := q.streams[sid].chunks;
      DrainEmpties(c, n);
      DrainFin(c, n);
      assert Closed(Drain(c, n).rest) ==> Drain(c, n).rest != [];
    }
  }

  lemma CommitOwed(s: State, op: Op, s': State)
    requires op.CommitOp? && Next(s, op, s') && AllOk(s.q) && Owed(s, op.sid)
    ensures Owed(s', op.sid)
  {
    hide Pending, PendingOf, ChunksOf, FinLast, Closed, BytesOwed, AllOk, Drain, HandsFin, CommitDrained;
    var sid := op.sid;
    var h, h' := HistoryOf(s.log, sid), HistoryOf(s'.log, sid);
    CommitMoves(s, op, s');
    MovedOwed(h, PendingOf(s.q, sid), h', PendingOf(s'.q, sid));
    CommitRecord(s.q, sid, op.nbytes);
    CommitFin(s.q, sid, op.nbytes);
    CommitBytes(s.q, sid, op.nbytes);
  }

  /** The prefix a cut leaves of the bytes queued is the prefix it leaves of the bytes owed. */
  lemma CutOwed(h: History, pending: seq<Byte>, size: nat, kept: nat, gone: bool)
    requires BytesOwed(h, pending) && kept <= |pending|
    requires |h.handed| + kept == Max(|h.handed|, Min(h.base + size, |h.handed| + |pending|))
    ensures BytesOwed(Cutting(h, size, gone), pending[..kept])
  {
    assert |h.handed + pending| == KeptLength(h);
    PrefixOfConcat(h.handed, pending, kept);
    assert KeptLength(Cutting(h, size, gone)) == |h.handed| + kept;
    assert h.full[..KeptLength(h)][..|h.handed| + kept] == h.full[..|h.handed| + kept];
  }

  lemma TruncateOwed(s: State, op: Op, s': State)
    requires op.TruncateOp? && Next(s, op, s') && AllOk(s.q) && Owed(s, op.sid)
    ensures Owed(s', op.sid)
  {
    hide Pending, PendingOf, BytesOwed, AllOk, Truncate;
    var sid, r := op.sid, op.reliable;
    var h, p := HistoryOf(s.log, sid), PendingOf(s.q, sid);
    var kept := Min(Max(0, r - ProvidedOf(s.q, sid)), |p|);
    TruncateKeeps(s.q, sid, r);
    HandedOwed(h, p);
    CutOwed(h, p, r, kept, Truncate(s.q, sid, r).1 == 0);
    PendingIsOfChunks(s'.q, sid);
  }

  lemma HandedOwed(h: History, pending: seq<Byte>)
    requires BytesOwed(h, pending)
    ensures |h.handed| + |pending| == KeptLength(h)
  {
    assert |h.handed + pending| == KeptLength(h);
  }

  lemma DropOwed(s: State, op: Op, s': State)
    requires op.DropOp? && Next(s, op, s') && Owed(s, op.sid)
    ensures Owed(s', op.sid)
  {
    hide Pending, BytesOwed;
    var h, p := HistoryOf(s.log, op.sid), PendingOf(s.q, op.sid);
    CutOwed(h, p, 0, 0, true);
    assert p[..0] == [];
  }

  lemma NextOwed(s: State, op: Op, s': State, sid: Sid)
    requires Next(s, op, s') && Allowed(s, op) && AllOk(s.q) && Owed(s, sid)
    ensures Owed(s', sid)
  {
    if op.RankOp? || op.sid != sid {
      NextOther(s, op, s', sid);
    } else if op.PushOp? {
      PushOwed(s, op, s');
    } else if op.CommitOp? {
      CommitOwed(s, op, s');
    } else if op.TruncateOp? {
      TruncateOwed(s, op, s');
    } else if op.DropOp? {
      DropOwed(s, op, s');
    } else {
      NextSlot(s, op, s');
    }
  }

  /** In every run without pushes behind a FIN, what a stream has provided and still queues is exactly what it owes:
      the bytes it had when the last were accepted, up to the tightest cut since; all accepted bytes, if none were
      accepted after a cut. */
  lemma {:induction false} OwedPrefix(states: seq<State>, ops: seq<Op>, cap: nat, i: nat, sid: Sid)
    requires Run(states, ops, cap) && Disciplined(states, ops) && i < |states|
    ensures Owed(states[i], sid)
  {
    hide Next, Allowed, Owed;
    if i == 0 {
      NothingOwed(cap, sid);
    } else {
      OwedPrefix(states, ops, cap, i - 1, sid);
      EveryState(states, ops, cap, i - 1);
      assert Next(states[i - 1], ops[i - 1], states[i]);
      assert Allowed(states[i - 1], ops[i - 1]);
      NextOwed(states[i - 1], ops[i - 1], states[i], sid);
    }
  }

  lemma NothingOwed(cap: nat, sid: Sid)
    ensures Owed(Init(cap), sid)
  {
  }

  // ----- slots without chunks -----

  /** The stream holds a slot and nothing is queued on it. */
  predicate Vacant(q: Queue, sid: Sid) { sid in q.streams && q.streams[sid].chunks == [] }

  /** The operation gives the stream a slot and queues nothing: opening, keying, or a bare FIN whose marker could not be
      allocated. */
  predicate Occupies(q: Queue, op: Op, sid: Sid) {
    match op
    case Open(at, alloc) => at == sid && sid !in q.streams && alloc.table
    case Key(at, _, alloc) => at == sid && sid !in q.streams && alloc.table
    case PushOp(at, data, fin, _, alloc) =>
      at == sid && sid !in q.streams && alloc.table && data == [] && fin && !BudgetFull(q) && !alloc.chunk
    case _ => false
  }

  /** The operation queues something on a stream with an empty slot, or releases the slot. */
  predicate Vacates(q: Queue, op: Op, sid: Sid) {
    match op
    case PushOp(at, data, fin, _, alloc) => at == sid && !BudgetFull(q) && (data != [] || (fin && alloc.chunk))
    case CommitOp(at, _) => at == sid
    case DropOp(at) => at == sid
    case TruncateOp(at, _) => at == sid
    case _ => false
  }

  lemma PushVacant(q: Queue, op: Op)
    requires op.PushOp?
    ensures Vacant(Push(q, op.sid, op.data, op.fin, op.copied, op.alloc).0, op.sid) <==>
              Occupies(q, op, op.sid) || (Vacant(q, op.sid) && !Vacates(q, op, op.sid))
  {
    hide BudgetFull, PushBytes;
    if op.data != [] {
      BytesPushed(FindOrCreate(q, op.sid), op.sid, op.data, op.fin, op.alloc.chunk && (!op.copied || op.alloc.copy),
                  op.alloc.record);
    }
  }

  lemma CommitVacant(q: Queue, sid: Sid, n: nat)
    ensures !Vacant(Commit(q, sid, n).0, sid)
  {
    hide Drain;
  }

  lemma TruncateVacant(q: Queue, sid: Sid, reliable: nat)
    requires AllOk(q)
    ensures !Vacant(Truncate(q, sid, reliable).0, sid)
  {
    hide Drain, Markers;
    TruncateKeeps(q, sid, reliable);
  }

  /** Exactly when a slot without chunks remains: a refused bare FIN leaves one behind, a refused push of bytes
      never. */
  lemma VacantIff(s: State, op: Op, s': State, sid: Sid)
    requires Next(s, op, s') && AllOk(s.q)
    ensures Vacant(s'.q, sid) <==> Occupies(s.q, op, sid) || (Vacant(s.q, sid) && !Vacates(s.q, op, sid))
  {
    hide Push, Commit, Truncate, AllOk, BudgetFull;
    if op.RankOp? || op.sid != sid {
      NextOther(s, op, s', sid);
    } else if op.PushOp? {
      PushVacant(s.q, op);
    } else if op.CommitOp? {
      CommitVacant(s.q, sid, op.nbytes);
    } else if op.TruncateOp? {
      TruncateVacant(s.q, sid, op.reliable);
    }
  }
}

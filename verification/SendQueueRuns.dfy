/**
 What holds in every state a send queue can reach, over runs of any operations
 in any order: counters are conserved, the cap is overshot by one write at
 most, applied levels respect the keys, and each stream's bytes come out in the
 order they went in, cut only where a truncate says.
 */
module SendQueueRuns {
  import opened ProbeTable
  import opened SendQueueModel
  import opened Ranking
  import opened MapTotals

  datatype Op =
    | Open(sid: Sid, alloc: Alloc)
    | Key(sid: Sid, key: nat, alloc: Alloc)
    | PushOp(sid: Sid, data: seq<Byte>, fin: bool, copied: bool, alloc: Alloc)
    | CommitOp(sid: Sid, nbytes: nat)
    | DropOp(sid: Sid)
    | TruncateOp(sid: Sid, reliable: nat)
    | RankOp(ok: bool)

  /** A cut of a stream, counted from its first byte. */
  datatype Limit = Whole | UpTo(size: int)

  /** What an observer of the calls has seen of one stream. */
  datatype History = History(
    accepted: seq<Byte>,    // bytes of accepted pushes
    handed: seq<Byte>,      // bytes copied out by commits
    full: seq<Byte>,        // what the stream owed once its last bytes had been accepted
    limit: Limit,           // the tightest cut since then
    base: nat,              // bytes handed over when the offset record was last given up
    closed: bool,           // a FIN was accepted and has not been cut off since
    cut: bool,              // the stream was truncated or dropped
    resumed: bool)          // bytes were accepted after that

  datatype Log = Log(
    streams: map<Sid, History>,
    lastCost: nat)          // budget charge of the last push that charged any

  datatype State = State(q: Queue, log: Log)

  function Init(cap: nat): State {
    State(Empty(cap), Log(map[], 0))
  }

  function HistoryOf(log: Log, sid: Sid): History {
    if sid in log.streams then log.streams[sid] else History([], [], [], Whole, 0, false, false, false)
  }

  function Noting(log: Log, sid: Sid, h: History): Log { log.(streams := log.streams[sid := h]) }

  /** How many bytes of `full` survive the cuts: up to the tightest one, and in any case those handed over before. */
  function KeptLength(h: History): int {
    if h.limit.Whole? then |h.full| else Max(|h.handed|, Min(h.limit.size, |h.full|))
  }

  function Prefix(s: seq<Byte>, n: int): seq<Byte> { if 0 <= n <= |s| then s[..n] else s }

  /** All that the stream has handed over or still owes. */
  function OwedBytes(h: History): seq<Byte> { Prefix(h.full, KeptLength(h)) }

  function Accepting(h: History, data: seq<Byte>, fin: bool): History {
    if data == [] then h.(closed := h.closed || fin)
    else
      h.(accepted := h.accepted + data, full := OwedBytes(h) + data, limit := Whole, closed := h.closed || fin,
      resumed := h.resumed || h.cut)
  }

  /** A cut to `size` bytes counted from the base; `gone` if nothing stayed queued, and the record with it. */
  function Cutting(h: History, size: nat, gone: bool): History {
    var at := h.base + size;
    h.(limit := UpTo(if h.limit.Whole? then at else Min(h.limit.size, at)),
    base := if gone then |h.handed| else h.base, closed := false, cut := true)
  }

  function NotePush(log: Log, q: Queue, op: Op, r: PushResult): Log
    requires op.PushOp?
  {
    if !r.Accepted? then log
    else
      Noting(log, op.sid, Accepting(HistoryOf(log, op.sid), op.data, op.fin)).(
      lastCost := if op.data != [] then |op.data| else if op.fin && !HasData(q, op.sid) then 1 else log.lastCost)
  }

  function Step(s: State, op: Op): State
    requires !op.RankOp?
  {
    var State(q, log) := s;
    match op
    case Open(sid, alloc) => State(Opened(q, sid, alloc).0, log)
    case Key(sid, key, alloc) => State(SetKey(q, sid, key, alloc).0, log)
    case PushOp(sid, data, fin, copied, alloc) =>
      var (q', r) := Push(q, sid, data, fin, copied, alloc);
      State(q', NotePush(log, q, op, r))
    case CommitOp(sid, n) =>
      var (q', out) := Commit(q, sid, n);
      var h := HistoryOf(log, sid);
      State(q', Noting(log, sid, h.(handed := h.handed + out)))
    case DropOp(sid) => State(Drop(q, sid), Noting(log, sid, Cutting(HistoryOf(log, sid), 0, true)))
    case TruncateOp(sid, r) =>
      var (q', left) := Truncate(q, sid, r);
      State(q', Noting(log, sid, Cutting(HistoryOf(log, sid), r, left == 0)))
  }

  /** A ranking is complete, cut short, or not needed; every other operation is a function of the state. */
  ghost predicate Next(s: State, op: Op, s': State) {
    match op
    case RankOp(ok) =>
      && s'.log == s.log
      && (if !s.q.dirty then s'.q == s.q else if ok then s'.q == Rerank(s.q) else PartlyReranked(s.q, s'.q))
    case _ => s' == Step(s, op)
  }

  ghost predicate Run(states: seq<State>, ops: seq<Op>, cap: nat) {
    && |states| == |ops| + 1
    && states[0] == Init(cap)
    && forall i :: 0 <= i < |ops| ==> Next(states[i], ops[i], states[i + 1])
  }

  // ----- totals over the streams -----

  function StreamBytes(s: Stream): nat { Bytes(s.chunks) }
  function StreamMarkers(s: Stream): nat { Markers(s.chunks) }

  // ----- invariants that need no discipline of the callers -----

  ghost predicate StreamOk(s: Stream) {
    ChunksOk(s.chunks) && s.remaining == Bytes(s.chunks)
  }

  ghost predicate AllOk(q: Queue) {
    forall s :: s in q.streams ==> StreamOk(q.streams[s])
  }

  /** The aggregate counters are the sums they stand for. */
  ghost predicate Conserved(q: Queue) {
    && AllOk(q)
    && q.queued == Total(q.streams, StreamBytes)
    && q.finMarkers == Total(q.streams, StreamMarkers)
  }

  function Charge(q: Queue): int { q.queued + q.finMarkers }

  lemma SetConserves(q: Queue, sid: Sid, st: Stream, q': Queue)
    requires Conserved(q) && StreamOk(st) && q'.streams == q.streams[sid := st]
    requires q'.queued == q.queued - (if sid in q.streams then StreamBytes(q.streams[sid]) else 0) + StreamBytes(st)
    requires q'.finMarkers == q.finMarkers - (if sid in q.streams then StreamMarkers(q.streams[sid]) else 0)
                              + StreamMarkers(st)
    ensures Conserved(q')
  {
    TotalSet(q.streams, sid, st, StreamBytes);
    TotalSet(q.streams, sid, st, StreamMarkers);
    if sid in q.streams {
      TotalRemove(q.streams, sid, StreamBytes);
      TotalRemove(q.streams, sid, StreamMarkers);
    } else {
      assert q.streams - {sid} == q.streams;
    }
  }

  /** Clearing a stream never meets the saturating branch. */
  lemma ClearConserves(q: Queue, sid: Sid)
    requires Conserved(q) && sid in q.streams
    ensures Conserved(Clear(q, sid)) && q.queued >= Bytes(q.streams[sid].chunks)
    ensures Charge(Clear(q, sid)) <= Charge(q)
  {
    TotalRemove(q.streams, sid, StreamBytes);
    TotalRemove(q.streams, sid, StreamMarkers);
  }

  lemma FreshOk()
    ensures StreamOk(FRESH) && StreamBytes(FRESH) == 0 && StreamMarkers(FRESH) == 0
  {
  }

  lemma FindOrCreateConserves(q: Queue, sid: Sid)
    requires Conserved(q)
    ensures Conserved(FindOrCreate(q, sid)) && Charge(FindOrCreate(q, sid)) == Charge(q)
  {
    FreshOk();
    if sid !in q.streams {
      SetConserves(q, sid, FRESH, Create(q, sid));
    }
  }

  /** Appending a live chunk whose bytes and marker have been charged. */
  lemma AppendConserves(q: Queue, q1: Queue, sid: Sid, c: Chunk)
    requires Conserved(q) && sid in q.streams && c.offset == 0
    requires c.data != [] || q.streams[sid].chunks == []
    requires q1.streams == q.streams && q1.queued == q.queued + |c.data|
    requires q1.finMarkers == q.finMarkers + if c.data == [] then 1 else 0
    ensures Conserved(Append(q1, sid, c))
  {
    var s := q.streams[sid];
    PendingAppend(s.chunks, [c]);
    MarkersAppend(s.chunks, [c]);
    assert Pending([c]) == c.data[0..] + Pending([]);
    SetConserves(q, sid, Append(q1, sid, c).streams[sid], Append(q1, sid, c));
  }

  lemma PushBareFinConserves(q: Queue, sid: Sid, memory: bool)
    requires Conserved(q) && sid in q.streams
    ensures Conserved(PushBareFin(q, sid, memory).0)
  {
    var s := q.streams[sid];
    if s.chunks != [] {
      PendingMarkFin(s.chunks);
      SetConserves(q, sid, s.(chunks := MarkFin(s.chunks)), PushBareFin(q, sid, memory).0);
    } else {
      AppendConserves(q, q.(finMarkers := q.finMarkers + 1), sid, Chunk([], 0, true));
    }
  }

  lemma PushBytesConserves(q: Queue, sid: Sid, data: seq<Byte>, fin: bool, memory: bool, record: bool)
    requires Conserved(q) && sid in q.streams && data != []
    ensures Conserved(PushBytes(q, sid, data, fin, memory, record).0)
  {
    hide Conserved, Append, Clear;
    if !memory || (sid !in q.provided && !record) {
      ClearConserves(q, sid);
      return;
    }
    var q1 := q.(provided := if sid in q.provided then q.provided else q.provided[sid := 0],
              queued := q.queued + |data|,
              highWater := Max(q.highWater, q.queued + |data|));
    AppendConserves(q, q1, sid, Chunk(data, 0, fin));
  }

  lemma AdmittedConserves(q: Queue, sid: Sid, data: seq<Byte>, fin: bool, copied: bool, alloc: Alloc)
    requires Conserved(q)
    ensures Conserved(PushAdmitted(q, sid, data, fin, copied, alloc).0)
  {
    hide Conserved;
    var q1 := FindOrCreate(q, sid);
    FindOrCreateConserves(q, sid);
    if data == [] {
      PushBareFinConserves(q1, sid, alloc.chunk);
    } else {
      PushBytesConserves(q1, sid, data, fin, alloc.chunk && (!copied || alloc.copy), alloc.record);
    }
  }

  lemma PushConserves(q: Queue, sid: Sid, data: seq<Byte>, fin: bool, copied: bool, alloc: Alloc)
    requires Conserved(q)
    ensures Conserved(Push(q, sid, data, fin, copied, alloc).0)
  {
    hide PushAdmitted;
    AdmittedConserves(q, sid, data, fin, copied, alloc);
  }

  lemma CommitConserves(q: Queue, sid: Sid, n: nat)
    requires Conserved(q)
    ensures Conserved(Commit(q, sid, n).0) && Charge(Commit(q, sid, n).0) <= Charge(q)
  {
    if sid in q.streams {
      var s := q.streams[sid];
      var d := Drain(s.chunks, n);
      var q1 := HandOver(q, sid, d);
      DrainBytes(s.chunks, n);
      DrainEmpties(s.chunks, n);
      TotalRemove(q.streams, sid, StreamBytes);
      SetConserves(q, sid, q1.streams[sid], q1);
      if d.rest == [] {
        ClearConserves(q1, sid);
      }
    }
  }

  lemma DropConserves(q: Queue, sid: Sid)
    requires Conserved(q)
    ensures Conserved(Drop(q, sid)) && Charge(Drop(q, sid)) <= Charge(q)
  {
    if sid in q.streams {
      ClearConserves(q, sid);
    }
  }

  lemma KeepConserves(q: Queue, sid: Sid, keep: nat)
    requires Conserved(q) && sid in q.streams
    ensures Conserved(KeepOnly(q, sid, keep)) && Charge(KeepOnly(q, sid, keep)) <= Charge(q)
  {
    var s := q.streams[sid];
    KeepBytes(s.chunks, keep);
    KeepShape(s.chunks, keep);
    TotalRemove(q.streams, sid, StreamBytes);
    SetConserves(q, sid, KeepOnly(q, sid, keep).streams[sid], KeepOnly(q, sid, keep));
  }

  lemma TruncateConserves(q: Queue, sid: Sid, reliable: nat)
    requires Conserved(q)
    ensures Conserved(Truncate(q, sid, reliable).0) && Charge(Truncate(q, sid, reliable).0) <= Charge(q)
  {
    DropConserves(q, sid);
    if sid in q.streams && reliable > ProvidedOf(q, sid) {
      KeepConserves(q, sid, reliable - ProvidedOf(q, sid));
      DropConserves(KeepOnly(q, sid, reliable - ProvidedOf(q, sid)), sid);
    }
  }

  /** Opening, keys and ranking touch no byte and no marker. */
  lemma SameChunksConserves(q: Queue, q': Queue)
    requires Conserved(q) && q'.queued == q.queued && q'.finMarkers == q.finMarkers
    requires q'.streams.Keys == q.streams.Keys
    requires forall s :: s in q.streams ==>
               q'.streams[s].chunks == q.streams[s].chunks && q'.streams[s].remaining == q.streams[s].remaining
    ensures Conserved(q')
  {
    TotalSame(q.streams, q'.streams, StreamBytes);
    TotalSame(q.streams, q'.streams, StreamMarkers);
  }

  lemma NextConserves(s: State, op: Op, s': State)
    requires Next(s, op, s') && Conserved(s.q)
    ensures Conserved(s'.q)
    ensures !op.PushOp? ==> Charge(s'.q) <= Charge(s.q)
  {
    match op
    case Open(sid, alloc) =>
      FindOrCreateConserves(s.q, sid);
      if s'.q != s.q { SameChunksConserves(FindOrCreate(s.q, sid), s'.q); }
    case Key(sid, key, alloc) =>
      FindOrCreateConserves(s.q, sid);
      if s'.q != s.q { SameChunksConserves(FindOrCreate(s.q, sid), s'.q); }
    case PushOp(sid, data, fin, copied, alloc) => PushConserves(s.q, sid, data, fin, copied, alloc);
    case CommitOp(sid, n) => CommitConserves(s.q, sid, n);
    case DropOp(sid) => DropConserves(s.q, sid);
    case TruncateOp(sid, r) => TruncateConserves(s.q, sid, r);
    case RankOp(ok) => SameChunksConserves(s.q, s'.q);
  }

  /** A push is charged its bytes, or one unit for a standalone FIN, and only below the cap. */
  lemma PushCharge(s: State, op: Op, s': State)
    requires op.PushOp? && Next(s, op, s') && Conserved(s.q)
    ensures Charge(s'.q) <= Charge(s.q) || (Charge(s.q) < s.q.cap && Charge(s'.q) == Charge(s.q) + s'.log.lastCost)
    ensures Charge(s'.q) <= Charge(s.q) ==> s'.log.lastCost == s.log.lastCost
  {
    hide Total, Pending, Markers, MarkFin, Closed, Max;
    var q1 := FindOrCreate(s.q, op.sid);
    FindOrCreateConserves(s.q, op.sid);
    if op.data != [] && q1.streams[op.sid].chunks == [] {
      ClearConserves(q1, op.sid);
    }
  }

  /** A push is refused for the budget exactly when it would charge a full queue, and then only the count of refusals
      changes. */
  lemma RefusedPush(q: Queue, sid: Sid, data: seq<Byte>, fin: bool, copied: bool, alloc: Alloc)
    ensures var (q', r) := Push(q, sid, data, fin, copied, alloc);
            && (r.CapFull? <==> (data != [] || (fin && !HasData(q, sid))) && BudgetFull(q))
            && (r.CapFull? ==> q' == q.(wouldBlock := q.wouldBlock + 1))
  {
    hide Append, MarkFin, Clear;
  }

  /** The backlog overshoots the cap by less than the last charged write. */
  ghost predicate Capped(s: State) {
    s.q.cap > 0 ==> Charge(s.q) < s.q.cap + s.log.lastCost
  }

  lemma SameCap(s: State, op: Op, s': State)
    requires Next(s, op, s')
    ensures s'.q.cap == s.q.cap
    ensures !op.PushOp? ==> s'.log.lastCost == s.log.lastCost
  {
    hide Push, Truncate, Commit, Rerank;
    match op
    case PushOp(sid, data, fin, copied, alloc) => PushCap(s.q, sid, data, fin, copied, alloc);
    case TruncateOp(sid, size) => TruncateCap(s.q, sid, size);
    case CommitOp(sid, n) => CommitCap(s.q, sid, n);
    case RankOp(_) => RerankCap(s.q);
    case _ =>
  }

  lemma PushCap(q: Queue, sid: Sid, data: seq<Byte>, fin: bool, copied: bool, alloc: Alloc)
    ensures Push(q, sid, data, fin, copied, alloc).0.cap == q.cap
  {
  }

  lemma TruncateCap(q: Queue, sid: Sid, size: nat)
    ensures Truncate(q, sid, size).0.cap == q.cap
  {
  }

  lemma CommitCap(q: Queue, sid: Sid, n: nat)
    ensures Commit(q, sid, n).0.cap == q.cap
  {
  }

  lemma RerankCap(q: Queue)
    ensures Rerank(q).cap == q.cap
  {
  }

  lemma NextCapped(s: State, op: Op, s': State)
    requires Next(s, op, s') && Conserved(s.q) && Capped(s)
    ensures Capped(s') && s'.q.cap == s.q.cap
  {
    hide Next, Conserved;
    SameCap(s, op, s');
    if op.PushOp? {
      PushCharge(s, op, s');
    } else {
      NextConserves(s, op, s');
    }
  }

  // ----- ranking -----

  /** The started streams of q' are started streams of q with the same key and level. */
  ghost predicate Unranked(q: Queue, q': Queue) {
    forall s :: s in q'.streams && !q'.streams[s].unstarted ==>
      && s in q.streams && !q.streams[s].unstarted
      && q'.streams[s].key == q.streams[s].key
      && q'.streams[s].level == q.streams[s].level
      && q'.streams[s].levelApplied == q.streams[s].levelApplied
  }

  lemma RankFrame(q: Queue, q': Queue)
    requires RankInv(q)
    requires q'.dirty || (!q.dirty && Unranked(q, q'))
    ensures RankInv(q')
  {
  }

  /** The flag is raised, or the started streams are as before, or fewer. */
  ghost predicate Flagged(q: Queue, q': Queue) {
    q'.dirty || (!q.dirty && Unranked(q, q'))
  }

  lemma PushFlagged(q: Queue, sid: Sid, data: seq<Byte>, fin: bool, copied: bool, alloc: Alloc)
    ensures Flagged(q, PushAdmitted(q, sid, data, fin, copied, alloc).0)
  {
    hide Pending, Markers;
  }

  lemma CutFlagged(q: Queue, sid: Sid, d: Drained, reliable: nat)
    ensures sid in q.streams ==> Flagged(q, CommitDrained(q, sid, d))
    ensures Flagged(q, Truncate(q, sid, reliable).0) && Flagged(q, Drop(q, sid))
  {
    hide Keep, Pending, Markers;
  }

  /** Every operation but a ranking raises the flag or ranks nobody anew. */
  lemma NextFlagged(s: State, op: Op, s': State)
    requires Next(s, op, s') && !op.RankOp?
    ensures Flagged(s.q, s'.q)
  {
    hide PushAdmitted, CommitDrained, Truncate, Drop, Drain;
    match op
    case PushOp(sid, data, fin, copied, alloc) => PushFlagged(s.q, sid, data, fin, copied, alloc);
    case CommitOp(sid, n) =>
      if sid in s.q.streams { CutFlagged(s.q, sid, Drain(s.q.streams[sid].chunks, n), 0); }
    case DropOp(sid) => CutFlagged(s.q, sid, Drained([], [], false, 0), 0);
    case TruncateOp(sid, r) => CutFlagged(s.q, sid, Drained([], [], false, 0), r);
    case _ =>
  }

  lemma NextRanked(s: State, op: Op, s': State)
    requires Next(s, op, s') && RankInv(s.q)
    ensures RankInv(s'.q)
  {
    if op.RankOp? {
      RerankInOrder(s.q);
      assert s.q.dirty && !op.ok ==> s'.q.dirty;
    } else {
      hide Next, RankInv, Unranked;
      NextFlagged(s, op, s');
      RankFrame(s.q, s'.q);
    }
  }

  // ----- whole runs -----

  ghost predicate Good(s: State, cap: nat) {
    Conserved(s.q) && Capped(s) && RankInv(s.q) && s.q.cap == cap
  }

  /** Every reachable state conserves its counters, keeps to the cap and respects the keys. */
  lemma {:induction false} EveryState(states: seq<State>, ops: seq<Op>, cap: nat, i: nat)
    requires Run(states, ops, cap) && i < |states|
    ensures Good(states[i], cap)
  {
    if i > 0 {
      EveryState(states, ops, cap, i - 1);
      assert Next(states[i - 1], ops[i - 1], states[i]);
      NextConserves(states[i - 1], ops[i - 1], states[i]);
      NextCapped(states[i - 1], ops[i - 1], states[i]);
      NextRanked(states[i - 1], ops[i - 1], states[i]);
    }
  }
}

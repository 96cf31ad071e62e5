/**
 Reliable resets end to end: the send queue and the table of deferred resets,
 over every run of pushes, provides, drops, resets and flushes in which nothing
 is pushed behind a FIN.
 */
module ResetRuns {
  import ProbeTable
  import opened SendQueueModel
  import opened SendQueueRuns
  import opened ByteStreams
  import opened DeferredResets

  type Sid = ProbeTable.Sid

  /** A reset cuts its stream to its reliable size, a drop to nothing. */
  datatype Cut = Cut(
    sid: Sid,
    asked: nat,               // the reliable size
    size: nat,                // bytes of the stream that makes, as the offset record counts them
    handed: nat,              // bytes handed over by then
    accepted: nat)            // bytes accepted by then

  /** The stream's history at the moment a reset was issued for it, and the frames that went out. */
  datatype Witness = Witness(d: Deferred, cuts: seq<Cut>, h: History, frames: seq<Frame>)

  datatype Ep = Ep(
    s: State,
    cuts: seq<Cut>,
    deferred: seq<Deferred>,
    created: seq<Deferred>,   // every reset asked for and not refused
    settled: seq<Deferred>,   // every reset given up by settling the table
    witnesses: seq<Witness>,  // every reset issued, in order
    frames: seq<Frame>)       // every frame sent, in order

  datatype EpOp =
    | QueueOp(op: Op)
    | ResetAtOp(d: Deferred, reliable: nat, t: Transport, room: bool)
    | FlushOp(t: Transport)
    | SettleOp

  // ----- steps -----

  function CutOf(h: History, sid: Sid, asked: nat): Cut {
    Cut(sid, asked, h.base + asked, |h.handed|, |h.accepted|)
  }

  function WithCut(e: Ep, sid: Sid, size: nat): seq<Cut> {
    e.cuts + [CutOf(HistoryOf(e.s.log, sid), sid, size)]
  }

  function Dropping(e: Ep, sid: Sid): Ep {
    e.(s := Step(e.s, DropOp(sid)), cuts := WithCut(e, sid, 0))
  }

  function Truncating(e: Ep, sid: Sid, reliable: nat): Ep {
    e.(s := Step(e.s, TruncateOp(sid, reliable)), cuts := WithCut(e, sid, reliable))
  }

  function Witnessed(e: Ep, d: Deferred, t: Transport): Witness {
    Witness(d, e.cuts, HistoryOf(e.s.log, d.sid), Issued(d, t).frames)
  }

  function IssueOne(e: Ep, d: Deferred, t: Transport): Ep {
    var e1 := e.(witnesses := e.witnesses + [Witnessed(e, d, t)], frames := e.frames + Issued(d, t).frames);
    if Issued(d, t).quiesced then Dropping(e1, d.sid) else e1
  }

  /** The flush of DeferredResets, with the history kept. */
  function FlushEntries(e: Ep, entries: seq<Deferred>, t: Transport): Ep
    decreases entries
  {
    if entries == [] then e
    else if HasData(e.s.q, entries[0].sid) then
      FlushEntries(e.(deferred := e.deferred + [entries[0]]), entries[1..], t)
    else FlushEntries(IssueOne(e, entries[0], t), entries[1..], t)
  }

  ghost predicate EpNext(e: Ep, op: EpOp, e': Ep, preamble: nat) {
    match op
    case QueueOp(o) =>
      && !o.TruncateOp? && Allowed(e.s, o) && Next(e.s, o, e'.s)
      && e' == e.(s := e'.s, cuts := if o.DropOp? then WithCut(e, o.sid, 0) else e.cuts)
    case ResetAtOp(d, reliable, t, room) =>
      && d.size == preamble + reliable
      && var e1 := Truncating(e, d.sid, reliable);
      if Truncate(e.s.q, d.sid, reliable).1 == 0 then e' == IssueOne(e1.(created := e.created + [d]), d, t)
      else if room then e' == e1.(deferred := e.deferred + [d], created := e.created + [d])
      else e' == e1
    case FlushOp(t) => e' == FlushEntries(e.(deferred := []), e.deferred, t)
    case SettleOp => e' == e.(deferred := [], settled := e.settled + e.deferred)
  }

  function Start(cap: nat): Ep { Ep(Init(cap), [], [], [], [], [], []) }

  ghost predicate EpRun(states: seq<Ep>, ops: seq<EpOp>, cap: nat, preamble: nat) {
    && |states| == |ops| + 1
    && states[0] == Start(cap)
    && forall i :: 0 <= i < |ops| ==> EpNext(states[i], ops[i], states[i + 1], preamble)
  }

  // ----- what the cuts leave -----

  /** Every cut of the stream left at least `m` bytes, or came when that many had been handed over, counting the bytes
      accepted since; `all` were accepted altogether. */
  ghost predicate Spared(cuts: seq<Cut>, sid: Sid, m: int, all: int) {
    forall i :: 0 <= i < |cuts| && cuts[i].sid == sid ==>
      cuts[i].size + (all - cuts[i].accepted) >= m || cuts[i].handed + (all - cuts[i].accepted) >= m
  }

  /** How many of `all` bytes the cuts have left. */
  ghost function Content(cuts: seq<Cut>, sid: Sid, all: int): int {
    if cuts == [] then all
    else
      var k, c := Content(cuts[..|cuts| - 1], sid, all), cuts[|cuts| - 1];
      if c.sid == sid then Min(k, Max(c.handed, c.size) + (all - c.accepted)) else k
  }

  lemma {:induction false} ContentIff(cuts: seq<Cut>, sid: Sid, all: int, m: int)
    requires m <= all
    ensures Content(cuts, sid, all) >= m <==> Spared(cuts, sid, m, all)
  {
    if cuts != [] {
      ContentIff(cuts[..|cuts| - 1], sid, all, m);
    }
  }

  /** Bytes accepted are left by every cut made before. */
  lemma {:induction false} ContentGrows(cuts: seq<Cut>, sid: Sid, all: int, n: int)
    ensures Content(cuts, sid, all + n) == Content(cuts, sid, all) + n
  {
    if cuts != [] {
      ContentGrows(cuts[..|cuts| - 1], sid, all, n);
    }
  }

  lemma OneMore(cuts: seq<Cut>, c: Cut, sid: Sid, all: int)
    ensures var k := Content(cuts, sid, all);
            Content(cuts + [c], sid, all) ==
            if c.sid == sid then Min(k, Max(c.handed, c.size) + (all - c.accepted)) else k
  {
    assert (cuts + [c])[..|cuts|] == cuts;
  }

  // ----- invariant -----

  /** What the stream has handed over and still queues is what the cuts have left of its accepted bytes. */
  ghost predicate StreamInv(s: State, cuts: seq<Cut>, sid: Sid) {
    var h, p := HistoryOf(s.log, sid), PendingOf(s.q, sid);
    && Owed(s, sid) && |h.handed| + |p| == Content(cuts, sid, |h.accepted|) && Earlier(cuts, sid, |h.accepted|)
  }

  /** The cuts came when no more had been accepted than now, and none keeps less than it was asked to. */
  ghost predicate Earlier(cuts: seq<Cut>, sid: Sid, all: int) {
    forall c :: c in cuts && c.sid == sid ==> c.accepted <= all && c.asked <= c.size
  }

  /** The reset was asked for by one of the cuts. */
  ghost predicate Asked(cuts: seq<Cut>, d: Deferred, preamble: nat) {
    exists i :: 0 <= i < |cuts| && cuts[i].sid == d.sid && cuts[i].asked + preamble == d.size
  }

  /** When the reset was issued the stream had handed over, in order, exactly what the cuts had left of it: any number
      of bytes if and only if every cut had spared that many. They are its accepted bytes from the first unless some
      were accepted after a cut. At most one frame went out. */
  ghost predicate Honoured(w: Witness, preamble: nat) {
    var all := |w.h.accepted|;
    && Asked(w.cuts, w.d, preamble) && Earlier(w.cuts, w.d.sid, all)
    && w.h.handed <= w.h.full && (!w.h.resumed ==> w.h.full == w.h.accepted)
    && (forall m: nat :: m <= all ==> (|w.h.handed| >= m <==> Spared(w.cuts, w.d.sid, m, all)))
    && (w.frames == [] || w.frames == [ResetStreamAt(w.d.sid, w.d.code, w.d.size)]
        || w.frames == [ResetStream(w.d.sid, w.d.code)])
  }

  ghost function IssuedBy(ws: seq<Witness>): seq<Deferred> { seq(|ws|, i requires 0 <= i < |ws| => ws[i].d) }

  ghost function FramesBy(ws: seq<Witness>): seq<Frame> {
    if ws == [] then [] else FramesBy(ws[..|ws| - 1]) + ws[|ws| - 1].frames
  }

  ghost predicate StreamsInv(e: Ep) {
    Conserved(e.s.q) && forall sid :: StreamInv(e.s, e.cuts, sid)
  }

  ghost predicate TableInv(e: Ep, entries: seq<Deferred>, preamble: nat) {
    && (forall d :: d in e.deferred ==> Asked(e.cuts, d, preamble))
    && (forall d :: d in entries ==> Asked(e.cuts, d, preamble))
    && multiset(e.created)
       == multiset(IssuedBy(e.witnesses)) + multiset(e.deferred) + multiset(entries) + multiset(e.settled)
  }

  ghost predicate SentInv(e: Ep, preamble: nat) {
    (forall w :: w in e.witnesses ==> Honoured(w, preamble)) && e.frames == FramesBy(e.witnesses)
  }

  /** `entries` are the entries a flush has still to visit. */
  ghost predicate EpInv(e: Ep, entries: seq<Deferred>, preamble: nat) {
    StreamsInv(e) && TableInv(e, entries, preamble) && SentInv(e, preamble)
  }

  // ----- the streams -----

  lemma StreamFrame(s: State, cuts: seq<Cut>, s': State, cuts': seq<Cut>, sid: Sid)
    requires StreamInv(s, cuts, sid) && SameStream(s, s', sid)
    requires cuts' == cuts || (|cuts'| == |cuts| + 1 && cuts'[..|cuts|] == cuts && cuts'[|cuts|].sid != sid)
    ensures StreamInv(s', cuts', sid)
  {
    hide Content, Owed, PendingOf, SameStream, Earlier;
    OwedFrame(s, s', sid);
    if cuts' != cuts {
      assert cuts' == cuts + [cuts'[|cuts|]];
      OneMore(cuts, cuts'[|cuts|], sid, |HistoryOf(s.log, sid).accepted|);
      OneEarlier(cuts, cuts'[|cuts|], sid, |HistoryOf(s.log, sid).accepted|);
    }
  }

  lemma OwedFrame(s: State, s': State, sid: Sid)
    requires Owed(s, sid) && SameStream(s, s', sid)
    ensures Owed(s', sid) && PendingOf(s'.q, sid) == PendingOf(s.q, sid)
    ensures HistoryOf(s'.log, sid) == HistoryOf(s.log, sid)
  {
    hide Pending, BytesOwed;
  }

  lemma OneEarlier(cuts: seq<Cut>, c: Cut, sid: Sid, all: int)
    requires Earlier(cuts, sid, all) && c.sid != sid
    ensures Earlier(cuts + [c], sid, all)
  {
  }

  lemma PushInv(s: State, op: Op, s': State, cuts: seq<Cut>)
    requires op.PushOp? && Next(s, op, s') && Allowed(s, op) && AllOk(s.q) && StreamInv(s, cuts, op.sid)
    ensures StreamInv(s', cuts, op.sid)
  {
    hide Next, Pending, Content, AllOk, MarkFin, Owed, PendingOf;
    NextOwed(s, op, s', op.sid);
    PushOutcome(s, op, s');
    PendingIsOfChunks(s.q, op.sid);
    PendingIsOfChunks(s'.q, op.sid);
    PendingAfterPush(ChunksOf(s.q, op.sid), op.data, op.fin);
    ContentGrows(cuts, op.sid, |HistoryOf(s.log, op.sid).accepted|, |op.data|);
  }

  lemma CommitInv(s: State, op: Op, s': State, cuts: seq<Cut>)
    requires op.CommitOp? && Next(s, op, s') && AllOk(s.q) && StreamInv(s, cuts, op.sid)
    ensures StreamInv(s', cuts, op.sid)
  {
    hide Next, Content, AllOk, Owed, PendingOf;
    NextOwed(s, op, s', op.sid);
    CommitMoves(s, op, s');
    var h, h' := HistoryOf(s.log, op.sid), HistoryOf(s'.log, op.sid);
    assert |h'.handed + PendingOf(s'.q, op.sid)| == |h.handed + PendingOf(s.q, op.sid)|;
  }

  /** A cut leaves of the queue what it leaves of the whole stream. */
  lemma CutLeaves(s: State, sid: Sid, size: nat)
    requires Owed(s, sid) && AllOk(s.q)
    ensures var h, p, p' := |HistoryOf(s.log, sid).handed|, |PendingOf(s.q, sid)|,
                            |PendingOf(Truncate(s.q, sid, size).0, sid)|;
            && h + p' == Max(h, Min(HistoryOf(s.log, sid).base + size, h + p))
            && (Truncate(s.q, sid, size).1 == 0 <==> p' == 0)
  {
    hide Pending, PendingOf, Truncate, AllOk, BytesOwed, FinOwed;
    TruncateKeeps(s.q, sid, size);
  }

  lemma BaseHanded(s: State, sid: Sid)
    requires Owed(s, sid)
    ensures HistoryOf(s.log, sid).base <= |HistoryOf(s.log, sid).handed|
  {
  }

  /** A truncate, or a drop as a truncate to nothing. */
  predicate IsCut(op: Op, sid: Sid, size: nat) { op == TruncateOp(sid, size) || (op == DropOp(sid) && size == 0) }

  lemma CutHistory(s: State, op: Op, s': State, sid: Sid, size: nat)
    requires IsCut(op, sid, size) && Next(s, op, s')
    ensures var h, h' := HistoryOf(s.log, sid), HistoryOf(s'.log, sid);
            && h'.accepted == h.accepted && h'.handed == h.handed
            && (op.DropOp? ==> PendingOf(s'.q, sid) == [])
            && (op.TruncateOp? ==> s'.q == Truncate(s.q, sid, size).0)
  {
    hide Truncate;
  }

  lemma CutInv(s: State, op: Op, s': State, cuts: seq<Cut>, sid: Sid, size: nat)
    requires IsCut(op, sid, size) && Next(s, op, s') && AllOk(s.q) && StreamInv(s, cuts, sid)
    ensures StreamInv(s', cuts + [CutOf(HistoryOf(s.log, sid), sid, size)], sid)
  {
    hide Next, Content, AllOk, Owed, PendingOf, Truncate;
    var h := HistoryOf(s.log, sid);
    NextOwed(s, op, s', sid);
    CutHistory(s, op, s', sid, size);
    CutLeaves(s, sid, size);
    OneMore(cuts, CutOf(h, sid, size), sid, |h.accepted|);
    BaseHanded(s, sid);
  }

  /** Every operation of the queue keeps every stream, given the cut it makes. */
  lemma QueueInv(e: Ep, op: Op, e': Ep)
    requires StreamsInv(e) && Next(e.s, op, e'.s) && Allowed(e.s, op)
    requires e'.cuts == if op.TruncateOp? then WithCut(e, op.sid, op.reliable)
                        else if op.DropOp? then WithCut(e, op.sid, 0) else e.cuts
    ensures StreamsInv(e')
  {
    hide Next, StreamInv, AllOk, Allowed;
    NextConserves(e.s, op, e'.s);
    forall sid
      ensures StreamInv(e'.s, e'.cuts, sid)
    {
      OneStream(e, op, e', sid);
    }
  }

  lemma OneStream(e: Ep, op: Op, e': Ep, sid: Sid)
    requires StreamInv(e.s, e.cuts, sid) && AllOk(e.s.q) && Next(e.s, op, e'.s) && Allowed(e.s, op)
    requires e'.cuts == if op.TruncateOp? then WithCut(e, op.sid, op.reliable)
                        else if op.DropOp? then WithCut(e, op.sid, 0) else e.cuts
    ensures StreamInv(e'.s, e'.cuts, sid)
  {
    hide Next, StreamInv, AllOk, Allowed, SameStream;
    if op.RankOp? || op.sid != sid {
      NextOther(e.s, op, e'.s, sid);
      StreamFrame(e.s, e.cuts, e'.s, e'.cuts, sid);
    } else if op.PushOp? {
      PushInv(e.s, op, e'.s, e.cuts);
    } else if op.CommitOp? {
      CommitInv(e.s, op, e'.s, e.cuts);
    } else if op.TruncateOp? {
      CutInv(e.s, op, e'.s, e.cuts, sid, op.reliable);
    } else if op.DropOp? {
      CutInv(e.s, op, e'.s, e.cuts, sid, 0);
    } else {
      SlotInv(e.s, op, e'.s, e.cuts);
    }
  }

  lemma SlotInv(s: State, op: Op, s': State, cuts: seq<Cut>)
    requires (op.Open? || op.Key?) && Next(s, op, s') && AllOk(s.q) && StreamInv(s, cuts, op.sid)
    ensures StreamInv(s', cuts, op.sid)
  {
    hide Next, Content, AllOk, Owed, Pending;
    NextOwed(s, op, s', op.sid);
    NextSlot(s, op, s');
    PendingIsOfChunks(s.q, op.sid);
    PendingIsOfChunks(s'.q, op.sid);
  }

  // ----- issuing -----

  /** A stream with nothing queued has handed over all that the cuts have left. */
  lemma WitnessHonoured(e: Ep, d: Deferred, t: Transport, preamble: nat)
    requires StreamInv(e.s, e.cuts, d.sid) && Asked(e.cuts, d, preamble) && !HasData(e.s.q, d.sid)
    ensures Honoured(Witnessed(e, d, t), preamble)
  {
    hide Asked, Content, Spared;
    var h := HistoryOf(e.s.log, d.sid);
    assert PendingOf(e.s.q, d.sid) == [];
    assert h.handed + [] == h.handed;
    forall m: nat | m <= |h.accepted|
      ensures |h.handed| >= m <==> Spared(e.cuts, d.sid, m, |h.accepted|)
    {
      ContentIff(e.cuts, d.sid, |h.accepted|, m);
    }
  }

  lemma AskedOn(e: Ep, d: Deferred, sid: Sid, size: nat, preamble: nat)
    requires Asked(e.cuts, d, preamble)
    ensures Asked(WithCut(e, sid, size), d, preamble)
  {
    var i :| 0 <= i < |e.cuts| && e.cuts[i].sid == d.sid && e.cuts[i].asked + preamble == d.size;
    assert WithCut(e, sid, size)[i] == e.cuts[i];
  }

  /** Further cuts leave the table's entries asked for. */
  lemma TableCut(e: Ep, e': Ep, sid: Sid, size: nat, entries: seq<Deferred>, preamble: nat)
    requires TableInv(e, entries, preamble) && e'.cuts == WithCut(e, sid, size)
    requires e'.deferred == e.deferred && e'.created == e.created && e'.witnesses == e.witnesses
    requires e'.settled == e.settled
    ensures TableInv(e', entries, preamble)
  {
    hide Asked, IssuedBy;
    forall d | d in e.deferred || d in entries
      ensures Asked(e'.cuts, d, preamble)
    {
      AskedOn(e, d, sid, size, preamble);
    }
  }

  lemma DropInv(e: Ep, sid: Sid, entries: seq<Deferred>, preamble: nat)
    requires EpInv(e, entries, preamble)
    ensures EpInv(Dropping(e, sid), entries, preamble)
  {
    hide StreamsInv, TableInv, FramesBy, Honoured;
    QueueInv(e, DropOp(sid), Dropping(e, sid));
    TableCut(e, Dropping(e, sid), sid, 0, entries, preamble);
  }

  lemma IssuedMore(ws: seq<Witness>, w: Witness)
    ensures IssuedBy(ws + [w]) == IssuedBy(ws) + [w.d] && FramesBy(ws + [w]) == FramesBy(ws) + w.frames
  {
    assert (ws + [w])[..|ws|] == ws;
  }

  /** Issuing an entry moves it from the table to the issued ones and notes its frames. */
  lemma NoteInv(e: Ep, d: Deferred, t: Transport, entries: seq<Deferred>, preamble: nat)
    requires EpInv(e, [d] + entries, preamble) && !HasData(e.s.q, d.sid)
    ensures EpInv(e.(witnesses := e.witnesses + [Witnessed(e, d, t)], frames := e.frames + Issued(d, t).frames),
                  entries, preamble)
  {
    hide StreamInv, Conserved, Honoured, Asked, IssuedBy, FramesBy, Issued;
    assert d in [d] + entries;
    assert forall k :: k in entries ==> k in [d] + entries;
    WitnessHonoured(e, d, t, preamble);
    IssuedMore(e.witnesses, Witnessed(e, d, t));
  }

  lemma IssueInv(e: Ep, d: Deferred, t: Transport, entries: seq<Deferred>, preamble: nat)
    requires EpInv(e, [d] + entries, preamble) && !HasData(e.s.q, d.sid)
    ensures EpInv(IssueOne(e, d, t), entries, preamble)
  {
    hide EpInv, Dropping, Issued;
    NoteInv(e, d, t, entries, preamble);
    DropInv(e.(witnesses := e.witnesses + [Witnessed(e, d, t)], frames := e.frames + Issued(d, t).frames), d.sid,
            entries, preamble);
  }

  lemma KeepInv(e: Ep, d: Deferred, entries: seq<Deferred>, preamble: nat)
    requires EpInv(e, [d] + entries, preamble)
    ensures EpInv(e.(deferred := e.deferred + [d]), entries, preamble)
  {
    hide StreamInv, Conserved, Honoured, FramesBy, Asked, IssuedBy;
    assert d in [d] + entries;
    assert forall k :: k in entries ==> k in [d] + entries;
  }

  lemma {:induction false} FlushInv(e: Ep, entries: seq<Deferred>, t: Transport, preamble: nat)
    requires EpInv(e, entries, preamble)
    ensures EpInv(FlushEntries(e, entries, t), [], preamble)
    decreases entries
  {
    hide EpInv;
    if entries != [] {
      var d, rest := entries[0], entries[1..];
      assert entries == [d] + rest;
      if HasData(e.s.q, d.sid) {
        KeepInv(e, d, rest, preamble);
        FlushInv(e.(deferred := e.deferred + [d]), rest, t, preamble);
      } else {
        IssueInv(e, d, t, rest, preamble);
        FlushInv(IssueOne(e, d, t), rest, t, preamble);
      }
    }
  }

  // ----- whole runs -----

  /** Truncating for a reset asks for the reset, and an empty result leaves nothing to provide. */
  lemma ResetCut(e: Ep, d: Deferred, reliable: nat, preamble: nat)
    requires EpInv(e, [], preamble) && d.size == preamble + reliable
    ensures var e1 := Truncating(e, d.sid, reliable);
            && EpInv(e1, [], preamble) && Asked(e1.cuts, d, preamble)
            && (Truncate(e.s.q, d.sid, reliable).1 == 0 ==> !HasData(e1.s.q, d.sid))
  {
    hide StreamInv, TableInv, FramesBy, Honoured, Truncate, AllOk, PendingOf;
    var e1 := Truncating(e, d.sid, reliable);
    QueueInv(e, TruncateOp(d.sid, reliable), e1);
    TableCut(e, e1, d.sid, reliable, [], preamble);
    TruncateKeeps(e.s.q, d.sid, reliable);
    assert e1.cuts[|e.cuts|] == CutOf(HistoryOf(e.s.log, d.sid), d.sid, reliable);
  }

  lemma CreateInv(e: Ep, d: Deferred, preamble: nat)
    requires EpInv(e, [], preamble) && Asked(e.cuts, d, preamble)
    ensures EpInv(e.(created := e.created + [d]), [d], preamble)
    ensures EpInv(e.(created := e.created + [d], deferred := e.deferred + [d]), [], preamble)
  {
    hide StreamInv, Conserved, Honoured, FramesBy, Asked, IssuedBy;
  }

  lemma FlushStart(e: Ep, preamble: nat)
    requires EpInv(e, [], preamble)
    ensures EpInv(e.(deferred := []), e.deferred, preamble)
  {
    hide StreamInv, Conserved, Honoured, FramesBy, Asked, IssuedBy;
    assert multiset([]) + multiset(e.deferred) == multiset(e.deferred) + multiset([]);
  }

  lemma CallInv(e: Ep, op: Op, e': Ep, preamble: nat)
    requires EpInv(e, [], preamble) && EpNext(e, QueueOp(op), e', preamble)
    ensures EpInv(e', [], preamble)
  {
    hide StreamsInv, TableInv, FramesBy, Honoured, Next, Allowed;
    QueueInv(e, op, e');
    if op.DropOp? {
      TableCut(e, e', op.sid, 0, [], preamble);
    } else {
      SameTable(e, e', preamble);
    }
  }

  lemma SameTable(e: Ep, e': Ep, preamble: nat)
    requires TableInv(e, [], preamble) && e' == e.(s := e'.s)
    ensures TableInv(e', [], preamble)
  {
  }

  lemma NextInv(e: Ep, op: EpOp, e': Ep, preamble: nat)
    requires EpInv(e, [], preamble) && EpNext(e, op, e', preamble)
    ensures EpInv(e', [], preamble)
  {
    hide EpInv, Asked, FlushEntries, IssueOne, Truncating, Next, Allowed, Truncate;
    match op
    case QueueOp(o) => CallInv(e, o, e', preamble);
    case ResetAtOp(d, reliable, t, room) =>
      var e1 := Truncating(e, d.sid, reliable);
      ResetCut(e, d, reliable, preamble);
      SameCreated(e, d.sid, reliable);
      CreateInv(e1, d, preamble);
      if Truncate(e.s.q, d.sid, reliable).1 == 0 {
        assert [d] == [d] + [];
        IssueInv(e1.(created := e.created + [d]), d, t, [], preamble);
      }
    case FlushOp(t) =>
      FlushStart(e, preamble);
      FlushInv(e.(deferred := []), e.deferred, t, preamble);
    case SettleOp => SettleInv(e, preamble);
  }

  lemma SettleInv(e: Ep, preamble: nat)
    requires EpInv(e, [], preamble)
    ensures EpInv(e.(deferred := [], settled := e.settled + e.deferred), [], preamble)
  {
    hide StreamInv, Conserved, Honoured, FramesBy, Asked, IssuedBy;
  }

  lemma SameCreated(e: Ep, sid: Sid, reliable: nat)
    ensures Truncating(e, sid, reliable).created == e.created && Truncating(e, sid, reliable).deferred == e.deferred
  {
  }

  lemma StartInv(cap: nat, preamble: nat)
    ensures EpInv(Start(cap), [], preamble)
  {
  }

  /** In every run each reset asked for was issued exactly once, still waits or was settled; each was issued when its
      stream had handed over exactly what the cuts had left of it, in order; and the frames sent are at most one for
      each. */
  lemma {:induction false} ResetsHonoured(states: seq<Ep>, ops: seq<EpOp>, cap: nat, preamble: nat, i: nat)
    requires EpRun(states, ops, cap, preamble) && i < |states|
    ensures EpInv(states[i], [], preamble)
  {
    hide EpInv, EpNext;
    if i == 0 {
      StartInv(cap, preamble);
    } else {
      ResetsHonoured(states, ops, cap, preamble, i - 1);
      NextInv(states[i - 1], ops[i - 1], states[i], preamble);
    }
  }

  /** The bytes a reset's own size promises the peer: its reliable size, or all there are. */
  function OwnPrefix(w: Witness, preamble: nat): int { Min(w.d.size - preamble, |w.h.accepted|) }

  /** A reset is issued after as many bytes as its own prefix were provided if and only if no reset or drop of the
      stream, earlier or later, cut below that before it had been handed over and was not made up for since. */
  lemma OwnPrefixIff(states: seq<Ep>, ops: seq<EpOp>, cap: nat, preamble: nat, i: nat, k: nat)
    requires EpRun(states, ops, cap, preamble) && i < |states| && k < |states[i].witnesses|
    ensures var w := states[i].witnesses[k];
            |w.h.handed| >= OwnPrefix(w, preamble) <==>
            Spared(w.cuts, w.d.sid, OwnPrefix(w, preamble), |w.h.accepted|)
  {
    hide EpRun, StreamsInv, TableInv, FramesBy, Spared;
    ResetsHonoured(states, ops, cap, preamble, i);
    var w := states[i].witnesses[k];
    assert Honoured(w, preamble) && OwnPrefix(w, preamble) >= 0;
  }

  /** In particular the prefix was provided whenever no cut of the stream was tighter than the reset's own. */
  lemma TightestProvides(states: seq<Ep>, ops: seq<EpOp>, cap: nat, preamble: nat, i: nat, k: nat)
    requires EpRun(states, ops, cap, preamble) && i < |states| && k < |states[i].witnesses|
    requires var w := states[i].witnesses[k];
             forall c :: c in w.cuts && c.sid == w.d.sid ==> c.asked + preamble >= w.d.size
    ensures var w := states[i].witnesses[k]; |w.h.handed| >= OwnPrefix(w, preamble)
  {
    hide EpRun, StreamsInv, TableInv, FramesBy;
    ResetsHonoured(states, ops, cap, preamble, i);
    var w := states[i].witnesses[k];
    assert Honoured(w, preamble);
    OwnPrefixIff(states, ops, cap, preamble, i, k);
  }

  // ----- the history-keeping flush is the endpoint's flush -----

  lemma {:induction false} FlushAgrees(e: Ep, entries: seq<Deferred>, t: Transport)
    ensures var f := Flush(e.s.q, entries, t);
            var e' := FlushEntries(e, entries, t);
            && e'.s.q == f.q && e'.deferred == e.deferred + f.kept && e'.frames == e.frames + f.frames
            && IssuedBy(e'.witnesses) == IssuedBy(e.witnesses) + f.issued
    decreases entries
  {
    hide Issued, IssuedBy, IssueOne, Quiesce, HasData;
    if entries == [] {
      assert IssuedBy(e.witnesses) + [] == IssuedBy(e.witnesses);
    } else {
      var d := entries[0];
      if HasData(e.s.q, d.sid) {
        FlushAgrees(e.(deferred := e.deferred + [d]), entries[1..], t);
      } else {
        IssueAgrees(e, d, t);
        FlushAgrees(IssueOne(e, d, t), entries[1..], t);
      }
    }
  }

  lemma IssueAgrees(e: Ep, d: Deferred, t: Transport)
    ensures var e' := IssueOne(e, d, t);
            && e'.s.q == Quiesce(e.s.q, d, t) && e'.deferred == e.deferred
            && e'.frames == e.frames + Issued(d, t).frames
            && IssuedBy(e'.witnesses) == IssuedBy(e.witnesses) + [d]
  {
    hide Issued, IssuedBy;
    IssuedMore(e.witnesses, Witnessed(e, d, t));
  }

  // ----- a run in which a reset announces more than was provided -----

  /** What the steps of that run have made of its one stream. */
  ghost predicate Stands(e: Ep, sid: Sid, chunks: seq<Chunk>, handed: seq<Byte>, accepted: seq<Byte>) {
    var h := HistoryOf(e.s.log, sid);
    && h.accepted == accepted && h.handed == handed && !h.closed
    && ChunksOf(e.s.q, sid) == chunks
    && (chunks != [] ==> sid in e.s.q.streams && e.s.q.streams[sid].remaining == Bytes(chunks))
    && sid in e.s.q.provided && e.s.q.provided[sid] == |handed|
  }

  lemma AfterPush(sid: Sid, data: seq<Byte>, alloc: Alloc)
    requires |data| == 3 && alloc == Alloc(true, true, true, true)
    ensures var op := PushOp(sid, data, false, true, alloc);
            var e := Start(4).(s := Step(Init(4), op));
            Allowed(Init(4), op) && Stands(e, sid, [Chunk(data, 0, false)], [], data)
  {
    assert Pending([Chunk(data, 0, false)]) == data[0..] + Pending([]);
  }

  /** A tighter truncate keeps a shorter front of the one chunk. */
  lemma AfterCut(e: Ep, sid: Sid, data: seq<Byte>, accepted: seq<Byte>, size: nat)
    requires Stands(e, sid, [Chunk(data, 0, false)], [], accepted) && 0 < size < |data|
    ensures var e1 := Truncating(e, sid, size);
            && Truncate(e.s.q, sid, size).1 == size && Stands(e1, sid, [Chunk(data[..size], 0, false)], [], accepted)
  {
    var before: seq<Chunk>, after: seq<Chunk> := [Chunk(data, 0, false)], [Chunk(data[..size], 0, false)];
    assert Keep(before, size) == after;
    assert Pending(before) == data[0..] + Pending([]) && Pending(after) == data[..size][0..] + Pending([]);
  }

  lemma AfterCommit(e: Ep, sid: Sid, x: Byte, accepted: seq<Byte>)
    requires Stands(e, sid, [Chunk([x], 0, false)], [], accepted)
    ensures var e1 := e.(s := Step(e.s, CommitOp(sid, 1)));
            Stands(e1, sid, [], [x], accepted) && !HasData(e1.s.q, sid)
  {
    var c: seq<Chunk> := [Chunk([x], 0, false)];
    assert Drain(c[1..], 0) == Drained([], [], false, 0);
    assert Drain(c, 1) == Drained([], [x], false, 0);
  }

  /** Two resets of one stream, the second tighter: the first goes out for two bytes with one provided, whatever the
      transport answers. */
  lemma ShortReset(sid: Sid, code: nat, x: Byte, y: Byte, z: Byte, t: Transport, preamble: nat)
    ensures exists states: seq<Ep>, ops: seq<EpOp> ::
              && EpRun(states, ops, 4, preamble) && |states| == 6 && |states[5].witnesses| > 0
              && var w := states[5].witnesses[0];
              && w.d == Deferred(sid, code, preamble + 2) && w.h.handed == [x] && w.h.accepted == [x, y, z]
              && |w.h.handed| < OwnPrefix(w, preamble)
  {
    hide Stands, Truncate, FlushEntries, Step, Allowed, Truncating, EpNext;
    var data, alloc := [x, y, z], Alloc(true, true, true, true);
    var first, second := Deferred(sid, code, preamble + 2), Deferred(sid, code, preamble + 1);
    var push := PushOp(sid, data, false, true, alloc);
    var e0 := Start(4);
    var e1 := e0.(s := Step(e0.s, push));
    var e2 := Deferring(e1, first, 2);
    var e3 := Deferring(e2, second, 1);
    var e4 := e3.(s := Step(e3.s, CommitOp(sid, 1)));
    var e5 := FlushEntries(e4.(deferred := []), e4.deferred, t);
    AfterPush(sid, data, alloc);
    CallStep(e0, push, preamble);
    AfterDefer(e1, first, data, data, 2, t, preamble);
    assert data[..2][..1] == [x];
    AfterDefer(e2, second, data[..2], data, 1, t, preamble);
    AfterCommit(e3, sid, x, data);
    CommitAllowed(e3.s, sid);
    CallStep(e3, CommitOp(sid, 1), preamble);
    assert e4.deferred == [first, second];
    FirstIssued(e4, first, second, t);
    FlushStep(e4, t, preamble);
    var ops := [QueueOp(push), ResetAtOp(first, 2, t, true), ResetAtOp(second, 1, t, true), QueueOp(CommitOp(sid, 1)),
      FlushOp(t)];
    var states := [e0, e1, e2, e3, e4, e5];
    assert EpRun(states, ops, 4, preamble);
    StandsShort(e4, sid, x, data, first, t, preamble);
  }

  function Deferring(e: Ep, d: Deferred, size: nat): Ep {
    Truncating(e, d.sid, size).(deferred := e.deferred + [d], created := e.created + [d])
  }

  lemma AfterDefer(e: Ep, d: Deferred, data: seq<Byte>, accepted: seq<Byte>, size: nat, t: Transport, preamble: nat)
    requires Stands(e, d.sid, [Chunk(data, 0, false)], [], accepted) && 0 < size < |data| && d.size == preamble + size
    ensures EpNext(e, ResetAtOp(d, size, t, true), Deferring(e, d, size), preamble)
    ensures Stands(Deferring(e, d, size), d.sid, [Chunk(data[..size], 0, false)], [], accepted)
    ensures Deferring(e, d, size).deferred == e.deferred + [d] && Deferring(e, d, size).witnesses == e.witnesses
  {
    hide Truncate, Step;
    AfterCut(e, d.sid, data, accepted, size);
  }

  lemma CallStep(e: Ep, op: Op, preamble: nat)
    requires !op.TruncateOp? && !op.DropOp? && !op.RankOp? && Allowed(e.s, op)
    ensures EpNext(e, QueueOp(op), e.(s := Step(e.s, op)), preamble)
  {
    hide Step, Allowed;
  }

  lemma FlushStep(e: Ep, t: Transport, preamble: nat)
    ensures EpNext(e, FlushOp(t), FlushEntries(e.(deferred := []), e.deferred, t), preamble)
  {
  }

  lemma StandsShort(e: Ep, sid: Sid, x: Byte, accepted: seq<Byte>, d: Deferred, t: Transport, preamble: nat)
    requires Stands(e, sid, [], [x], accepted) && d.sid == sid && d.size == preamble + 2 && |accepted| == 3
    ensures var w := Witnessed(e, d, t);
            w.d == d && w.h.handed == [x] && w.h.accepted == accepted && |w.h.handed| < OwnPrefix(w, preamble)
  {
  }

  lemma CommitAllowed(s: State, sid: Sid)
    ensures Allowed(s, CommitOp(sid, 1))
  {
  }

  lemma FirstIssued(e: Ep, d: Deferred, d': Deferred, t: Transport)
    requires e.deferred == [d, d'] && e.witnesses == [] && !HasData(e.s.q, d.sid)
    ensures var after := FlushEntries(e.(deferred := []), e.deferred, t);
            |after.witnesses| > 0 && after.witnesses[0] == Witnessed(e, d, t)
  {
    hide Issued, HasData;
    var e1 := IssueOne(e.(deferred := []), d, t);
    assert e.deferred[1..] == [d'];
    assert e1.witnesses == [Witnessed(e, d, t)];
    FirstStays(e1, [d'], t);
  }

  /** A flush only adds to what was issued. */
  lemma {:induction false} FirstStays(e: Ep, entries: seq<Deferred>, t: Transport)
    requires |e.witnesses| > 0
    ensures var after := FlushEntries(e, entries, t);
            |after.witnesses| > 0 && after.witnesses[0] == e.witnesses[0]
    decreases entries
  {
    hide Issued, HasData;
    if entries != [] {
      if HasData(e.s.q, entries[0].sid) {
        FirstStays(e.(deferred := e.deferred + [entries[0]]), entries[1..], t);
      } else {
        FirstStays(IssueOne(e, entries[0], t), entries[1..], t);
      }
    }
  }
}

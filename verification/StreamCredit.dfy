/**
 Opening local streams under the peer's stream limit (section 4.6 of RFC 9000):
 StreamStart only queues a start, the transport counts it later, and its
 reports of available streams still include the starts in flight.
 */
module StreamCredit {
  import opened RecordList

  type Sid = RecordList.Sid
  const UINT16_MAX := 0xFFFF

  datatype Status = Success | Aborted | Failure
  datatype Result = Ok(id: Sid) | WouldBlock | Error

  datatype Record = Record(isBidi: bool, isLocal: bool, startPending: bool, terminalOwed: bool)

  /** The record of a local stream whose start was queued. */
  function NewLocal(isBidi: bool): Record { Record(isBidi, true, true, false) }

  /** One direction of local streams. */
  datatype Side = Side(started: nat, credit: nat, pending: int)

  datatype Starts = Starts(
    isClient: bool,
    known: bool,              // a report has arrived
    bidi: Side,
    uni: Side,
    streams: map<Sid, Record>,
    peerClosed: bool)

  function NewStarts(isClient: bool): Starts {
    Starts(isClient, false, Side(0, 0, 0), Side(0, 0, 0), map[], false)
  }

  function SideOf(a: Starts, bidi: bool): Side { if bidi then a.bidi else a.uni }

  function WithSide(a: Starts, bidi: bool, s: Side): Starts { if bidi then a.(bidi := s) else a.(uni := s) }

  // ----- stream numbering (section 2.1 of RFC 9000) -----

  /** The two low bits: who opened the stream, and whether it carries data both ways. */
  function TypeBits(isClient: bool, bidi: bool): nat {
    if bidi then (if isClient then 0 else 1) else (if isClient then 2 else 3)
  }

  function IdOf(isClient: bool, bidi: bool, n: nat): Sid { TypeBits(isClient, bidi) + 4 * n }

  // ----- opening -----

  function CreditAfterPending(reported: nat, pending: int): nat {
    if reported > pending then reported - pending else 0
  }

  /** `bound`: the connection has a transport handle; `memory`: a record can be had; then what the transport says to
      opening and to starting. */
  datatype Env = Env(bound: bool, memory: bool, open: Status, start: Status)

  function Refused(a: Starts, s: Status): (Starts, Result) {
    if s.Aborted? then (a.(peerClosed := true), WouldBlock) else (a, Error)
  }

  function Open(a: Starts, bidi: bool, env: Env): (Starts, Result) {
    var side := SideOf(a, bidi);
    if !env.bound then (a, Error)
    else if a.known && side.credit == 0 then (a, WouldBlock)
    else if !env.memory then (a, Error)
    else if !env.open.Success? then Refused(a, env.open)
    else if !env.start.Success? then Refused(a, env.start)
    else
      var id := IdOf(a.isClient, bidi, side.started);
      var credit := if a.known then side.credit - 1 else side.credit;
      (WithSide(a, bidi, Side(side.started + 1, credit, side.pending + 1))
       .(streams := a.streams[id := NewLocal(bidi)]), Ok(id))
  }

  function Report(a: Starts, bidiCount: nat, uniCount: nat): Starts {
    a.(known := true,
    bidi := a.bidi.(credit := CreditAfterPending(bidiCount, a.bidi.pending)),
    uni := a.uni.(credit := CreditAfterPending(uniCount, a.uni.pending)))
  }

  function Settle(a: Starts, sid: Sid): Starts
    requires sid in a.streams
  {
    var r := a.streams[sid];
    if !r.startPending then a
    else
      var side := SideOf(a, r.isBidi);
      WithSide(a, r.isBidi, side.(pending := side.pending - 1)).(streams := a.streams[sid := r.(startPending := false)])
  }

  /** The stream ended; its record is `kept` if the bridge must still hear of it. */
  function Shutdown(a: Starts, sid: Sid, kept: bool): Starts
    requires sid in a.streams
  {
    var settled := Settle(a, sid);
    if kept then settled.(streams := settled.streams[sid := settled.streams[sid].(terminalOwed := true)])
    else Forgotten(settled, sid)
  }

  function Forgotten(a: Starts, sid: Sid): Starts { a.(streams := a.streams - {sid}) }

  // ----- records carry ids of their own kind -----

  /** A record carries an id of its own kind; a local one was handed out before. */
  ghost predicate RecordOk(isClient: bool, started: nat, sid: Sid, r: Record) {
    && sid % 4 == TypeBits(if r.isLocal then isClient else !isClient, r.isBidi)
    && (r.isLocal ==> sid / 4 < started)
    && (!r.isLocal || r.terminalOwed ==> !r.startPending)
  }

  ghost predicate RecordsOk(a: Starts) {
    forall sid :: sid in a.streams ==>
      RecordOk(a.isClient, SideOf(a, a.streams[sid].isBidi).started, sid, a.streams[sid])
  }

  lemma IdParts(isClient: bool, bidi: bool, n: nat)
    ensures IdOf(isClient, bidi, n) % 4 == TypeBits(isClient, bidi) && IdOf(isClient, bidi, n) / 4 == n
  {
  }

  lemma OpenIsNew(a: Starts, bidi: bool)
    requires RecordsOk(a)
    ensures IdOf(a.isClient, bidi, SideOf(a, bidi).started) !in a.streams
  {
    IdParts(a.isClient, bidi, SideOf(a, bidi).started);
    hide IdOf;
  }

  lemma OpenKeepsRecords(a: Starts, bidi: bool, env: Env)
    requires RecordsOk(a)
    ensures RecordsOk(Open(a, bidi, env).0)
  {
    hide IdOf, RecordOk;
    var id, n := IdOf(a.isClient, bidi, SideOf(a, bidi).started), SideOf(a, bidi).started;
    NewRecordOk(a.isClient, bidi, n);
    forall sid, r
      ensures RecordOk(a.isClient, n, sid, r) ==> RecordOk(a.isClient, n + 1, sid, r)
    {
      OlderRecordOk(a.isClient, n, sid, r);
    }
  }

  lemma NewRecordOk(isClient: bool, bidi: bool, n: nat)
    ensures RecordOk(isClient, n + 1, IdOf(isClient, bidi, n), NewLocal(bidi))
  {
    IdParts(isClient, bidi, n);
    hide IdOf;
  }

  lemma OlderRecordOk(isClient: bool, n: nat, sid: Sid, r: Record)
    ensures RecordOk(isClient, n, sid, r) ==> RecordOk(isClient, n + 1, sid, r)
  {
  }

  lemma SettleRecords(a: Starts, sid: Sid, kept: bool)
    requires RecordsOk(a) && sid in a.streams
    ensures RecordsOk(Settle(a, sid)) && RecordsOk(Shutdown(a, sid, kept)) && RecordsOk(Forgotten(a, sid))
  {
  }

  // ----- the object -----

  /** What a record can wait for: the completion of its start, or the report of its end to the bridge. */
  datatype Kind = Starting(bidi: bool) | Terminal

  function One(r: Record, kind: Kind): nat {
    if (if kind.Terminal? then r.terminalOwed else r.startPending && r.isBidi == kind.bidi) then 1 else 0
  }

  /** How many records wait for it. */
  function Waiting(list: seq<Node<Record>>, kind: Kind): nat {
    if list == [] then 0 else One(list[0].rec, kind) + Waiting(list[1..], kind)
  }

  lemma {:induction false} WaitingSet(list: seq<Node<Record>>, at: nat, r: Record, kind: Kind)
    requires at < |list|
    ensures Waiting(list[at := Node(list[at].id, r)], kind)
         == Waiting(list, kind) - One(list[at].rec, kind) + One(r, kind)
  {
    var after := list[at := Node(list[at].id, r)];
    if at == 0 {
      assert after[1..] == list[1..];
    } else {
      WaitingSet(list[1..], at - 1, r, kind);
      assert after[1..] == list[1..][at - 1 := Node(list[at].id, r)];
    }
  }

  lemma {:induction false} WaitingDrop(list: seq<Node<Record>>, at: nat, kind: Kind)
    requires at < |list|
    ensures Waiting(list[..at] + list[at + 1..], kind) == Waiting(list, kind) - One(list[at].rec, kind)
  {
    var after := list[..at] + list[at + 1..];
    if at == 0 {
      assert after == list[1..];
    } else {
      WaitingDrop(list[1..], at - 1, kind);
      assert after[1..] == list[1..][..at - 1] + list[1..][at..];
    }
  }

  lemma {:induction false} WaitingSome(list: seq<Node<Record>>, kind: Kind)
    ensures Waiting(list, kind) > 0 <==> exists i :: 0 <= i < |list| && One(list[i].rec, kind) == 1
  {
    if list != [] {
      WaitingSome(list[1..], kind);
      if i :| 0 <= i < |list| && One(list[i].rec, kind) == 1 {
        assert i > 0 ==> list[1..][i - 1] == list[i];
      }
    }
  }

  /** The records of streams the bridge has heard the end of, or need not. */
  ghost predicate Unreported(streams: map<Sid, Record>, after: map<Sid, Record>) {
    && after.Keys <= streams.Keys
    && forall sid :: sid in streams ==>
         if sid in after then after[sid] == streams[sid] else streams[sid].terminalOwed
  }

  class StreamOpener {
    const isClient: bool
    var known: bool
    var bidi: Side
    var uni: Side
    var list: seq<Node<Record>>     // the stream records, newest first
    var peerClosed: bool
    var terminalsOwed: nat
    ghost var streams: map<Sid, Record>

    ghost function Model(): Starts
      reads this
    {
      Starts(isClient, known, bidi, uni, streams, peerClosed)
    }

    /** The counters are the numbers of records that wait. */
    ghost predicate Valid()
      reads this
    {
      && Lists(list, streams) && RecordsOk(Model())
      && bidi.pending == Waiting(list, Starting(true)) && uni.pending == Waiting(list, Starting(false))
      && terminalsOwed == Waiting(list, Terminal)
    }

    constructor (client: bool)
      ensures Valid() && Model() == NewStarts(client)
    {
      isClient, known, bidi, uni, peerClosed := client, false, Side(0, 0, 0), Side(0, 0, 0), false;
      list, streams, terminalsOwed := [], map[], 0;
    }

    method RefusedByPeerClose(status: Status) returns (r: Result)
      requires Valid() && !status.Success?
      modifies this`peerClosed
      ensures Valid() && (Model(), r) == Refused(old(Model()), status)
    {
      if status.Aborted? {
        peerClosed := true;
        return WouldBlock;
      }
      return Error;
    }

    /** Open and start a stream; the id it computes is one no record has. */
    method OpenStream(isBidi: bool, env: Env) returns (r: Result)
      requires Valid()
      modifies this
      ensures Valid() && (Model(), r) == Open(old(Model()), isBidi, env)
      ensures r.Ok? ==> r.id !in old(streams) && list == [Node(r.id, NewLocal(isBidi))] + old(list)
    {
      if !env.bound {
        return Error;
      }
      if known && (if isBidi then bidi.credit else uni.credit) == 0 {
        return WouldBlock;
      }
      if !env.memory {
        return Error;
      }
      if !env.open.Success? {
        r := RefusedByPeerClose(env.open);
        return;
      }
      if !env.start.Success? {
        r := RefusedByPeerClose(env.start);
        return;
      }
      r := Started(isBidi, env);
    }

    method Started(isBidi: bool, ghost env: Env) returns (r: Result)
      requires Valid() && env.bound && env.memory && env.open.Success? && env.start.Success?
      requires known ==> SideOf(Model(), isBidi).credit > 0
      modifies this
      ensures Valid() && r.Ok? && (Model(), r) == Open(old(Model()), isBidi, env)
      ensures r.id !in old(streams) && list == [Node(r.id, NewLocal(isBidi))] + old(list)
    {
      hide IdOf, Lists, RecordOk;
      var id := IdOf(isClient, isBidi, if isBidi then bidi.started else uni.started);
      OpenIsNew(Model(), isBidi);
      OpenKeepsRecords(Model(), isBidi, env);
      AddRecord(list, streams, id, NewLocal(isBidi));
      streams := streams[id := NewLocal(isBidi)];
      list := [Node(id, NewLocal(isBidi))] + list;
      assert list[1..] == old(list);
      if isBidi {
        bidi := Side(bidi.started + 1, if known then bidi.credit - 1 else bidi.credit, bidi.pending + 1);
      } else {
        uni := Side(uni.started + 1, if known then uni.credit - 1 else uni.credit, uni.pending + 1);
      }
      return Ok(id);
    }

    /** A report less the records still waiting for their start is the credit, or there is none. */
    method OnStreamsAvailable(bidiCount: nat, uniCount: nat)
      requires Valid()
      modifies this`known, this`bidi, this`uni
      ensures Valid() && known && Model() == Report(old(Model()), bidiCount, uniCount)
      ensures bidi.credit > 0 ==> bidi.credit + Waiting(list, Starting(true)) == bidiCount
      ensures uni.credit > 0 ==> uni.credit + Waiting(list, Starting(false)) == uniCount
      ensures bidi.credit == 0 ==> bidiCount <= Waiting(list, Starting(true))
      ensures uni.credit == 0 ==> uniCount <= Waiting(list, Starting(false))
    {
      bidi := bidi.(credit := CreditAfterPending(bidiCount, bidi.pending));
      uni := uni.(credit := CreditAfterPending(uniCount, uni.pending));
      known := true;
    }

    /** Replace a record; the counters still have to follow. */
    method Store(at: nat, r: Record)
      requires Lists(list, streams) && at < |list|
      modifies this`list, this`streams
      ensures Lists(list, streams) && streams == old(streams)[old(list[at].id) := r]
      ensures list == old(list)[at := Node(old(list[at].id), r)]
      ensures forall kind ::
                Waiting(list, kind) == old(Waiting(list, kind)) - One(old(list[at].rec), kind) + One(r, kind)
    {
      hide Lists, One;
      SetRecord(list, streams, at, r);
      forall kind
        ensures Waiting(list[at := Node(list[at].id, r)], kind)
             == Waiting(list, kind) - One(list[at].rec, kind) + One(r, kind)
      {
        WaitingSet(list, at, r, kind);
      }
      streams := streams[list[at].id := r];
      list := list[at := Node(list[at].id, r)];
    }

    /** Give a pending start back, once; the counter never goes below zero. */
    method SettleStart(sid: Sid)
      requires Valid() && sid in streams
      modifies this`bidi, this`uni, this`list, this`streams
      ensures Valid() && sid in old(streams) && Model() == Settle(old(Model()), sid)
      ensures bidi.pending >= 0 && uni.pending >= 0
    {
      hide Lists, RecordOk, Waiting;
      var at := Find(list, sid, streams);
      var rec := list[at].rec;
      if !rec.startPending {
        return;
      }
      SettleRecords(Model(), sid, false);
      Store(at, rec.(startPending := false));
      if rec.isBidi {
        bidi := bidi.(pending := bidi.pending - 1);
      } else {
        uni := uni.(pending := uni.pending - 1);
      }
    }

    /** Unlink a record that waits for nothing but perhaps the report of its end. */
    method Forget(at: nat)
      requires Valid() && at < |list| && !list[at].rec.startPending
      modifies this`list, this`streams, this`terminalsOwed
      ensures Valid() && Model() == Forgotten(old(Model()), old(list[at].id))
      ensures terminalsOwed == old(terminalsOwed) - One(old(list[at].rec), Terminal)
      ensures old(list[at].id in streams && streams[list[at].id] == list[at].rec)
    {
      hide Lists, RecordsOk, Waiting;
      NotPending(list[at].id);
      SettleRecords(Model(), list[at].id, false);
      DropRecord(list, streams, at);
      WaitingDrop(list, at, Starting(true));
      WaitingDrop(list, at, Starting(false));
      WaitingDrop(list, at, Terminal);
      terminalsOwed := terminalsOwed - if list[at].rec.terminalOwed then 1 else 0;
      streams := streams - {list[at].id};
      list := list[..at] + list[at + 1..];
    }

    /** A stream that ended gives back the start it may still have pending; its record goes, or stays linked until the
        bridge has heard of it. */
    method OnShutdownComplete(sid: Sid, kept: bool)
      requires Valid() && sid in streams && !streams[sid].terminalOwed
      modifies this`bidi, this`uni, this`list, this`streams, this`terminalsOwed
      ensures Valid() && sid in old(streams) && Model() == Shutdown(old(Model()), sid, kept)
    {
      hide Lists, RecordOk, Waiting;
      SettleRecords(Model(), sid, kept);
      SettledNow(Model(), sid);
      SettleStart(sid);
      var at := Find(list, sid, streams);
      if kept {
        Store(at, list[at].rec.(terminalOwed := true));
        terminalsOwed := terminalsOwed + 1;
      } else {
        Forget(at);
      }
    }

    /** The first record whose end the bridge has still to hear of; there is one as long as any is counted. */
    method FirstOwed() returns (at: nat)
      requires Valid() && terminalsOwed > 0
      ensures at < |list| && list[at].rec.terminalOwed
      ensures forall i :: 0 <= i < at ==> !list[i].rec.terminalOwed
    {
      hide Lists, RecordOk;
      WaitingSome(list, Terminal);
      at := 0;
      while !list[at].rec.terminalOwed
        invariant at < |list| && forall i :: 0 <= i < at ==> !list[i].rec.terminalOwed
        invariant exists i :: at <= i < |list| && One(list[i].rec, Terminal) == 1
        decreases |list| - at
      {
        at := at + 1;
      }
    }

    /** Outside endpoint operations, report every stream that ended and drop its record; no other record goes. */
    method FeedTerminals(inOp: bool)
      requires Valid()
      modifies this`list, this`streams, this`terminalsOwed
      ensures Valid() && Unreported(old(streams), streams)
      ensures inOp ==> streams == old(streams)
      ensures !inOp ==> terminalsOwed == 0 && forall sid :: sid in streams ==> !streams[sid].terminalOwed
      ensures Model() == old(Model()).(streams := streams)
    {
      hide Lists, RecordOk, Waiting;
      while terminalsOwed > 0 && !inOp
        invariant Valid() && Unreported(old(streams), streams) && (inOp ==> streams == old(streams))
        invariant Model() == old(Model()).(streams := streams)
        decreases terminalsOwed
      {
        var at := FirstOwed();
        NotPending(list[at].id);
        Forget(at);
      }
      if !inOp {
        NoneOwed();
      }
    }

    lemma NotPending(sid: Sid)
      requires Valid()
      ensures sid in streams && streams[sid].terminalOwed ==> !streams[sid].startPending
      ensures forall i :: 0 <= i < |list| ==> list[i].id in streams && streams[list[i].id] == list[i].rec
    {
      assert sid in streams ==>
          RecordOk(isClient, SideOf(Model(), streams[sid].isBidi).started, sid, streams[sid]);
    }

    lemma NoneOwed()
      requires Valid() && terminalsOwed == 0
      ensures forall sid :: sid in streams ==> !streams[sid].terminalOwed
    {
      WaitingSome(list, Terminal);
      forall sid | sid in streams
        ensures !streams[sid].terminalOwed
      {
        assert Has(list, sid);
        var i :| 0 <= i < |list| && list[i].id == sid;
        assert One(list[i].rec, Terminal) == 0;
      }
    }
  }

  lemma SettledNow(a: Starts, sid: Sid)
    requires sid in a.streams
    ensures sid in Settle(a, sid).streams && !Settle(a, sid).streams[sid].startPending
    ensures Settle(a, sid).streams[sid].terminalOwed == a.streams[sid].terminalOwed
  {
  }

  // ----- the transport -----

  datatype Done = Done(sid: Sid, ok: bool)

  /** One direction as the transport sees it: starts are processed in order, and completions delivered later. */
  datatype Transport = Transport(
    limit: nat,              // streams the peer allows, over the connection's life
    counted: nat,            // streams counted against it
    queue: seq<Sid>,         // starts not yet processed
    done: seq<Done>,         // processed, START_COMPLETE still to come
    // history
    ids: seq<Sid>,           // local ids handed out
    ungated: nat,            // opens before the first report
    clean: bool)             // every start so far was counted

  datatype World = World(a: Starts, bidi: Transport, uni: Transport)

  function Start(limit: nat): Transport { Transport(limit, 0, [], [], [], 0, true) }

  function DirOf(w: World, bidi: bool): Transport { if bidi then w.bidi else w.uni }

  function WithDir(w: World, bidi: bool, t: Transport): World { if bidi then w.(bidi := t) else w.(uni := t) }

  datatype Op =
    | OpenOp(bidi: bool, env: Env)
    | ProcessOp(bidi: bool, ok: bool)       // the worker takes the oldest queued start
    | CompleteOp(bidi: bool)                // START_COMPLETE for the oldest processed one
    | ReportOp                              // STREAMS_AVAILABLE
    | RaiseOp(bidi: bool, limit: nat)       // the peer raises its limit
    | PeerOp(sid: Sid, bidi: bool)          // the peer opened a stream
    | ShutdownOp(sid: Sid, kept: bool)      // SHUTDOWN_COMPLETE
    | TerminalOp(sid: Sid)                  // the bridge heard of it

  predicate Enabled(w: World, op: Op) {
    match op
    case ProcessOp(bidi, ok) => DirOf(w, bidi).queue != [] && (ok ==> DirOf(w, bidi).counted < DirOf(w, bidi).limit)
    case CompleteOp(bidi) => DirOf(w, bidi).done != [] && DirOf(w, bidi).done[0].sid in w.a.streams
    case RaiseOp(bidi, limit) => DirOf(w, bidi).limit <= limit
    case PeerOp(sid, bidi) => sid !in w.a.streams && sid % 4 == TypeBits(!w.a.isClient, bidi)
    case ShutdownOp(sid, _) => sid in w.a.streams && !w.a.streams[sid].terminalOwed
    case TerminalOp(sid) => sid in w.a.streams && w.a.streams[sid].terminalOwed
    case _ => true
  }

  function Available(t: Transport): nat {
    var left := if t.counted < t.limit then t.limit - t.counted else 0;
    if left > UINT16_MAX then UINT16_MAX else left
  }

  function Opening(t: Transport, id: Sid, known: bool): Transport {
    t.(queue := t.queue + [id], ids := t.ids + [id], ungated := if known then t.ungated else t.ungated + 1)
  }

  function Processing(t: Transport, ok: bool): Transport
    requires t.queue != []
  {
    t.(queue := t.queue[1..], done := t.done + [Done(t.queue[0], ok)],
    counted := if ok then t.counted + 1 else t.counted, clean := t.clean && ok)
  }

  function Drop(s: seq<Sid>, sid: Sid): seq<Sid> {
    if s == [] then [] else if s[0] == sid then Drop(s[1..], sid) else [s[0]] + Drop(s[1..], sid)
  }

  function DropDone(s: seq<Done>, sid: Sid): seq<Done> {
    if s == [] then [] else if s[0].sid == sid then DropDone(s[1..], sid) else [s[0]] + DropDone(s[1..], sid)
  }

  /** The stream ended: a start still queued is never processed, a completion still due is never delivered. */
  function Ending(t: Transport, sid: Sid): Transport {
    t.(queue := Drop(t.queue, sid), done := DropDone(t.done, sid), clean := t.clean && sid !in t.queue)
  }

  function Step(w: World, op: Op): World
    requires Enabled(w, op)
  {
    match op
    case OpenOp(bidi, env) =>
      var (a, r) := Open(w.a, bidi, env);
      var w1 := w.(a := a);
      if r.Ok? then WithDir(w1, bidi, Opening(DirOf(w, bidi), r.id, w.a.known)) else w1
    case ProcessOp(bidi, ok) => WithDir(w, bidi, Processing(DirOf(w, bidi), ok))
    case CompleteOp(bidi) =>
      var t := DirOf(w, bidi);
      WithDir(w.(a := Settle(w.a, t.done[0].sid)), bidi, t.(done := t.done[1..]))
    case ReportOp => w.(a := Report(w.a, Available(w.bidi), Available(w.uni)))
    case RaiseOp(bidi, limit) => WithDir(w, bidi, DirOf(w, bidi).(limit := limit))
    case PeerOp(sid, bidi) => w.(a := w.a.(streams := w.a.streams[sid := Record(bidi, false, false, false)]))
    case ShutdownOp(sid, kept) =>
      World(Shutdown(w.a, sid, kept), Ending(w.bidi, sid), Ending(w.uni, sid))
    case TerminalOp(sid) => w.(a := Forgotten(w.a, sid))
  }

  ghost predicate Run(states: seq<World>, ops: seq<Op>, isClient: bool, bidiLimit: nat, uniLimit: nat) {
    && |states| == |ops| + 1 && states[0] == World(NewStarts(isClient), Start(bidiLimit), Start(uniLimit))
    && forall k :: 0 <= k < |ops| ==> Enabled(states[k], ops[k]) && states[k + 1] == Step(states[k], ops[k])
  }
}

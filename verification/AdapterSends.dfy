/**
 The sending half of the MsQuic adapter as values: writes staged into one
 batch, batches handed to the transport and completed in order, the in-flight
 budget, plain and reliable resets, and the record of lost output.
 */
module AdapterSends {
  import opened StreamItems

  type Sid = nat
  type Buffer = nat    // one reference taken on a payload, or one private copy

  const BATCH_MAX := 64
  const BUDGET_MIN := 1024 * 1024
  const UINT32_MAX := 0xFFFF_FFFF

  datatype Entry = Entry(buffer: Buffer, copied: bool, data: seq<Byte>)
  datatype Batch = Batch(entries: seq<Entry>, fin: bool)
  datatype Staging = Nothing | Staged(sid: Sid, batch: Batch)

  datatype Status = Success | Aborted | Failure
  datatype Result = Ok | WouldBlock | Error | Dropped

  /** How the sending side of a stream stands. */
  datatype Flags = Flags(
    sendCanceled: bool,
    finSent: bool,
    finAcked: bool,
    committed: bool,
    resetSent: bool,
    aborted: bool,
    control: bool,
    withdrawn: bool,
    shutdownComplete: bool)

  /** What an observer of the stream has seen. */
  datatype Log = Log(
    accepted: seq<Item>,     // writes answered Ok
    handed: seq<Item>,       // what the transport took
    acked: seq<Byte>,        // bytes of uncanceled completions
    lost: nat)               // bytes of canceled completions

  datatype Stream = Stream(
    isLocal: bool,
    isBidi: bool,
    live: bool,              // the transport handle has not died
    inflight: int,
    ideal: nat,
    sent: nat,
    acked: nat,
    flags: Flags,
    out: seq<Batch>,         // handed over, completion still to come, oldest first
    log: Log)

  /** How the connection stands. */
  datatype Latches = Latches(
    flushFailed: bool,
    outputLost: bool,
    peerClosed: bool,
    closePending: bool,
    teardownSent: bool,
    shutDown: bool,
    fatal: bool)             // the bridge is in a fatal state

  /** What an observer of the connection has seen. */
  datatype Past = Past(
    retired: map<Sid, Stream>,
    released: seq<Buffer>,
    broken: bool)            // a staged batch was refused

  datatype Conn = Conn(
    streams: map<Sid, Stream>,
    building: Staging,
    pendingSends: int,
    reliableReset: bool,
    latch: Latches,
    nextBuffer: Buffer,
    past: Past)

  function NewStream(isLocal: bool, isBidi: bool): Stream {
    Stream(isLocal, isBidi, true, 0, 0, 0, 0,
           Flags(false, false, false, false, false, false, false, false, false), [], Log([], [], [], 0))
  }

  function NewConn(): Conn {
    Conn(map[], Nothing, 0, false, Latches(false, false, false, false, false, false, false), 0, Past(map[], [], false))
  }

  // ----- contents -----

  function Data(entries: seq<Entry>): seq<Byte> {
    if entries == [] then [] else entries[0].data + Data(entries[1..])
  }

  function Items(b: Batch): seq<Item> { Octets(Data(b.entries)) + EndMark(b.fin) }

  function Bytes(b: Batch): nat { |Data(b.entries)| }

  function Buffers(entries: seq<Entry>): seq<Buffer> {
    if entries == [] then [] else [entries[0].buffer] + Buffers(entries[1..])
  }

  // ----- flushing the staged batch -----

  predicate Linked(c: Conn) {
    c.building.Staged? ==> c.building.sid in c.streams
  }

  function Put(c: Conn, sid: Sid, s: Stream): Conn { c.(streams := c.streams[sid := s]) }

  function Captured(s: Stream, control: bool): Stream {
    s.(flags := s.flags.(control := s.flags.control || control))
  }

  /** The stream after the transport took a batch. */
  function Took(s: Stream, b: Batch): Stream {
    s.(flags := s.flags.(finSent := s.flags.finSent || b.fin), inflight := s.inflight + Bytes(b),
    sent := s.sent + Bytes(b), out := s.out + [b], log := s.log.(handed := s.log.handed + Items(b)))
  }

  /** The transport took the batch: it is in flight. */
  function HandOver(c: Conn, sid: Sid, s: Stream, b: Batch): Conn {
    c.(streams := c.streams[sid := Took(s, b)], building := Nothing, pendingSends := c.pendingSends + 1)
  }

  /** No completion will come for a refused batch: its buffers are released here, and why is latched. */
  function Refuse(c: Conn, sid: Sid, s: Stream, b: Batch, byPeer: bool): Conn {
    c.(streams := c.streams[sid := s], building := Nothing,
    past := c.past.(released := c.past.released + Buffers(b.entries), broken := true),
    latch := if byPeer then c.latch.(peerClosed := true) else c.latch.(flushFailed := true))
  }

  /** Hand the staged batch over as one send. */
  function Flush(c: Conn, status: Status, control: set<Sid>): (r: Conn)
    requires Linked(c)
    ensures r.building.Nothing? && forall x :: x in c.streams ==> x in r.streams
  {
    match c.building
    case Nothing => c
    case Staged(sid, b) =>
      var s := Captured(c.streams[sid], sid in control);
      if s.live && status.Success? then HandOver(c, sid, s, b)
      else Refuse(c, sid, s, b, s.live && status.Aborted?)
  }

  // ----- staging a write -----

  /** What the environment answers during one operation. */
  datatype Env = Env(
    record: bool,         // a batch record can be had
    copy: bool,           // memory for a private copy can be had
    first: Status,        // the send of a batch flushed on the way
    second: Status,       // the send of the batch holding this write
    shutdown: bool,       // StreamShutdown succeeds
    control: set<Sid>)    // streams the bridge uses for session control

  function Discard(c: Conn, e: Entry): Conn {
    if e.copied then c.(past := c.past.(released := c.past.released + [e.buffer])) else c
  }

  function Accepting(s: Stream, items: seq<Item>): Stream {
    s.(log := s.log.(accepted := s.log.accepted + items))
  }

  function Accepted(c: Conn, sid: Sid, items: seq<Item>): Conn
    requires sid in c.streams
  {
    Put(c, sid, Accepting(c.streams[sid], items))
  }

  function Grown(c: Conn, sid: Sid, e: Entry, fin: bool): Conn {
    var b := if c.building.Staged? then c.building.batch else Batch([], false);
    c.(building := Staged(sid, Batch(b.entries + [e], b.fin || fin)),
    nextBuffer := if e.copied then c.nextBuffer else c.nextBuffer + 1)
  }

  /** How an operation whose last act was a flush answers. */
  function Outcome(c: Conn, sid: Sid, items: seq<Item>): (Conn, Result)
    requires sid in c.streams
  {
    if c.latch.flushFailed then (c, Error)
    else if c.latch.peerClosed then (c, WouldBlock)
    else (Accepted(c, sid, items), Ok)
  }

  /** Add the entry to the staged batch; a batch that is full or ends the stream goes out at once. */
  function Stage(c: Conn, sid: Sid, e: Entry, fin: bool, env: Env): (Conn, Result)
    requires sid in c.streams
  {
    var c2 := Grown(c, sid, e, fin);
    if fin || |c2.building.batch.entries| == BATCH_MAX
    then Outcome(Flush(c2, env.second, env.control), sid, Octets(e.data) + EndMark(fin))
    else (Accepted(c2, sid, Octets(e.data)), Ok)
  }

  function Append(c: Conn, sid: Sid, e: Entry, fin: bool, env: Env): (Conn, Result)
    requires Linked(c) && sid in c.streams
  {
    if c.latch.peerClosed then (Discard(c, e), WouldBlock)
    else
      var switching := c.building.Staged? && c.building.sid != sid;
      var c1 := if switching then Flush(c, env.first, env.control) else c;
      if switching && c1.latch.flushFailed then (Discard(c1, e), Error)
      else if c1.latch.peerClosed then (Discard(c1, e), WouldBlock)
      else if c1.building.Nothing? && !env.record then (Discard(c1, e), Error)
      else Stage(c1, sid, e, fin, env)
  }

  // ----- the budget -----

  function Ceiling(s: Stream): nat { if s.ideal > BUDGET_MIN then s.ideal else BUDGET_MIN }

  function StagedBytes(c: Conn, sid: Sid): nat {
    if c.building.Staged? && c.building.sid == sid then Bytes(c.building.batch) else 0
  }

  predicate BudgetBlocks(c: Conn, sid: Sid, total: nat)
    requires sid in c.streams
  {
    var s := c.streams[sid];
    var inflight := s.inflight + StagedBytes(c, sid);
    total != 0 && inflight != 0 && (inflight >= Ceiling(s) || total > Ceiling(s) - inflight)
  }

  // ----- endpoint operations -----

  function Ended(s: Stream): Stream {
    s.(flags := s.flags.(finSent := true), log := s.log.(handed := s.log.handed + [Fin]))
  }

  /** A bare end mark rides the staged batch of its stream; with none staged it is a graceful shutdown. */
  function BareFin(c: Conn, sid: Sid, env: Env): (Conn, Result)
    requires sid in c.streams
  {
    if c.building.Staged? && c.building.sid == sid then
      Outcome(Flush(c.(building := Staged(sid, c.building.batch.(fin := true))), env.second, env.control), sid, [Fin])
    else
      var s := Captured(c.streams[sid], sid in env.control);
      if env.shutdown then (Put(c, sid, Accepting(Ended(s), [Fin])), Ok) else (Put(c, sid, s), Error)
  }

  function Write(c: Conn, sid: Sid, data: seq<Byte>, fin: bool, env: Env): (Conn, Result)
    requires Linked(c)
  {
    if sid !in c.streams || !c.streams[sid].live then (c, Error)
    else if data == [] then
      if fin then BareFin(c, sid, env) else (c, Ok)
    else if |data| > UINT32_MAX then (c, Error)
    else if BudgetBlocks(c, sid, |data|) then (c, WouldBlock)
    else if !env.copy then (c, Error)
    else Append(c.(nextBuffer := c.nextBuffer + 1), sid, Entry(c.nextBuffer, true, data), fin, env)
  }

  function WritePayload(c: Conn, sid: Sid, data: seq<Byte>, fin: bool, env: Env): (Conn, Result)
    requires Linked(c)
  {
    if sid !in c.streams || !c.streams[sid].live then (c, Error)
    else if |data| > UINT32_MAX then (c, Error)
    else if BudgetBlocks(c, sid, |data|) then (c, WouldBlock)
    else Append(c, sid, Entry(c.nextBuffer, false, data), fin, env)
  }

  /** A reset supersedes the output still owed, except on a session control stream. */
  function Withdrawn(s: Stream): Stream {
    s.(flags := s.flags.(resetSent := true, withdrawn := s.flags.withdrawn || !s.flags.control))
  }

  function AbortSend(c: Conn, sid: Sid, env: Env): (Conn, Result)
    requires sid in c.streams
  {
    var s := Captured(c.streams[sid], sid in env.control);
    if env.shutdown then (Put(c, sid, Withdrawn(s)), Ok) else (Put(c, sid, s), Error)
  }

  function Reset(c: Conn, sid: Sid, env: Env): (Conn, Result)
    requires Linked(c)
  {
    var c1 := Flush(c, env.second, env.control);
    if c1.latch.flushFailed then (c1, Error)
    else if sid !in c1.streams || !c1.streams[sid].live then (c1, Ok)
    else if c1.streams[sid].flags.committed || c1.streams[sid].flags.resetSent then (c1, Ok)
    else AbortSend(c1, sid, env)
  }

  function ResetAt(c: Conn, sid: Sid, reliable: nat, env: Env): (Conn, Result)
    requires Linked(c)
  {
    var c1 := Flush(c, env.second, env.control);
    if c1.latch.flushFailed then (c1, Error)
    else if sid !in c1.streams || !c1.streams[sid].live then (c1, Ok)
    else
      var s := c1.streams[sid];
      if s.flags.committed || s.flags.resetSent then (c1, Ok)
      else if !c1.reliableReset || reliable > s.sent || c1.latch.closePending || s.flags.sendCanceled then (c1, Dropped)
      else if s.acked < reliable then (c1, if s.inflight > 0 then WouldBlock else Dropped)
      else AbortSend(c1, sid, env)
  }

  // ----- stream events -----

  predicate Loses(s: Stream) {
    !s.flags.withdrawn && (s.acked < s.sent || (s.flags.finSent && !s.flags.finAcked))
  }

  function NoteLoss(l: Latches, loss: bool): Latches { if loss then l.(outputLost := true) else l }

  function Completed(s: Stream, canceled: bool): Stream
    requires s.out != []
  {
    var b := s.out[0];
    var rest := s.(inflight := s.inflight - Bytes(b), out := s.out[1..]);
    if canceled then
      rest.(flags := s.flags.(sendCanceled := true), log := s.log.(lost := s.log.lost + Bytes(b)))
    else
      rest.(acked := s.acked + Bytes(b), log := s.log.(acked := s.log.acked + Data(b.entries)))
  }

  /** The oldest batch of the stream completes, acknowledged or canceled. */
  function SendComplete(c: Conn, sid: Sid, canceled: bool): Conn
    requires sid in c.streams && c.streams[sid].out != []
  {
    var s := Completed(c.streams[sid], canceled);
    Put(c, sid, s).(pendingSends := c.pendingSends - 1, latch := NoteLoss(c.latch, canceled && Loses(s)),
    past := c.past.(released := c.past.released + Buffers(c.streams[sid].out[0].entries)))
  }

  predicate AckRefused(l: Latches, f: Flags) {
    || !f.finSent || f.resetSent || f.sendCanceled || f.aborted
    || l.closePending || l.peerClosed || l.teardownSent || l.flushFailed || l.fatal
  }

  function ShutdownFlags(s: Stream, graceful: bool, l: Latches): Flags {
    var f := s.flags.(shutdownComplete := true);
    if !graceful then f.(aborted := true)
    else if AckRefused(l, s.flags) then f
    else f.(finAcked := true, committed := f.committed || (s.isLocal && !s.isBidi))
  }

  function SendShutdownComplete(c: Conn, sid: Sid, graceful: bool): Conn
    requires sid in c.streams
  {
    var s := c.streams[sid];
    Put(c, sid, s.(flags := ShutdownFlags(s, graceful, c.latch))).(latch := NoteLoss(c.latch, !graceful && Loses(s)))
  }

  function Stopped(s: Stream): Stream {
    var sending := s.isLocal || s.isBidi;
    s.(flags := s.flags.(withdrawn := s.flags.withdrawn || (sending && !s.flags.control), aborted := true))
  }

  /** One flag after the other. */
  lemma StoppedSo(s: Stream)
    ensures var w := if (s.isLocal || s.isBidi) && !s.flags.control then s.flags.(withdrawn := true) else s.flags;
            Stopped(s) == s.(flags := w.(aborted := true))
  {
  }

  function PeerStops(c: Conn, sid: Sid, control: set<Sid>): Conn
    requires sid in c.streams
  {
    Put(c, sid, Stopped(Captured(c.streams[sid], sid in control)))
  }

  function Retire(c: Conn, sid: Sid): Conn
    requires sid in c.streams
  {
    c.(past := c.past.(retired := c.past.retired[sid := c.streams[sid]]), streams := c.streams - {sid})
  }

  /** The handle dies; the record stays only if the bridge must still hear of it. */
  function ShutdownComplete(c: Conn, sid: Sid, kept: bool): Conn
    requires sid in c.streams
  {
    var s := c.streams[sid];
    var c1 := Put(c, sid, s.(live := false)).(latch := NoteLoss(c.latch, Loses(s)));
    if kept then c1 else Retire(c1, sid)
  }

  // ----- the end of a service pass -----

  function Serviced(c: Conn, status: Status, control: set<Sid>): Conn
    requires Linked(c)
  {
    var c1 := Flush(c, status, control);
    if c1.latch.flushFailed then c1.(latch := c1.latch.(flushFailed := false, fatal := true)) else c1
  }

  // ----- the flush barrier -----

  datatype Poll = PollOk | PollDone | PollClosed | PollInternal

  predicate Unsettled(f: Flags) {
    || ((f.resetSent || f.withdrawn) && !f.shutdownComplete)
    || (f.finSent && !f.finAcked && !f.withdrawn)
  }

  predicate Over(l: Latches) {
    l.closePending || l.peerClosed || l.teardownSent || l.shutDown || l.flushFailed || l.fatal
  }

  /** `ended`: stop was requested, or the session has closed; `quiet`: neither the session, the bridge nor the datagram
      queue owes output. */
  function PollFlush(c: Conn, ended: bool, quiet: bool): Poll {
    if ended || Over(c.latch) then PollClosed
    else if c.latch.outputLost then PollInternal
    else if quiet && c.building.Nothing? && c.pendingSends == 0
            && forall sid :: sid in c.streams ==> !Unsettled(c.streams[sid].flags) then PollOk
    else PollDone
  }
}

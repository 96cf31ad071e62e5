/**
 The receiving half of the MsQuic adapter as values: bytes and the end mark of
 a peer's stream reach the bridge once, in pieces the bridge may refuse; what it
 cannot take stays with the transport, which stops indicating until resumed.
 */
module AdapterReceive {
  import opened StreamItems

  type Sid = nat

  /** What the bridge says to one feed: whether it took it, and whether it now has input pending on the stream. */
  datatype Answer = Answer(took: bool, pending: bool)

  /** What the bridge has been given; control input it always takes. */
  datatype Fed = Fed(
    isControl: bool,
    finFed: bool,
    heldInput: bool,
    finHeld: bool,
    awaits: bool,            // the bridge's: it refused a chunk other than a bare end and has not had it since
    log: seq<Item>)          // history: what the bridge took

  /** The transport's side of the stream. */
  datatype Net = Net(
    arrived: seq<Byte>,
    ended: bool,             // the peer has finished sending, all of it has arrived
    reported: nat,           // bytes reported consumed
    muted: bool,             // delivery is off until it is enabled again
    aborted: bool)           // the peer abandoned its direction

  datatype Rx = Rx(
    live: bool,              // the transport handle has not died
    paused: bool,
    recvDisabled: bool,
    fed: Fed,
    net: Net,
    early: bool)             // history: the end mark was fed while delivery was off

  function NewRx(isControl: bool): Rx {
    Rx(true, false, false, Fed(isControl, false, false, false, false, []), Net([], false, 0, false, false), false)
  }

  // ----- feeding -----

  /** Feed one buffer or a bare end mark; the flag says whether the caller may count it as consumed. */
  function Feed(f: Fed, data: seq<Byte>, fin: bool, a: Answer): (Fed, bool) {
    if f.finFed then (f, true)
    else if !a.took && !f.isControl then
      (f.(heldInput := true, finHeld := f.finHeld || fin, awaits := f.awaits || data != [] || !fin), false)
    else (f.(heldInput := false, finFed := fin, awaits := false, log := f.log + (Octets(data) + EndMark(fin))), true)
  }

  predicate OwesFin(f: Fed) { f.finHeld && !f.heldInput && !f.finFed }

  /** An end mark the adapter owns follows the bytes that were held. */
  function FeedOwedFin(f: Fed, a: Answer): Fed {
    if OwesFin(f) then Feed(f.(finHeld := false), [], true, a).0 else f
  }

  function Concat(buffers: seq<seq<Byte>>): seq<Byte> {
    if buffers == [] then [] else buffers[0] + Concat(buffers[1..])
  }

  /** Feed buffers in order up to the first that is refused or leaves the bridge pending: the stream, the bytes accepted
      and whether it stopped. */
  function FeedAll(f: Fed, buffers: seq<seq<Byte>>, fin: bool, answers: seq<Answer>): (Fed, nat, bool)
    requires |answers| == |buffers|
    decreases buffers
  {
    if buffers == [] then (f, 0, false)
    else
      var (f1, consumed) := Feed(f, buffers[0], fin && |buffers| == 1, answers[0]);
      if !consumed then (f1, 0, true)
      else if answers[0].pending then (f1, |buffers[0]|, true)
      else
        var (f2, n, stopped) := FeedAll(f1, buffers[1..], fin, answers[1..]);
        (f2, |buffers[0]| + n, stopped)
  }

  /** The feeds of one indication to a stream that is not paused, with an end mark that came bare or was owed. */
  function FeedIndication(f: Fed, buffers: seq<seq<Byte>>, fin: bool, answers: seq<Answer>, bare: Answer)
    : (Fed, nat, bool)
    requires |answers| == |buffers|
  {
    var (f1, accepted, stopped) := FeedAll(f, buffers, fin, answers);
    var f2 := if buffers == [] && fin then Feed(f1, [], true, bare).0 else f1;
    (if stopped then f2 else FeedOwedFin(f2, bare), accepted, stopped)
  }

  /** Nothing of the indication is accepted: the transport keeps it and stops delivering. */
  function Rejected(r: Rx): Rx { r.(recvDisabled := true, net := r.net.(muted := true)) }

  /** Keep with the transport whatever was not accepted. */
  function Accept(r: Rx, f: Fed, total: nat, accepted: nat, stopped: bool): Rx {
    if !stopped || !r.live then r.(fed := f, net := r.net.(reported := r.net.reported + total))
    else if accepted < total then
      r.(fed := f, paused := true, recvDisabled := true,
      net := r.net.(reported := r.net.reported + accepted, muted := true))
    else r.(fed := f, paused := true, net := r.net.(reported := r.net.reported + total))
  }

  function Receive(r: Rx, buffers: seq<seq<Byte>>, fin: bool, answers: seq<Answer>, bare: Answer): Rx
    requires |answers| == |buffers|
  {
    var total := |Concat(buffers)|;
    if r.paused then
      if fin && total == 0 then r.(fed := Feed(r.fed, [], true, bare).0) else Rejected(r)
    else
      var (f, accepted, stopped) := FeedIndication(r.fed, buffers, fin, answers, bare);
      Accept(r, f, total, accepted, stopped)
  }

  // ----- the peer ends or aborts its direction -----

  /** The stream after an end mark was offered: an end taken while delivery was off is noted. */
  function Offered(r: Rx, f: Fed): Rx {
    r.(fed := f, early := r.early || (!r.fed.finFed && f.finFed && r.net.muted))
  }

  function PeerSendShutdown(r: Rx, a: Answer): Rx {
    var after := Offered(r, Feed(r.fed, [], true, a).0);
    if r.fed.heldInput then after else after.(paused := false, recvDisabled := false)
  }

  function PeerSendAborted(r: Rx): Rx {
    r.(paused := false, recvDisabled := false, fed := r.fed.(heldInput := false, finHeld := false, awaits := false),
    net := r.net.(aborted := true))
  }

  // ----- the service pass -----

  predicate Settles(r: Rx, pending: bool) { OwesFin(r.fed) && r.live && !pending }

  function SettleOne(r: Rx, pending: bool, a: Answer): Rx {
    if Settles(r, pending) then Offered(r, FeedOwedFin(r.fed, a)) else r
  }

  /** Whether the bridge has input pending on the stream once the owed end mark was settled. */
  predicate PendingAfter(r: Rx, pending: bool, a: Answer) { if Settles(r, pending) then a.pending else pending }

  function ResumeOne(r: Rx, pending: bool): Rx {
    if !r.paused || !r.live || pending then r
    else r.(paused := false, recvDisabled := false, net := r.net.(muted := r.net.muted && !r.recvDisabled))
  }

  /** One service pass over the stream; `reached` says whether resuming got this far without a failure. */
  function Pass(r: Rx, pending: bool, a: Answer, reached: bool): Rx {
    var r1 := SettleOne(r, pending, a);
    if reached then ResumeOne(r1, PendingAfter(r, pending, a)) else r1
  }

  // ----- runs of one stream -----

  datatype Op =
    | Arrive(data: seq<Byte>, fin: bool)
    | Indicate(buffers: seq<seq<Byte>>, fin: bool, answers: seq<Answer>, bare: Answer)
    | SendShutdown(answer: Answer)
    | SendAborted
    | ServicePass(pending: bool, answer: Answer, reached: bool)
    | Died

  /** The transport indicates all that has arrived and was not consumed, and only while delivery is on; a bare end comes
      once everything has been indicated; and the bridge refuses a bare end mark while it awaits another chunk. */
  ghost predicate Enabled(r: Rx, op: Op) {
    match op
    case Arrive(data, fin) => !r.net.ended && !r.net.aborted
    case Indicate(buffers, fin, answers, bare) =>
      && r.live && !r.net.muted && !r.net.aborted && |answers| == |buffers| && r.net.reported <= |r.net.arrived|
      && Concat(buffers) == r.net.arrived[r.net.reported..] && (fin ==> r.net.ended) && (Concat(buffers) != [] || fin)
      && (r.fed.awaits && (buffers == [] || r.paused) ==> !bare.took)
    case SendShutdown(a) =>
      && r.live && !r.net.aborted && r.net.ended && (r.net.muted || r.net.reported == |r.net.arrived|)
      && (r.fed.awaits ==> !a.took)
    case SendAborted => r.live && !r.net.aborted
    case ServicePass(_, _, _) => true
    case Died => r.live
  }

  function Step(r: Rx, op: Op): Rx
    requires Enabled(r, op)
  {
    match op
    case Arrive(data, fin) => r.(net := r.net.(arrived := r.net.arrived + data, ended := fin))
    case Indicate(buffers, fin, answers, bare) => Receive(r, buffers, fin, answers, bare)
    case SendShutdown(a) => PeerSendShutdown(r, a)
    case SendAborted => PeerSendAborted(r)
    case ServicePass(pending, a, reached) => Pass(r, pending, a, reached)
    case Died => r.(live := false)
  }

  ghost predicate Run(states: seq<Rx>, ops: seq<Op>, isControl: bool) {
    && |states| == |ops| + 1 && states[0] == NewRx(isControl)
    && forall k :: 0 <= k < |ops| ==> Enabled(states[k], ops[k]) && states[k + 1] == Step(states[k], ops[k])
  }
}

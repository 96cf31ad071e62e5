/**
 When receive hold leaves a stream undelivered for good: exactly when the bridge
 refused the end while no held byte was left to bring it back.
 */
module ReceiveStalls {
  import opened StreamItems
  import opened AdapterReceive
  import opened ReceiveRuns

  // ----- getting stuck and getting free -----

  /** The indication offers the end with no byte left over, and the bridge refuses it. */
  predicate EndRefused(r: Rx, buffers: seq<seq<Byte>>, fin: bool, answers: seq<Answer>, bare: Answer)
    requires |answers| == |buffers|
  {
    if r.paused then fin && Concat(buffers) == [] && !bare.took
    else
      var (f, accepted, _) := FeedIndication(r.fed, buffers, fin, answers, bare);
      accepted == |Concat(buffers)| && f.finHeld && f.heldInput
  }

  /** The bridge refuses an end that no held byte will bring again: bytes waiting behind the adapter's flag would, but
      the end of the peer's direction clears it unless input is held. */
  ghost predicate Strands(r: Rx, op: Op)
    requires Enabled(r, op)
  {
    && r.live && !r.net.aborted && !r.fed.finFed && !r.fed.isControl
    && match op
       case Indicate(buffers, fin, answers, bare) => EndRefused(r, buffers, fin, answers, bare)
       case SendShutdown(a) => !a.took && !(r.fed.heldInput && r.recvDisabled)
       case ServicePass(pending, a, _) => Settles(r, pending) && !a.took && !r.recvDisabled
       case _ => false
  }

  /** The peer aborts, the stream dies, or the bridge takes what the transport offers again. */
  ghost predicate Frees(r: Rx, op: Op)
    requires Enabled(r, op)
  {
    match op
    case Indicate(buffers, fin, answers, bare) => !Receive(r, buffers, fin, answers, bare).fed.heldInput
    case SendShutdown(a) => a.took
    case SendAborted => true
    case Died => true
    case _ => false
  }

  lemma IndicateStuck(r: Rx, buffers: seq<seq<Byte>>, fin: bool, answers: seq<Answer>, bare: Answer)
    requires RxOk(r) && Enabled(r, Indicate(buffers, fin, answers, bare))
    ensures var op := Indicate(buffers, fin, answers, bare);
            Stuck(Step(r, op)) <==> Strands(r, op) || (Stuck(r) && !Frees(r, op))
  {
    hide Octets, FeedIndication, LogOk, Concat;
    assert |Concat(buffers)| == |r.net.arrived| - r.net.reported;
    if !r.paused {
      FeedIndicationLog(r.fed, buffers, fin, answers, bare);
      var (f, n, stopped) := FeedIndication(r.fed, buffers, fin, answers, bare);
      var after := Receive(r, buffers, fin, answers, bare);
      assert after == Accept(r, f, |Concat(buffers)|, n, stopped);
      assert Stuck(after) <==> !r.fed.finFed && n == |Concat(buffers)| && f.finHeld && f.heldInput;
    }
  }

  lemma ShutdownStuck(r: Rx, a: Answer)
    requires RxOk(r) && Enabled(r, SendShutdown(a))
    ensures Stuck(PeerSendShutdown(r, a)) <==>
              Strands(r, SendShutdown(a)) || (Stuck(r) && !Frees(r, SendShutdown(a)))
  {
    hide Octets, LogOk;
  }

  lemma PassStuck(r: Rx, pending: bool, a: Answer, reached: bool)
    requires RxOk(r)
    ensures Stuck(Pass(r, pending, a, reached)) <==> Strands(r, ServicePass(pending, a, reached)) || Stuck(r)
  {
    hide Octets, LogOk;
  }

  lemma StepStuck(r: Rx, op: Op)
    requires RxOk(r) && Enabled(r, op)
    ensures Stuck(Step(r, op)) <==> Strands(r, op) || (Stuck(r) && !Frees(r, op))
  {
    match op
    case Indicate(buffers, fin, answers, bare) => IndicateStuck(r, buffers, fin, answers, bare);
    case SendShutdown(a) => ShutdownStuck(r, a);
    case ServicePass(pending, a, reached) => PassStuck(r, pending, a, reached);
    case _ =>
  }

  // ----- over whole runs -----

  /** Operation j stranded the end and nothing before state k freed the stream. */
  ghost predicate StrandedSince(states: seq<Rx>, ops: seq<Op>, j: nat, k: nat)
    requires |states| == |ops| + 1 && k < |states| && forall i :: 0 <= i < |ops| ==> Enabled(states[i], ops[i])
  {
    j < k && Strands(states[j], ops[j]) && forall i :: j < i < k ==> !Frees(states[i], ops[i])
  }

  /** In every run a stream is stuck if and only if the bridge refused an end that no held byte would bring again, and
      neither the peer nor the transport has ended the matter since. */
  lemma {:induction false} StuckIff(states: seq<Rx>, ops: seq<Op>, isControl: bool, k: nat)
    requires Run(states, ops, isControl) && k < |states|
    ensures Stuck(states[k]) <==> exists j: nat :: StrandedSince(states, ops, j, k)
  {
    hide Stuck, Strands, Frees, Step, Enabled;
    if k == 0 {
      assert !Stuck(states[0]) by { NewNotStuck(isControl); }
    } else {
      var n := k - 1;
      StuckIff(states, ops, isControl, n);
      EveryState(states, ops, isControl, n);
      hide RxOk;
      StepStuck(states[n], ops[n]);
      SinceStep(states, ops, n);
    }
  }

  lemma NewNotStuck(isControl: bool)
    ensures !Stuck(NewRx(isControl))
  {
  }

  lemma SinceStep(states: seq<Rx>, ops: seq<Op>, n: nat)
    requires |states| == |ops| + 1 && n < |ops| && forall i :: 0 <= i < |ops| ==> Enabled(states[i], ops[i])
    ensures var k := n + 1;
            (exists j: nat :: StrandedSince(states, ops, j, k)) <==>
              || Strands(states[n], ops[n])
              || ((exists j: nat :: StrandedSince(states, ops, j, n)) && !Frees(states[n], ops[n]))
  {
    hide Strands, Frees, Enabled;
    var k := n + 1;
    if Strands(states[n], ops[n]) {
      assert StrandedSince(states, ops, n, k);
    }
    if j: nat :| StrandedSince(states, ops, j, n) && !Frees(states[n], ops[n]) {
      assert StrandedSince(states, ops, j, k);
    }
    if j: nat :| StrandedSince(states, ops, j, k) && j != n {
      assert StrandedSince(states, ops, j, n);
    }
  }

  /** After a pass that reaches the stream and leaves the bridge nothing pending on it, what is undelivered is stuck. */
  lemma PassDelivers(r: Rx, pending: bool, a: Answer)
    requires RxOk(r) && !PendingAfter(r, pending, a)
    ensures var after := Pass(r, pending, a, true); Undelivered(after) <==> Stuck(after)
  {
    SettleKeeps(r, pending, a);
    hide Octets, LogOk, SettleOne, PendingAfter;
  }

  /** Receive hold in every run: a pass that reaches a stream with nothing pending at the bridge leaves something
      undelivered if and only if an end was stranded before, or by the settling itself, and not freed since. */
  lemma UndeliveredIff(states: seq<Rx>, ops: seq<Op>, isControl: bool, k: nat, pending: bool, a: Answer)
    requires Run(states, ops, isControl) && k < |ops| && ops[k] == ServicePass(pending, a, true)
    requires !PendingAfter(states[k], pending, a)
    ensures var n := k + 1; Undelivered(states[n]) <==> exists j: nat :: StrandedSince(states, ops, j, n)
  {
    EveryState(states, ops, isControl, k);
    hide RxOk, Pass, Undelivered, Stuck, StrandedSince, PendingAfter;
    PassDelivers(states[k], pending, a);
    StuckIff(states, ops, isControl, k + 1);
  }

  /** An end refused by PEER_SEND_SHUTDOWN while no input is held is always stranded. */
  lemma ShutdownStrands(r: Rx, a: Answer)
    requires RxOk(r) && Enabled(r, SendShutdown(a)) && !r.fed.heldInput && !r.fed.finFed && !r.fed.isControl && !a.took
    ensures Stuck(PeerSendShutdown(r, a))
  {
    ShutdownStuck(r, a);
    hide Octets, Stuck;
  }

  // ----- both ways of being stuck are reached -----

  /** The stream after a bare end was refused with no input held. */
  function Ended(r: Rx): Rx {
    r.(paused := false, recvDisabled := false, fed := r.fed.(heldInput := true, finHeld := true))
  }

  lemma EndedStays(r: Rx, a: Answer)
    requires r.live && !r.fed.heldInput && !r.fed.finFed && !r.fed.isControl && !a.took
    ensures PeerSendShutdown(r, a) == Ended(r)
    ensures forall pending, b, reached :: Pass(Ended(r), pending, b, reached) == Ended(r)
  {
    BareFinLog(r.fed, a);
    assert !OwesFin(Ended(r).fed);
  }

  /** A run that ends with delivery off and no flag left to turn it on: one byte of two was taken, and neither the other
      nor the end reaches the bridge in any later pass. */
  lemma MutedRun(x: Byte, y: Byte)
    ensures exists states: seq<Rx>, ops: seq<Op> ::
              && Run(states, ops, false) && |states| == 5 && ops[3] == ServicePass(false, Answer(true, false), true)
              && var r := states[4];
              && Undelivered(r) && r.net.muted && !r.recvDisabled && !r.paused
              && r.net.reported == 1 && r.net.arrived == [x, y]
              && forall pending, a, reached :: Pass(r, pending, a, reached) == r
  {
    var took, refused := Answer(true, false), Answer(false, true);
    var ops := [Arrive([x, y], true), Indicate(Halves(x, y), false, TAKES_ONE, took), SendShutdown(refused),
      ServicePass(false, took, true)];
    var r0 := NewRx(false);
    var r1 := r0.(net := Net([x, y], true, 0, false, false));
    assert [] + [x, y] == [x, y];
    HalvesConcat(x, y);
    TakesOne(r1, x, y, took);
    assert r1.net.arrived[0..] == [x, y];
    var r2 := Halfway(x, y, false);
    EndedStays(r2, refused);
    var states := [r0, r1, r2, Ended(r2), Ended(r2)];
    hide Octets, Receive, PeerSendShutdown, Pass;
    assert Run(states, ops, false);
  }

  lemma TakesAll(r: Rx, x: Byte, bare: Answer)
    requires r == NewRx(false).(net := Net([x], true, 0, false, false))
    ensures Concat([[x]]) == [x]
    ensures Receive(r, [[x]], false, [Answer(true, false)], bare)
         == r.(fed := r.fed.(log := [Octet(x)]), net := r.net.(reported := 1))
  {
    assert Concat([[x]]) == [x] + Concat([]);
    assert Octets([x]) + EndMark(false) == [Octet(x)];
    assert [] + [Octet(x)] == [Octet(x)];
    assert FeedAll(r.fed.(log := [Octet(x)]), [], false, []) == (r.fed.(log := [Octet(x)]), 0, false);
    assert [[x]][1..] == [] && [Answer(true, false)][1..] == [];
  }

  /** A run in which every byte was taken and the end, refused once, reaches the bridge in no later pass. */
  lemma HeldEndRun(x: Byte)
    ensures exists states: seq<Rx>, ops: seq<Op> ::
              && Run(states, ops, false) && |states| == 5 && ops[3] == ServicePass(false, Answer(true, false), true)
              && var r := states[4];
              && Undelivered(r) && !r.net.muted && r.fed.finHeld && r.fed.log == [Octet(x)] && r.net.arrived == [x]
              && forall pending, a, reached :: Pass(r, pending, a, reached) == r
  {
    var took, refused := Answer(true, false), Answer(false, true);
    var ops := [Arrive([x], true), Indicate([[x]], false, [took], took), SendShutdown(refused),
      ServicePass(false, took, true)];
    var r0 := NewRx(false);
    var r1 := r0.(net := Net([x], true, 0, false, false));
    assert [] + [x] == [x];
    TakesAll(r1, x, took);
    assert r1.net.arrived[0..] == [x];
    var r2 := r1.(fed := r1.fed.(log := [Octet(x)]), net := r1.net.(reported := 1));
    EndedStays(r2, refused);
    var states := [r0, r1, r2, Ended(r2), Ended(r2)];
    hide Octets, Receive, PeerSendShutdown, Pass;
    assert Run(states, ops, false);
  }
}

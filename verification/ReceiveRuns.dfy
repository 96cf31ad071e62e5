/**
 Receive hold over whole runs: every byte reaches the bridge once and in order,
 the end mark at most once with nothing after it, and exactly when it may come
 ahead of bytes the transport still holds.
 */
module ReceiveRuns {
  import opened StreamItems
  import opened AdapterReceive

  // ----- invariant -----

  /** The bridge took every byte the peer sent, and then the end. */
  ghost predicate InOrder(r: Rx) { r.fed.log == Octets(r.net.arrived) + [Fin] }

  ghost predicate FlagsOk(r: Rx) {
    && (r.recvDisabled ==> r.paused && r.net.reported < |r.net.arrived|)
    && r.net.reported <= |r.net.arrived|
    && (!r.fed.finFed && !r.net.aborted ==>
          && (r.recvDisabled ==> r.net.muted)
          && (r.net.muted && !r.recvDisabled ==> r.fed.heldInput && r.fed.finHeld))
    && (r.net.muted ==> r.net.reported < |r.net.arrived|)
    && (r.fed.awaits ==> r.fed.heldInput)
    && (r.fed.finHeld || r.fed.finFed ==> r.net.ended)
    && (r.fed.isControl ==> !r.fed.heldInput && !r.fed.finHeld)
    && (r.net.aborted ==> !r.fed.finHeld)
    && (OwesFin(r.fed) && !r.recvDisabled ==> r.net.reported == |r.net.arrived|)
  }

  /** Until the end is fed the bridge has exactly the bytes reported consumed. */
  ghost predicate LogOk(r: Rx) {
    && EndsOnce(r.fed.log) && (r.fed.finFed <==> Fin in r.fed.log)
    && (!r.fed.finFed ==>
          r.net.reported <= |r.net.arrived| && r.fed.log == Octets(r.net.arrived[..r.net.reported]) && !r.early)
    && (r.fed.finFed ==> (InOrder(r) <==> !r.early))
  }

  ghost predicate RxOk(r: Rx) { FlagsOk(r) && LogOk(r) }

  /** Something is undelivered that the transport will not bring by itself: delivery is off, or every byte was reported
      and the end is held. */
  ghost predicate Undelivered(r: Rx) {
    && r.live && !r.net.aborted && !r.fed.finFed
    && (r.net.muted || (r.fed.finHeld && r.net.reported == |r.net.arrived|))
  }

  /** The end was refused and counts as held input, which settling skips, while nothing is left that resuming would
      bring: delivery is off without the adapter's flag, or every byte was reported. */
  ghost predicate Stuck(r: Rx) {
    && r.live && !r.net.aborted && !r.fed.finFed && r.fed.finHeld && r.fed.heldInput
    && ((r.net.muted && !r.recvDisabled) || r.net.reported == |r.net.arrived|)
  }

  // ----- feeding a whole indication -----

  /** What feeding does to the flags, one buffer or several; `fin` if the end was among them. */
  ghost predicate Fits(f: Fed, f1: Fed, fin: bool) {
    && (f1.finHeld ==> f.finHeld || fin) && (f1.finFed ==> f.finFed || fin)
    && (f.finFed ==> f1 == f) && f1.isControl == f.isControl
    && (f.isControl && !f.heldInput && !f.finHeld ==> !f1.heldInput && !f1.finHeld)
    && (!f.finFed && f1.heldInput ==> !f1.finFed) && (f.finHeld ==> f1.finHeld)
    && ((f.awaits ==> f.heldInput) ==> (f1.awaits ==> f1.heldInput))
  }

  lemma FeedFits(f: Fed, data: seq<Byte>, fin: bool, a: Answer)
    ensures Fits(f, Feed(f, data, fin, a).0, fin)
  {
    hide Octets;
  }

  lemma {:induction false} FeedAllFlags(f: Fed, buffers: seq<seq<Byte>>, fin: bool, answers: seq<Answer>)
    requires |answers| == |buffers|
    ensures var (f1, n, stopped) := FeedAll(f, buffers, fin, answers);
            n <= |Concat(buffers)| && (!stopped ==> n == |Concat(buffers)|) && Fits(f, f1, fin)
    decreases buffers
  {
    hide Feed;
    if buffers != [] {
      var (f1, consumed) := Feed(f, buffers[0], fin && |buffers| == 1, answers[0]);
      FeedFits(f, buffers[0], fin && |buffers| == 1, answers[0]);
      FeedAllFlags(f1, buffers[1..], fin, answers[1..]);
    }
  }

  lemma FeedLog(f: Fed, data: seq<Byte>, fin: bool, a: Answer)
    requires !f.finFed
    ensures var (f1, consumed) := Feed(f, data, fin, a);
            if consumed then f1.log == f.log + (Octets(data) + EndMark(fin)) && f1.finFed == fin
            else f1.log == f.log && !f1.finFed
  {
    hide Octets, EndMark;
  }

  lemma ConcatFront(front: seq<Byte>, rest: seq<Byte>, n: nat)
    requires n <= |rest|
    ensures (front + rest)[..|front| + n] == front + rest[..n]
  {
  }

  lemma NoItems()
    ensures Octets([]) + EndMark(false) == []
  {
  }

  /** One taken buffer followed by what the rest contributes. */
  lemma LogFront(log: seq<Item>, front: seq<Byte>, rest: seq<Byte>, n: nat, fin: bool)
    requires n <= |rest|
    ensures log + (Octets(front) + EndMark(false)) + (Octets(rest[..n]) + EndMark(fin))
         == log + (Octets((front + rest)[..|front| + n]) + EndMark(fin))
  {
    ConcatFront(front, rest, n);
    OctetsConcat(front, rest[..n]);
  }

  /** The bridge takes a prefix of the indicated bytes; the end mark only behind all of them. */
  lemma {:induction false} FeedAllLog(f: Fed, buffers: seq<seq<Byte>>, fin: bool, answers: seq<Answer>)
    requires |answers| == |buffers| && !f.finFed
    ensures var (f1, n, stopped) := FeedAll(f, buffers, fin, answers);
            && n <= |Concat(buffers)|
            && f1.log == f.log + (Octets(Concat(buffers)[..n]) + EndMark(f1.finFed))
            && (f1.finFed ==> n == |Concat(buffers)|)
    decreases buffers
  {
    hide Octets, EndMark, Feed, Fits;
    NoItems();
    FeedAllFlags(f, buffers, fin, answers);
    if buffers == [] {
      assert Concat(buffers)[..0] == [];
    } else {
      var front, rest := buffers[0], Concat(buffers[1..]);
      var last := fin && |buffers| == 1;
      var (f1, consumed) := Feed(f, front, last, answers[0]);
      FeedLog(f, front, last, answers[0]);
      if !consumed {
        assert Concat(buffers)[..0] == [];
      } else if answers[0].pending || last {
        assert last ==> buffers[1..] == [] && rest == [];
        ConcatFront(front, rest, 0);
        assert front + rest[..0] == front;
      } else {
        FeedAllLog(f1, buffers[1..], fin, answers[1..]);
        var (f2, n, stopped) := FeedAll(f1, buffers[1..], fin, answers[1..]);
        LogFront(f.log, front, rest, n, f2.finFed);
      }
    }
  }

  // ----- each event -----

  lemma BareFinLog(f: Fed, a: Answer)
    requires !f.finFed
    ensures var (f1, _) := Feed(f, [], true, a);
            if f1.finFed then f1.log == f.log + [Fin] && !f1.heldInput && !f1.awaits
            else f1 == f.(heldInput := true, finHeld := true)
  {
    assert Octets([]) + EndMark(true) == [Fin];
  }

  lemma BareFinFlags(f: Fed, a: Answer)
    ensures var (f1, _) := Feed(f, [], true, a);
            && f1.isControl == f.isControl && (f.finFed ==> f1 == f) && (f1.finHeld ==> f.finHeld || !f1.finFed)
            && (f1.heldInput ==> f.heldInput || f1.finHeld)
            && (f.isControl && !f.heldInput && !f.finHeld ==> !f1.heldInput && !f1.finHeld)
  {
    hide Octets;
  }

  /** The end mark fed behind all that was reported is in order exactly when nothing was left with the transport. */
  lemma EndInOrder(log: seq<Item>, arrived: seq<Byte>, reported: nat)
    requires reported <= |arrived| && log == Octets(arrived[..reported])
    ensures EndsOnce(log + [Fin]) && Fin in log + [Fin] && Fin !in log
    ensures (log + [Fin] == Octets(arrived) + [Fin]) <==> reported == |arrived|
  {
    assert (log + [Fin])[|log|] == Fin;
    if reported == |arrived| {
      assert arrived[..reported] == arrived;
    } else {
      assert |log + [Fin]| != |Octets(arrived) + [Fin]|;
    }
  }

  lemma FeedIndicationLog(f: Fed, buffers: seq<seq<Byte>>, fin: bool, answers: seq<Answer>, bare: Answer)
    requires |answers| == |buffers|
    ensures var (f1, n, stopped) := FeedIndication(f, buffers, fin, answers, bare);
            && n <= |Concat(buffers)| && (!stopped ==> n == |Concat(buffers)|)
            && (f1.finHeld ==> f.finHeld || fin) && (f1.finFed ==> f.finFed || fin || f.finHeld)
            && (f.finFed ==> f1 == f) && f1.isControl == f.isControl
            && (f.isControl && !f.heldInput && !f.finHeld ==> !f1.heldInput && !f1.finHeld)
            && (!f.finFed && f1.heldInput ==> !f1.finFed && (f.finHeld ==> f1.finHeld))
            && ((f.awaits ==> f.heldInput) && f1.awaits ==> f1.heldInput)
            && (!f.finFed ==> f1.log == f.log + (Octets(Concat(buffers)[..n]) + EndMark(f1.finFed)))
            && (!f.finFed && f1.finFed ==> n == |Concat(buffers)|)
  {
    hide Octets, FeedAll;
    var (f1, n, stopped) := FeedAll(f, buffers, fin, answers);
    FeedAllFlags(f, buffers, fin, answers);
    if !f.finFed {
      FeedAllLog(f, buffers, fin, answers);
      assert EndMark(false) == [];
      var f2 := if buffers == [] && fin then Feed(f1, [], true, bare).0 else f1;
      if !f1.finFed {
        BareFinLog(f1, bare);
        assert f.log + (Octets(Concat(buffers)[..n]) + []) + [Fin] == f.log + (Octets(Concat(buffers)[..n]) + [Fin]);
      }
      if !f2.finFed && !stopped && OwesFin(f2) {
        BareFinLog(f2.(finHeld := false), bare);
      }
    }
  }

  lemma PrefixStep(arrived: seq<Byte>, reported: nat, n: nat)
    requires reported + n <= |arrived|
    ensures Octets(arrived[..reported]) + Octets(arrived[reported..][..n]) == Octets(arrived[..reported + n])
    ensures forall i :: 0 <= i < reported ==> Octets(arrived[..reported])[i].Octet?
  {
    OctetsConcat(arrived[..reported], arrived[reported..][..n]);
    assert arrived[..reported] + arrived[reported..][..n] == arrived[..reported + n];
  }

  /** The log after a stretch of bytes, and perhaps the end, was taken behind what was reported. */
  lemma TakenLog(r: Rx, f: Fed, n: nat, after: Rx)
    requires LogOk(r) && !r.fed.finFed && r.net.reported + n <= |r.net.arrived|
    requires f.log == r.fed.log + (Octets(r.net.arrived[r.net.reported..][..n]) + EndMark(f.finFed))
    requires f.finFed ==> (r.net.reported + n == |r.net.arrived| <==> !after.early)
    requires !f.finFed ==> !after.early
    requires after.fed == f && after.net.arrived == r.net.arrived && after.net.reported == r.net.reported + n
    ensures LogOk(after)
  {
    var reported := r.net.reported + n;
    PrefixStep(r.net.arrived, r.net.reported, n);
    assert f.log == Octets(r.net.arrived[..reported]) + EndMark(f.finFed);
    EndInOrder(Octets(r.net.arrived[..reported]), r.net.arrived, reported);
    assert !f.finFed ==> f.log == Octets(r.net.arrived[..reported]);
  }

  lemma AcceptKeeps(r: Rx, buffers: seq<seq<Byte>>, fin: bool, answers: seq<Answer>, bare: Answer)
    requires RxOk(r) && Enabled(r, Indicate(buffers, fin, answers, bare)) && !r.paused
    ensures RxOk(Receive(r, buffers, fin, answers, bare))
  {
    hide FeedIndication, Octets, Concat;
    var (f, n, stopped) := FeedIndication(r.fed, buffers, fin, answers, bare);
    FeedIndicationLog(r.fed, buffers, fin, answers, bare);
    if !r.fed.finFed {
      TakenLog(r, f, n, Receive(r, buffers, fin, answers, bare));
    }
  }

  lemma NothingMore(r: Rx, f: Fed)
    requires r.net.reported <= |r.net.arrived| && f.log == r.fed.log + [Fin] && f.finFed
    ensures f.log == r.fed.log + (Octets(r.net.arrived[r.net.reported..][..0]) + EndMark(f.finFed))
  {
  }

  lemma OfferedLog(r: Rx, f: Fed, a: Answer, after: Rx)
    requires LogOk(r) && FlagsOk(r) && (f == r.fed || f == r.fed.(finHeld := false))
    requires after.fed == Feed(f, [], true, a).0
    requires after.net.arrived == r.net.arrived && after.net.reported == r.net.reported
    requires !r.fed.finFed && after.fed.finFed ==> (r.net.reported == |r.net.arrived| <==> !after.early)
    requires !after.fed.finFed || r.fed.finFed ==> after.early == r.early
    ensures LogOk(after)
  {
    hide Octets;
    if !r.fed.finFed {
      BareFinLog(f, a);
      if after.fed.finFed {
        NothingMore(r, after.fed);
        TakenLog(r, after.fed, 0, after);
      }
    }
  }

  lemma IndicateKeeps(r: Rx, buffers: seq<seq<Byte>>, fin: bool, answers: seq<Answer>, bare: Answer)
    requires RxOk(r) && Enabled(r, Indicate(buffers, fin, answers, bare))
    ensures RxOk(Receive(r, buffers, fin, answers, bare))
  {
    if !r.paused {
      AcceptKeeps(r, buffers, fin, answers, bare);
    } else if fin && |Concat(buffers)| == 0 {
      hide Octets;
      BareFinFlags(r.fed, bare);
      OfferedLog(r, r.fed, bare, Receive(r, buffers, fin, answers, bare));
    }
  }

  lemma ShutdownKeeps(r: Rx, a: Answer)
    requires RxOk(r) && Enabled(r, SendShutdown(a))
    ensures RxOk(PeerSendShutdown(r, a))
  {
    hide Octets;
    BareFinFlags(r.fed, a);
    OfferedLog(r, r.fed, a, PeerSendShutdown(r, a));
  }

  lemma SettleKeeps(r: Rx, pending: bool, a: Answer)
    requires RxOk(r)
    ensures RxOk(SettleOne(r, pending, a))
    ensures var after := SettleOne(r, pending, a); OwesFin(after.fed) && after.live ==> PendingAfter(r, pending, a)
  {
    hide Octets;
    if Settles(r, pending) {
      BareFinFlags(r.fed.(finHeld := false), a);
      OfferedLog(r, r.fed.(finHeld := false), a, SettleOne(r, pending, a));
    }
  }

  lemma PassKeeps(r: Rx, pending: bool, a: Answer, reached: bool)
    requires RxOk(r)
    ensures RxOk(Pass(r, pending, a, reached))
  {
    hide SettleOne, PendingAfter, Octets;
    SettleKeeps(r, pending, a);
  }

  lemma ArriveKeeps(r: Rx, data: seq<Byte>, fin: bool)
    requires RxOk(r) && Enabled(r, Arrive(data, fin))
    ensures RxOk(Step(r, Arrive(data, fin)))
  {
    assert (r.net.arrived + data)[..r.net.reported] == r.net.arrived[..r.net.reported];
    hide Octets;
  }

  lemma StepKeeps(r: Rx, op: Op)
    requires RxOk(r) && Enabled(r, op)
    ensures RxOk(Step(r, op))
  {
    hide RxOk, Receive, PeerSendShutdown, Pass;
    match op
    case Arrive(data, fin) => ArriveKeeps(r, data, fin);
    case Indicate(buffers, fin, answers, bare) => IndicateKeeps(r, buffers, fin, answers, bare);
    case SendShutdown(a) => ShutdownKeeps(r, a);
    case SendAborted => AbortedKeeps(r);
    case ServicePass(pending, a, reached) => PassKeeps(r, pending, a, reached);
    case Died => AbortedKeeps(r);
  }

  lemma AbortedKeeps(r: Rx)
    requires RxOk(r)
    ensures RxOk(PeerSendAborted(r)) && RxOk(r.(live := false))
  {
    hide Octets;
  }

  lemma {:induction false} EveryState(states: seq<Rx>, ops: seq<Op>, isControl: bool, k: nat)
    requires Run(states, ops, isControl) && k < |states|
    ensures RxOk(states[k])
  {
    hide Step, Enabled;
    if k > 0 {
      EveryState(states, ops, isControl, k - 1);
      hide RxOk;
      StepKeeps(states[k - 1], ops[k - 1]);
    }
  }

  // ----- what follows -----

  /** Exactly once: until the end is fed, what the bridge took is the bytes reported consumed, in order; the end is
      fed at most once and nothing after it; and a stream with delivery disabled is paused. */
  lemma ExactlyOnce(states: seq<Rx>, ops: seq<Op>, isControl: bool, k: nat)
    requires Run(states, ops, isControl) && k < |states|
    ensures var r := states[k];
            && (!r.fed.finFed ==>
                  r.net.reported <= |r.net.arrived| && r.fed.log == Octets(r.net.arrived[..r.net.reported]))
            && EndsOnce(r.fed.log) && (r.fed.finFed <==> Fin in r.fed.log)
            && (r.recvDisabled ==> r.paused && r.net.reported < |r.net.arrived|)
  {
    EveryState(states, ops, isControl, k);
  }

  /** When an event or a pass feeds the end, it comes after every byte if and only if delivery was not off; on a stream
      that is not stuck the adapter's own flag says the same. */
  lemma EndIff(states: seq<Rx>, ops: seq<Op>, isControl: bool, k: nat)
    requires Run(states, ops, isControl) && k < |ops| && !states[k].fed.finFed && states[k + 1].fed.finFed
    ensures InOrder(states[k + 1]) <==> !states[k].net.muted
    ensures !Stuck(states[k]) ==> (InOrder(states[k + 1]) <==> !states[k].recvDisabled)
  {
    EveryState(states, ops, isControl, k);
    EveryState(states, ops, isControl, k + 1);
    EarlyNoted(states[k], ops[k]);
    hide Octets;
  }

  lemma EarlyNoted(r: Rx, op: Op)
    requires RxOk(r) && Enabled(r, op) && !r.fed.finFed && Step(r, op).fed.finFed
    ensures Step(r, op).early <==> r.net.muted
    ensures !r.net.aborted && r.live
  {
    hide Octets, FeedIndication, InOrder;
  }

  // ----- the end can overtake held bytes -----

  /** The answers that take the first of two buffers and then leave the bridge pending. */
  const TAKES_ONE: seq<Answer> := [Answer(true, true), Answer(true, true)]
  const REFUSES: seq<Answer> := [Answer(false, true), Answer(true, true)]

  function Halves(x: Byte, y: Byte): seq<seq<Byte>> { [[x], [y]] }

  lemma HalvesConcat(x: Byte, y: Byte)
    ensures Concat(Halves(x, y)) == [x, y]
  {
    assert Concat([[y]]) == [y] + Concat([]);
    assert Concat(Halves(x, y)) == [x] + Concat([[y]]);
  }

  /** Both bytes and the end have arrived; the first byte was taken, the second is held, and the end is owed or not. */
  function Halfway(x: Byte, y: Byte, finHeld: bool): Rx {
    Rx(true, true, true, Fed(false, false, false, finHeld, false, [Octet(x)]), Net([x, y], true, 1, true, false), false)
  }

  lemma TakesOne(r: Rx, x: Byte, y: Byte, bare: Answer)
    requires r.live && !r.paused && !r.fed.finFed && !r.fed.isControl && r.net.reported == 0 && r.fed.log == []
    requires r.net.arrived == [x, y] && r.net.ended && !r.net.aborted && !r.early
    ensures Receive(r, Halves(x, y), false, TAKES_ONE, bare) == Halfway(x, y, r.fed.finHeld)
  {
    HalvesConcat(x, y);
    assert Octets([x]) + EndMark(false) == [Octet(x)];
    assert [] + [Octet(x)] == [Octet(x)];
  }

  /** A graceful end of the peer's direction, or the settling of an end held earlier, overtakes the byte still held. */
  lemma EndOvertakes(x: Byte, y: Byte, finHeld: bool, a: Answer)
    requires a.took
    ensures var r := Halfway(x, y, finHeld);
            && PeerSendShutdown(r, a).fed.finFed && !InOrder(PeerSendShutdown(r, a))
            && (finHeld ==> SettleOne(r, false, a).fed.finFed && !InOrder(SettleOne(r, false, a)))
  {
    var r := Halfway(x, y, finHeld);
    BareFinLog(r.fed, a);
    BareFinLog(r.fed.(finHeld := false), a);
    assert |Octets([x, y]) + [Fin]| == 3 && |[Octet(x)] + [Fin]| == 2;
  }

  /** A run in which the end is fed by PEER_SEND_SHUTDOWN while the second byte is held. */
  lemma ShutdownRun(x: Byte, y: Byte)
    ensures exists states: seq<Rx>, ops: seq<Op> ::
              Run(states, ops, false) && |states| == 4 && states[3].fed.finFed && !InOrder(states[3])
  {
    var took := Answer(true, false);
    var ops := [Arrive([x, y], true), Indicate(Halves(x, y), false, TAKES_ONE, took), SendShutdown(took)];
    var r0 := NewRx(false);
    var r1 := r0.(net := Net([x, y], true, 0, false, false));
    assert [] + [x, y] == [x, y];
    HalvesConcat(x, y);
    TakesOne(r1, x, y, took);
    assert r1.net.arrived[0..] == [x, y];
    var r2 := Halfway(x, y, false);
    EndOvertakes(x, y, false, took);
    var states := [r0, r1, r2, PeerSendShutdown(r2, took)];
    hide Octets, Receive, PeerSendShutdown, InOrder, Halfway;
    assert Run(states, ops, false);
  }

  lemma RefusesAll(r: Rx, x: Byte, y: Byte, bare: Answer)
    requires r.live && !r.paused && !r.recvDisabled && !r.fed.finFed && !r.fed.isControl && !r.fed.finHeld
    requires r.net.reported == 0 && !r.net.muted
    ensures Receive(r, Halves(x, y), false, REFUSES, bare)
         == r.(paused := true, recvDisabled := true, fed := r.fed.(heldInput := true, awaits := true),
            net := r.net.(muted := true))
  {
    HalvesConcat(x, y);
  }

  /** A run in which the end, held because the first byte was refused, is settled once that byte was taken, while the
      second is held again. */
  lemma SettleRun(x: Byte, y: Byte)
    ensures exists states: seq<Rx>, ops: seq<Op> ::
              Run(states, ops, false) && |states| == 7 && states[6].fed.finFed && !InOrder(states[6])
  {
    var took, refused := Answer(true, false), Answer(false, true);
    var ops := [Arrive([x, y], true), Indicate(Halves(x, y), false, REFUSES, refused), SendShutdown(refused),
      ServicePass(false, refused, true), Indicate(Halves(x, y), false, TAKES_ONE, refused),
      ServicePass(false, took, false)];
    var r0 := NewRx(false);
    var r1 := r0.(net := Net([x, y], true, 0, false, false));
    var held := Fed(false, false, true, false, true, []);
    var r2 := Rx(true, true, true, held, Net([x, y], true, 0, true, false), false);
    var r3 := r2.(fed := held.(finHeld := true));
    var r4 := r3.(paused := false, recvDisabled := false, net := Net([x, y], true, 0, false, false));
    var r5 := Halfway(x, y, true);
    assert [] + [x, y] == [x, y];
    assert r1.net.arrived[0..] == [x, y];
    HalvesConcat(x, y);
    RefusesAll(r1, x, y, refused);
    BareFinLog(held, refused);
    assert r3 == PeerSendShutdown(r2, refused);
    assert r4 == Pass(r3, false, refused, true);
    TakesOne(r4, x, y, refused);
    EndOvertakes(x, y, true, took);
    var states := [r0, r1, r2, r3, r4, r5, SettleOne(r5, false, took)];
    hide Octets, Receive, PeerSendShutdown, SettleOne, InOrder, ResumeOne;
    assert Run(states, ops, false);
  }
}

/**
 Whole runs of the facade: what holds in every state that any interleaving of
 the doorbells, workers, wakers, accepts, drain and stop can reach, and in
 which order things must have happened on the way there.
 */
module LaneRuns {
  import opened LaneProtocol
  import opened LaneSafety

  // ----- the connection reserve -----

  /** The reservations a lane accounts for: its linked children and the one its doorbell has unlinked but not
      released. */
  function Load(l: Lane): nat { |l.conns| + if l.db.Retiring? then 1 else 0 }

  function Loads(lanes: seq<Lane>): nat {
    if lanes == [] then 0 else Load(lanes[0]) + Loads(lanes[1..])
  }

  lemma {:induction false} LoadsUpdate(lanes: seq<Lane>, i: nat, l: Lane)
    requires i < |lanes|
    ensures Loads(lanes[i := l]) == Loads(lanes) - Load(lanes[i]) + Load(l)
    ensures Load(lanes[i]) <= Loads(lanes)
  {
    if i > 0 {
      LoadsUpdate(lanes[1..], i - 1, l);
      assert lanes[i := l][1..] == lanes[1..][i - 1 := l];
    } else {
      assert lanes[0 := l][1..] == lanes[1..];
    }
  }

  function LoadChange(a: Act): int {
    match a
    case Accept(Link) => 1
    case Accept(Unlink) => -1
    case Reap(ReleaseReserve) => -1
    case _ => 0
  }

  /** Taking a victim off the list moves its reservation to the doorbell; only the release gives it back. */
  lemma LoadStep(l: Lane, a: Act, f: Facade)
    requires LaneInv(l, f.client) && Bounded(l, f) && LaneEnabled(l, a, f)
    ensures Load(LaneStep(l, a, f)) == Load(l) + LoadChange(a)
  {
    if !Relists(a) {
      LaneKeeps(l, a, f);
      hide LaneStep, LaneInv, Bounded;
    } else if a == Accept(Unlink) {
      WithoutElements(l.conns, l.holder.accept.child);
    } else if a.Reap? && a.reap.Pick? {
      WithoutElements(l.conns, a.reap.id);
    }
  }

  ghost predicate LanesOk(f: Facade) {
    forall i :: 0 <= i < |f.lanes| ==> LaneInv(f.lanes[i], f.client)
  }

  ghost predicate Fresh(f: Facade) {
    forall i, id :: 0 <= i < |f.lanes| && id in f.lanes[i].conns ==> id < f.nextChild
  }

  /** No child is linked to two lanes. */
  ghost predicate Apart(f: Facade) {
    forall i, j, id :: 0 <= i < j < |f.lanes| && id in f.lanes[i].conns ==> id !in f.lanes[j].conns
  }

  /** Linked children, children being retired and accepts in flight are exactly the counted connections. */
  ghost predicate Reserved(f: Facade) {
    f.connCount == Loads(f.lanes) + f.accepting && f.connCount <= f.max
  }

  ghost predicate FacadeInv(f: Facade) {
    LanesOk(f) && Fresh(f) && Apart(f) && Reserved(f)
  }

  lemma InvBounds(f: Facade, i: nat)
    requires FacadeInv(f) && i < |f.lanes|
    ensures Bounded(f.lanes[i], f) && Snapshot(f.lanes[i], f.max) == f.lanes[i].conns
  {
    hide LaneInv;
    LoadsUpdate(f.lanes, i, f.lanes[i]);
  }

  lemma ConnsStep(l: Lane, a: Act, f: Facade, id: ChildId)
    requires LaneInv(l, f.client) && Bounded(l, f) && LaneEnabled(l, a, f)
    ensures id in LaneStep(l, a, f).conns ==> id in l.conns || (a == Accept(Link) && id == f.nextChild)
  {
    if !Relists(a) {
      LaneKeeps(l, a, f);
      hide LaneStep, LaneInv, Bounded;
    } else if a == Accept(Unlink) {
      WithoutElements(l.conns, l.holder.accept.child);
    } else if a.Reap? && a.reap.Pick? {
      WithoutElements(l.conns, a.reap.id);
    }
  }

  lemma StepReserved(f: Facade, i: nat, a: Act)
    requires FacadeInv(f) && Enabled(f, i, a)
    ensures Reserved(Step(f, i, a))
  {
    hide LaneInv, LaneStep;
    LoadsUpdate(f.lanes, i, LaneStep(f.lanes[i], a, f));
    InvBounds(f, i);
    LoadStep(f.lanes[i], a, f);
  }

  lemma StepLists(f: Facade, i: nat, a: Act)
    requires FacadeInv(f) && Enabled(f, i, a)
    ensures Fresh(Step(f, i, a)) && Apart(Step(f, i, a))
  {
    hide LaneInv, LaneStep, Reserved, Bounded;
    InvBounds(f, i);
    NewConns(f, i, a);
  }

  lemma NewConns(f: Facade, i: nat, a: Act)
    requires Enabled(f, i, a) && LaneInv(f.lanes[i], f.client) && Bounded(f.lanes[i], f)
    ensures forall id :: id in LaneStep(f.lanes[i], a, f).conns ==>
              id in f.lanes[i].conns || (a == Accept(Link) && id == f.nextChild)
  {
    hide LaneInv, LaneStep, LaneEnabled, Bounded;
    forall id
      ensures id in LaneStep(f.lanes[i], a, f).conns ==>
                id in f.lanes[i].conns || (a == Accept(Link) && id == f.nextChild)
    {
      ConnsStep(f.lanes[i], a, f, id);
    }
  }

  lemma StepKeeps(f: Facade, i: nat, a: Act)
    requires FacadeInv(f) && Enabled(f, i, a)
    ensures FacadeInv(Step(f, i, a))
    ensures Step(f, i, a).client == f.client && Step(f, i, a).max == f.max && |Step(f, i, a).lanes| == |f.lanes|
  {
    StepReserved(f, i, a);
    StepLists(f, i, a);
    InvBounds(f, i);
    LaneKeeps(f.lanes[i], a, f);
    hide LaneInv, LaneStep, Reserved, Fresh, Apart;
  }

  lemma {:induction false} InitLoads(n: nat)
    ensures Loads(seq(n, _ => IdleLane())) == 0
  {
    if n > 0 {
      InitLoads(n - 1);
      assert seq(n, _ => IdleLane())[1..] == seq(n - 1, _ => IdleLane());
    }
  }

  lemma {:induction false} EveryState(states: seq<Facade>, moves: seq<Move>, lanes: nat, client: bool, max: nat, k: nat)
    requires Run(states, moves, lanes, client, max) && k < |states|
    ensures FacadeInv(states[k]) && |states[k].lanes| == lanes && states[k].client == client && states[k].max == max
  {
    hide Step;
    if k == 0 {
      InitLoads(lanes);
    } else {
      EveryState(states, moves, lanes, client, max, k - 1);
      hide FacadeInv;
      StepKeeps(states[k - 1], moves[k - 1].lane, moves[k - 1].act);
    }
  }

  /** Reserve bound: in every reachable state the linked children of all lanes, the children being retired and the
      accepts in flight are exactly the counted connections, which never exceed the limit; so no sweep is cut short. */
  lemma ReserveBound(states: seq<Facade>, moves: seq<Move>, lanes: nat, client: bool, max: nat, k: nat, i: nat)
    requires Run(states, moves, lanes, client, max) && k < |states| && i < lanes
    ensures |states[k].lanes| == lanes
    ensures states[k].connCount == Loads(states[k].lanes) + states[k].accepting <= max
    ensures Apart(states[k])
    ensures Snapshot(states[k].lanes[i], max) == states[k].lanes[i].conns
  {
    hide Run;
    EveryState(states, moves, lanes, client, max, k);
    InvBounds(states[k], i);
  }

  // ----- what must have happened before -----

  ghost predicate Did(moves: seq<Move>, j: nat, i: nat, a: Act) { j < |moves| && moves[j] == Move(i, a) }

  /** The beginning of a sweep in which the lane's pump runs. */
  predicate Begins(a: Act) { a == Check(BeginSweep) || a == Rest(Tick) }

  ghost predicate Began(moves: seq<Move>, j: nat, i: nat) { j < |moves| && moves[j].lane == i && Begins(moves[j].act) }

  /** The store of one call of lane_wake: the guarded flag inside a callback of the lane, ext_wake from anywhere
      else. */
  predicate Stores(a: Act, t: Token) { a == Wake(StoreExt(t)) || a == Batch(BatchWake(t)) || a == Sweep(PumpWake(t)) }

  ghost predicate Stored(moves: seq<Move>, j: nat, i: nat, t: Token) {
    j < |moves| && moves[j].lane == i && Stores(moves[j].act, t)
  }

  /** A wake call leaves a mark only by storing its flag; the mark is cleared only by the beginning of a sweep. */
  ghost predicate TokenHistory(l: Lane, a: Act, after: Lane, t: Token) {
    t in after.returned + after.ringing ==>
      || (t in l.returned + l.ringing && (t in l.unserved ==> t in after.unserved || Begins(a)))
      || (Stores(a, t) && t in after.unserved)
  }

  /** Each fact about a child has one cause. */
  ghost predicate FactHistory(l: Lane, a: Act, after: Lane, id: ChildId) {
    id in after.facts ==>
      && (after.facts[id].shutdown ==> (id in l.facts && l.facts[id].shutdown) || a == Batch(ShutdownComplete(id)))
      && (after.facts[id].polled ==> (id in l.facts && l.facts[id].polled) || a == Sweep(Poll(id)))
      && (after.facts[id].acked ==>
            || (id in l.facts && l.facts[id].acked)
            || (a == Sweep(Ack(id)) && id in l.facts && l.facts[id].polled))
  }

  /** A child becomes swept only at the end of a sweep whose snapshot holds it. */
  ghost predicate SweepHistory(l: Lane, a: Act, after: Lane, id: ChildId) {
    && (id in after.swept ==>
          && a != Batch(ShutdownComplete(id))
          && (id in l.swept || (a == Sweep(EndSweep) && l.db.Sweeping? && id in l.db.snapshot)))
    && (after.db.Sweeping? ==> Begins(a) || (l.db.Sweeping? && after.db.snapshot == l.db.snapshot))
  }

  ghost predicate History(l: Lane, a: Act, after: Lane, t: Token, id: ChildId) {
    TokenHistory(l, a, after, t) && FactHistory(l, a, after, id) && SweepHistory(l, a, after, id)
  }

  lemma CheckHistory(l: Lane, a: CheckAct, f: Facade, t: Token, id: ChildId)
    requires CheckEnabled(l, a)
    ensures History(l, Check(a), CheckStep(l, a, f), t, id)
  {
  }

  lemma SweepHistoryStep(l: Lane, a: SweepAct, f: Facade, t: Token, id: ChildId)
    requires SweepEnabled(l, a, f)
    ensures History(l, Sweep(a), SweepStep(l, a, f), t, id)
  {
  }

  lemma ReapHistory(l: Lane, a: ReapAct, f: Facade, t: Token, id: ChildId)
    requires ReapEnabled(l, a, f)
    ensures History(l, Reap(a), ReapStep(l, a, f), t, id)
  {
  }

  lemma RestHistory(l: Lane, a: RestAct, f: Facade, t: Token, id: ChildId)
    requires RestEnabled(l, a)
    ensures History(l, Rest(a), RestStep(l, a, f), t, id)
  {
  }

  lemma WakeHistory(l: Lane, a: WakerAct, f: Facade, t: Token, id: ChildId)
    requires WakerEnabled(l, a)
    ensures History(l, Wake(a), WakerStep(l, a), t, id)
  {
  }

  lemma BatchHistory(l: Lane, a: BatchAct, f: Facade, t: Token, id: ChildId)
    requires BatchEnabled(l, a)
    ensures History(l, Batch(a), BatchStep(l, a), t, id)
  {
  }

  lemma AcceptHistory(l: Lane, a: AcceptAct, f: Facade, t: Token, id: ChildId)
    requires AcceptEnabled(l, a, f)
    ensures History(l, Accept(a), AcceptStep(l, a, f), t, id)
  {
  }

  lemma LaneHistory(l: Lane, a: Act, f: Facade, t: Token, id: ChildId)
    requires LaneEnabled(l, a, f)
    ensures History(l, a, LaneStep(l, a, f), t, id)
  {
    if !a.Stop? {
      hide History;
    }
    match a
    case Check(c) => CheckHistory(l, c, f, t, id);
    case Sweep(c) => SweepHistoryStep(l, c, f, t, id);
    case Reap(c) => ReapHistory(l, c, f, t, id);
    case Rest(c) => RestHistory(l, c, f, t, id);
    case Wake(c) => WakeHistory(l, c, f, t, id);
    case Batch(c) => BatchHistory(l, c, f, t, id);
    case Accept(c) => AcceptHistory(l, c, f, t, id);
    case Stop(c) =>
  }

  // ----- runs -----

  /** A step moves one lane, with a cause for what it changed there, and leaves every other lane as it was. */
  lemma Stepped(states: seq<Facade>, moves: seq<Move>, lanes: nat, client: bool, max: nat, k: nat, i: nat, t: Token,
                id: ChildId)
    requires Run(states, moves, lanes, client, max) && k < |moves| && i < lanes
    ensures |states[k].lanes| == |states[k + 1].lanes| == lanes
    ensures LaneInv(states[k].lanes[i], client)
    ensures moves[k].lane == i ==>
              && LaneEnabled(states[k].lanes[i], moves[k].act, states[k])
              && History(states[k].lanes[i], moves[k].act, states[k + 1].lanes[i], t, id)
    ensures moves[k].lane != i ==> states[k + 1].lanes[i] == states[k].lanes[i]
  {
    EveryState(states, moves, lanes, client, max, k);
    hide LaneInv, LaneStep, LaneEnabled, History, Reserved, Fresh, Apart;
    if moves[k].lane == i {
      LaneHistory(states[k].lanes[i], moves[k].act, states[k], t, id);
    }
  }

  lemma StartsIdle(states: seq<Facade>, moves: seq<Move>, lanes: nat, client: bool, max: nat, i: nat)
    requires Run(states, moves, lanes, client, max) && i < lanes
    ensures |states| == |moves| + 1 && |states[0].lanes| == lanes && states[0].lanes[i] == IdleLane()
  {
  }

  lemma {:induction false} WakeTrace(states: seq<Facade>, moves: seq<Move>, lanes: nat, client: bool, max: nat,
                                     k: nat, i: nat, t: Token)
    returns (s: nat, b: nat)
    requires Run(states, moves, lanes, client, max) && k < |states| && i < lanes
    requires |states[k].lanes| == lanes && t in states[k].lanes[i].returned + states[k].lanes[i].ringing
    ensures s < k && Stored(moves, s, i, t)
    ensures t !in states[k].lanes[i].unserved ==> s < b < k && Began(moves, b, i)
  {
    hide Run, LaneInv, LaneEnabled, FactHistory, SweepHistory;
    StartsIdle(states, moves, lanes, client, max, i);
    if k > 0 {
      Stepped(states, moves, lanes, client, max, k - 1, i, t, 0);
      var l := states[k - 1].lanes[i];
      if t in l.returned + l.ringing {
        s, b := WakeTrace(states, moves, lanes, client, max, k - 1, i, t);
        if t in l.unserved {
          b := k - 1;
        }
      } else {
        s, b := k - 1, 0;
      }
    }
  }

  /** No lost wake: every returned call of lane_wake stored its flag, and a pump sweep has begun since; or the flag
      still stands, or is being consumed by a sweep about to begin, and the doorbell is not asleep on an unchanged
      bell -- unless the callback holding the lane has still to ring it. */
  lemma NoLostWakes(states: seq<Facade>, moves: seq<Move>, lanes: nat, client: bool, max: nat, k: nat, i: nat, t: Token)
    requires Run(states, moves, lanes, client, max) && k < |states| && i < lanes
    requires |states[k].lanes| == lanes && t in states[k].lanes[i].returned
    ensures exists s: nat ::
              && s < k && Stored(moves, s, i, t)
              && ((exists b: nat :: s < b < k && Began(moves, b, i)) || Armed(states[k].lanes[i]))
  {
    var s, b := WakeTrace(states, moves, lanes, client, max, k, i, t);
    EveryState(states, moves, lanes, client, max, k);
    hide Run;
    WakesNotLost(states[k].lanes[i]);
  }

  /** Work is flagged, or just taken up by the doorbell, and nothing lets the doorbell sleep through it. */
  predicate Armed(l: Lane) {
    (l.wake || l.ext || l.db.Consuming? || l.db.Consumed?) && (Dozing(l) ==> WillRing(l.holder))
  }

  // ----- reap order -----

  lemma {:induction false} ShutDownAt(states: seq<Facade>, moves: seq<Move>, lanes: nat, client: bool, max: nat,
                                      k: nat, i: nat, id: ChildId)
    returns (m: nat)
    requires Run(states, moves, lanes, client, max) && k < |states| && i < lanes && |states[k].lanes| == lanes
    requires id in states[k].lanes[i].facts && states[k].lanes[i].facts[id].shutdown
    ensures m < k && Did(moves, m, i, Batch(ShutdownComplete(id)))
  {
    hide Run, LaneInv, LaneEnabled, TokenHistory, SweepHistory;
    StartsIdle(states, moves, lanes, client, max, i);
    if k > 0 {
      Stepped(states, moves, lanes, client, max, k - 1, i, 0, id);
      var l := states[k - 1].lanes[i];
      if id in l.facts && l.facts[id].shutdown {
        m := ShutDownAt(states, moves, lanes, client, max, k - 1, i, id);
      } else {
        m := k - 1;
      }
    }
  }

  lemma {:induction false} AckedAt(states: seq<Facade>, moves: seq<Move>, lanes: nat, client: bool, max: nat,
                                   k: nat, i: nat, id: ChildId)
    returns (p: nat, q: nat)
    requires Run(states, moves, lanes, client, max) && k < |states| && i < lanes && |states[k].lanes| == lanes
    requires id in states[k].lanes[i].facts && states[k].lanes[i].facts[id].polled
    ensures p < k && Did(moves, p, i, Sweep(Poll(id)))
    ensures states[k].lanes[i].facts[id].acked ==> p < q < k && Did(moves, q, i, Sweep(Ack(id)))
  {
    hide Run, LaneEnabled, TokenHistory, SweepHistory;
    StartsIdle(states, moves, lanes, client, max, i);
    if k > 0 {
      Stepped(states, moves, lanes, client, max, k - 1, i, 0, id);
      var l := states[k - 1].lanes[i];
      if id in l.facts && l.facts[id].polled {
        p, q := AckedAt(states, moves, lanes, client, max, k - 1, i, id);
        if !l.facts[id].acked {
          q := k - 1;
        }
      } else {
        assert id in l.facts ==> FactOk(l.facts[id]);
        p, q := k - 1, 0;
      }
    }
  }

  /** The lane sweeps without a break from move b to state k, so it is still the sweep that move b began. */
  ghost predicate Sweeps(states: seq<Facade>, b: nat, k: nat, i: nat) {
    k < |states| && forall x :: b < x <= k ==> i < |states[x].lanes| && states[x].lanes[i].db.Sweeping?
  }

  /** A sweep that is running over a finished child began after the child finished. */
  lemma {:induction false} SweepBegan(states: seq<Facade>, moves: seq<Move>, lanes: nat, client: bool, max: nat,
                                      k: nat, i: nat, id: ChildId)
    returns (m: nat, b: nat)
    requires Run(states, moves, lanes, client, max) && k < |states| && i < lanes && |states[k].lanes| == lanes
    requires id in states[k].lanes[i].facts && states[k].lanes[i].facts[id].shutdown
    requires states[k].lanes[i].db.Sweeping? && id in states[k].lanes[i].db.snapshot
    ensures m < b < k && Did(moves, m, i, Batch(ShutdownComplete(id))) && Began(moves, b, i) && Shown(states, b, i, id)
    ensures Sweeps(states, b, k, i)
  {
    hide Run, TokenHistory;
    StartsIdle(states, moves, lanes, client, max, i);
    if k > 0 {
      Stepped(states, moves, lanes, client, max, k - 1, i, 0, id);
      if moves[k - 1].lane == i && Begins(moves[k - 1].act) {
        m := ShutDownAt(states, moves, lanes, client, max, k - 1, i, id);
        b := k - 1;
      } else {
        m, b := SweepBegan(states, moves, lanes, client, max, k - 1, i, id);
      }
    }
  }

  lemma SweptBefore(l: Lane, a: Act, after: Lane, id: ChildId)
    requires History(l, a, after, 0, id) && id in after.facts && after.facts[id].shutdown && id in after.swept
    ensures id in l.facts && l.facts[id].shutdown
    ensures id in l.swept || (a == Sweep(EndSweep) && l.db.Sweeping? && id in l.db.snapshot)
  {
  }

  lemma {:induction false} SweptAt(states: seq<Facade>, moves: seq<Move>, lanes: nat, client: bool, max: nat,
                                   k: nat, i: nat, id: ChildId)
    returns (m: nat, b: nat, j: nat)
    requires Run(states, moves, lanes, client, max) && k < |states| && i < lanes && |states[k].lanes| == lanes
    requires id in states[k].lanes[i].facts && states[k].lanes[i].facts[id].shutdown && id in states[k].lanes[i].swept
    ensures m < b < j < k && Did(moves, m, i, Batch(ShutdownComplete(id))) && Began(moves, b, i)
    ensures Did(moves, j, i, Sweep(EndSweep)) && Shown(states, b, i, id) && Sweeps(states, b, j, i)
  {
    hide Run, LaneInv, LaneEnabled, History, Shown;
    StartsIdle(states, moves, lanes, client, max, i);
    if k > 0 {
      Stepped(states, moves, lanes, client, max, k - 1, i, 0, id);
      var l, a, after := states[k - 1].lanes[i], moves[k - 1].act, states[k].lanes[i];
      if moves[k - 1].lane == i {
        SweptBefore(l, a, after, id);
      }
      if id in l.swept {
        m, b, j := SweptAt(states, moves, lanes, client, max, k - 1, i, id);
      } else {
        m, b := SweepBegan(states, moves, lanes, client, max, k - 1, i, id);
        j := k - 1;
      }
    }
  }

  /** The sweep begun by move b of the lane has the child in its snapshot. */
  predicate Shown(states: seq<Facade>, b: nat, i: nat, id: ChildId) {
    && b + 1 < |states| && i < |states[b + 1].lanes|
    && states[b + 1].lanes[i].db.Sweeping? && id in states[b + 1].lanes[i].db.snapshot
  }

  /** Reap order: before a child is reclaimed, its SHUTDOWN_COMPLETE batch ran, then a pump sweep whose snapshot holds
      the child began, then that sweep ended; and the terminal of a server child was polled and then acknowledged. */
  lemma ReapOrder(states: seq<Facade>, moves: seq<Move>, lanes: nat, client: bool, max: nat, k: nat,
                  i: nat, id: ChildId)
    requires Run(states, moves, lanes, client, max) && Did(moves, k, i, Reap(Pick(id)))
    ensures exists m: nat, b: nat, j: nat ::
              && m < b < j < k && Did(moves, m, i, Batch(ShutdownComplete(id)))
              && Began(moves, b, i) && Shown(states, b, i, id)
              && Sweeps(states, b, j, i) && Did(moves, j, i, Sweep(EndSweep))
    ensures !client ==>
              exists p: nat, q: nat ::
                p < q < k && Did(moves, p, i, Sweep(Poll(id))) && Did(moves, q, i, Sweep(Ack(id)))
  {
    EveryState(states, moves, lanes, client, max, k);
    assert Enabled(states[k], moves[k].lane, moves[k].act);
    hide Run;
    var l := states[k].lanes[i];
    assert LaneInv(l, client) && FactOk(l.facts[id]);
    var m, b, j := SweptAt(states, moves, lanes, client, max, k, i, id);
    if !client {
      var p, q := AckedAt(states, moves, lanes, client, max, k, i, id);
    }
  }
}

/**
 Safety of the lane protocol in every interleaving: no wake is lost, no child
 is reclaimed before a pump has seen it finished, and the connection reserve
 is never overdrawn.
 */
module LaneSafety {
  import opened LaneProtocol

  // ----- wakes -----

  predicate HoldsMutex(db: Doorbell) {
    !db.Locking? && !db.Retiring? && !db.Relocking? && !db.Waiting? && !db.Asleep? && !db.Quiesced?
  }

  predicate HasSeen(db: Doorbell) { !db.Locking? && !db.Top? && !db.Quiesced? }

  /** The doorbell found no work in this iteration and will not look again before it sleeps. */
  predicate PastCheck(db: Doorbell) {
    match db
    case Reaping(_, pumped) => !pumped
    case Retiring(_, pumped) => !pumped
    case Relocking(_, pumped) => !pumped
    case Rechecking(_, pumped) => !pumped
    case Scanning(_) | Timing(_) | Waiting(_) | Asleep(_) => true
    case _ => false
  }

  /** The holder of the mutex has armed, or may arm, the lane and will ring before it leaves. */
  predicate WillRing(h: Holder) {
    (h.ByBatch? && !h.batch.BatchRung?) || h == ByAccept(AcceptArmed)
  }

  predicate HasRung(h: Holder) {
    h == ByBatch(BatchRung) || h == ByAccept(AcceptRung)
  }

  ghost predicate WakeInv(l: Lane) {
    && (HoldsMutex(l.db) <==> l.holder.ByDoorbell?)
    && (HasSeen(l.db) ==> l.db.seen <= l.gen)
    && (l.unserved != {} ==> l.wake || l.ext || l.db.Consuming? || l.db.Consumed?)
    && (PastCheck(l.db) && l.gen == l.db.seen ==>
          && (l.wake || l.pump ==> WillRing(l.holder))
          && (l.unserved <= l.ringing || WillRing(l.holder)))
    && (PastCheck(l.db) && HasRung(l.holder) ==> l.gen > l.db.seen)
    && l.ringing !! l.returned
  }

  /** The doorbell is asleep, or about to be, on a generation that has not moved. */
  predicate Dozing(l: Lane) {
    (l.db.Waiting? || l.db.Asleep?) && l.gen == l.db.seen
  }

  /** Every wake that has returned was followed by the start of a pump sweep, or its flag still stands (or is being
      consumed by a sweep about to start) and the doorbell is not dozing -- unless the callback that issued it still
      holds the lane and will ring before it leaves. */
  ghost predicate NoLostWake(l: Lane) {
    forall t :: t in l.returned && t in l.unserved ==>
      && (l.wake || l.ext || l.db.Consuming? || l.db.Consumed?)
      && (Dozing(l) ==> WillRing(l.holder))
  }

  lemma WakesNotLost(l: Lane)
    requires WakeInv(l)
    ensures NoLostWake(l)
    ensures Dozing(l) && l.holder.Free? ==> !l.wake && !l.pump && l.returned !! l.unserved
  {
  }

  // ----- reaping -----

  ghost predicate Distinct(s: seq<ChildId>) {
    forall i, j :: 0 <= i < j < |s| ==> s[i] != s[j]
  }

  ghost predicate FactOk(c: Child) { (c.reapable ==> c.shutdown) && (c.acked ==> c.polled) }

  /** Every finished child of the lane has been seen by a sweep since it finished. */
  ghost predicate AllSwept(l: Lane) {
    forall id :: id in l.conns && id in l.facts && l.facts[id].shutdown ==> id in l.swept
  }

  /** A sweep over all of the lane is running or about to begin, or a batch has yet to arm one. */
  predicate SweepOwed(l: Lane) {
    l.pump || l.holder == ByBatch(InBatch) || l.db.Consuming? || l.db.Consumed? || l.db.Sweeping?
  }

  ghost predicate ReapedWell(r: Reaped, client: bool) {
    r.swept && r.facts.shutdown && (client || (r.facts.acked && r.facts.polled))
  }

  ghost predicate Listed(l: Lane) {
    && Distinct(l.conns)
    && (forall id :: id in l.conns <==> id in l.facts)
    && (l.holder.ByAccept? && l.holder.accept.Linked? ==> l.holder.accept.child in l.conns)
  }

  ghost predicate FactsOk(facts: map<ChildId, Child>) {
    forall id :: id in facts ==> FactOk(facts[id])
  }

  ghost predicate SweepInv(l: Lane) {
    && (HoldsMutex(l.db) <==> l.holder.ByDoorbell?)
    && (AllSwept(l) || SweepOwed(l))
    && (l.db.Sweeping? ==> l.db.snapshot == l.conns)
    && (l.db.Swept? || l.db.Reaping? ==> AllSwept(l))
  }

  ghost predicate LogOk(reaped: seq<Reaped>, client: bool) {
    forall k :: 0 <= k < |reaped| ==> ReapedWell(reaped[k], client)
  }

  ghost predicate ReapInv(l: Lane, client: bool) {
    Listed(l) && FactsOk(l.facts) && SweepInv(l) && LogOk(l.reaped, client)
  }

  lemma {:induction false} WithoutElements(s: seq<ChildId>, id: ChildId)
    requires Distinct(s)
    ensures Distinct(Without(s, id))
    ensures forall x :: x in Without(s, id) <==> x in s && x != id
    ensures |Without(s, id)| == |s| - if id in s then 1 else 0
  {
    if s != [] {
      WithoutElements(s[1..], id);
      assert forall x :: x in s <==> x == s[0] || x in s[1..];
      if s[0] != id {
        var w := Without(s[1..], id);
        assert s[0] !in w;
        assert forall x :: x in [s[0]] + w <==> x == s[0] || x in w;
      }
    }
  }

  lemma DistinctAppend(s: seq<ChildId>, id: ChildId)
    requires Distinct(s) && id !in s
    ensures Distinct(s + [id])
  {
  }

  // ----- every action keeps both invariants -----

  /** What an action needs to know of the whole facade. */
  ghost predicate Bounded(l: Lane, f: Facade) {
    |l.conns| <= f.max && forall id :: id in l.conns ==> id < f.nextChild
  }

  ghost predicate LaneInv(l: Lane, client: bool) {
    WakeInv(l) && ReapInv(l, client)
  }

  /** The lane keeps its list, and its doorbell starts or finishes retiring nobody. */
  predicate SameList(l: Lane, after: Lane) {
    after.conns == l.conns && (after.db.Retiring? <==> l.db.Retiring?)
  }

  /** Learning more about a linked child, short of its shutdown, disturbs nothing. */
  lemma SetFactKeeps(l: Lane, id: ChildId, c: Child, client: bool)
    requires LaneInv(l, client) && id in l.facts && FactOk(c) && c.shutdown == l.facts[id].shutdown
    ensures LaneInv(SetFact(l, id, c), client) && SameList(l, SetFact(l, id, c))
  {
    hide Distinct, LogOk;
  }

  lemma CheckKeeps(l: Lane, a: CheckAct, f: Facade)
    requires LaneInv(l, f.client) && Bounded(l, f) && CheckEnabled(l, a)
    ensures LaneInv(CheckStep(l, a, f), f.client) && SameList(l, CheckStep(l, a, f))
  {
    hide Distinct, FactsOk, LogOk;
  }

  lemma SweepsAll(l: Lane, f: Facade)
    requires SweepEnabled(l, EndSweep, f) && l.db.snapshot == l.conns
    ensures AllSwept(SweepStep(l, EndSweep, f))
  {
  }

  /** A whole sweep has seen every finished child of the lane. */
  lemma EndSweepKeeps(l: Lane, f: Facade)
    requires LaneInv(l, f.client) && SweepEnabled(l, EndSweep, f)
    ensures LaneInv(SweepStep(l, EndSweep, f), f.client) && SameList(l, SweepStep(l, EndSweep, f))
  {
    hide Distinct, LogOk, FactsOk, AllSwept;
    SweepsAll(l, f);
  }

  lemma SweepKeeps(l: Lane, a: SweepAct, f: Facade)
    requires LaneInv(l, f.client) && SweepEnabled(l, a, f)
    ensures LaneInv(SweepStep(l, a, f), f.client) && SameList(l, SweepStep(l, a, f))
  {
    hide Distinct, LogOk;
    if a.Poll? || a.Ack? || a.SweepLatch? {
      assert FactOk(l.facts[a.id]);
      SetFactKeeps(l, a.id, SweepStep(l, a, f).facts[a.id], f.client);
      hide LaneInv;
    } else if a.EndSweep? {
      EndSweepKeeps(l, f);
      hide LaneInv;
    } else {
      hide FactsOk;
    }
  }

  /** Only a child that a sweep has seen finished is ever picked, with the terminal of a server child acknowledged. */
  lemma PickKeeps(l: Lane, id: ChildId, f: Facade)
    requires LaneInv(l, f.client) && ReapEnabled(l, Pick(id), f)
    ensures LaneInv(ReapStep(l, Pick(id), f), f.client)
  {
    hide Distinct;
    WithoutElements(l.conns, id);
    assert FactOk(l.facts[id]);
    var after := ReapStep(l, Pick(id), f);
    assert Listed(after) && FactsOk(after.facts) && SweepInv(after);
  }

  lemma ReapKeeps(l: Lane, a: ReapAct, f: Facade)
    requires LaneInv(l, f.client) && ReapEnabled(l, a, f)
    ensures LaneInv(ReapStep(l, a, f), f.client)
    ensures a.Pick? || a.ReleaseReserve? || SameList(l, ReapStep(l, a, f))
  {
    hide Distinct, FactsOk, LogOk;
    if a.Pick? {
      PickKeeps(l, a.id, f);
    }
  }

  lemma RestKeeps(l: Lane, a: RestAct, f: Facade)
    requires LaneInv(l, f.client) && Bounded(l, f) && RestEnabled(l, a)
    ensures LaneInv(RestStep(l, a, f), f.client) && SameList(l, RestStep(l, a, f))
  {
    hide Distinct, FactsOk, LogOk;
  }

  lemma WakerKeeps(l: Lane, a: WakerAct, client: bool)
    requires LaneInv(l, client) && WakerEnabled(l, a)
    ensures LaneInv(WakerStep(l, a), client) && SameList(l, WakerStep(l, a))
  {
    hide Distinct, FactsOk, LogOk;
  }

  lemma BatchKeeps(l: Lane, a: BatchAct, client: bool)
    requires LaneInv(l, client) && BatchEnabled(l, a)
    ensures LaneInv(BatchStep(l, a), client) && SameList(l, BatchStep(l, a))
  {
    hide Distinct, LogOk;
    if a.BatchLatch? {
      SetFactKeeps(l, a.id, l.facts[a.id].(reapable := true), client);
    }
  }

  /** A child is linked under an id no lane has seen, with nothing known of it. */
  lemma LinkKeeps(l: Lane, f: Facade)
    requires LaneInv(l, f.client) && Bounded(l, f) && AcceptEnabled(l, Link, f)
    ensures LaneInv(AcceptStep(l, Link, f), f.client)
  {
    hide Distinct, LogOk;
    DistinctAppend(l.conns, f.nextChild);
    var after := AcceptStep(l, Link, f);
    assert forall x :: x in after.conns <==> x in l.conns || x == f.nextChild;
  }

  lemma AcceptKeeps(l: Lane, a: AcceptAct, f: Facade)
    requires LaneInv(l, f.client) && Bounded(l, f) && AcceptEnabled(l, a, f)
    ensures LaneInv(AcceptStep(l, a, f), f.client)
    ensures a.Link? || a.Unlink? || SameList(l, AcceptStep(l, a, f))
  {
    hide Distinct, LogOk, Bounded;
    if a.Unlink? {
      WithoutElements(l.conns, l.holder.accept.child);
    } else if a.Link? {
      LinkKeeps(l, f);
    }
  }

  lemma StopKeeps(l: Lane, a: StopAct, f: Facade)
    requires LaneInv(l, f.client) && StopEnabled(l, a, f)
    ensures LaneInv(StopStep(l, a), f.client) && SameList(l, StopStep(l, a))
  {
    hide Distinct, FactsOk, LogOk;
  }

  /** The actions that move a child on or off a lane's list, or settle its reservation. */
  predicate Relists(a: Act) {
    match a
    case Reap(c) => c.Pick? || c.ReleaseReserve?
    case Accept(c) => c.Link? || c.Unlink?
    case _ => false
  }

  lemma LaneKeeps(l: Lane, a: Act, f: Facade)
    requires LaneInv(l, f.client) && Bounded(l, f) && LaneEnabled(l, a, f)
    ensures LaneInv(LaneStep(l, a, f), f.client)
    ensures Relists(a) || SameList(l, LaneStep(l, a, f))
  {
    hide LaneInv, Bounded, SameList;
    hide CheckStep, SweepStep, ReapStep, RestStep, WakerStep, BatchStep, AcceptStep, StopStep;
    match a
    case Check(c) => CheckKeeps(l, c, f);
    case Sweep(c) => SweepKeeps(l, c, f);
    case Reap(c) => ReapKeeps(l, c, f);
    case Rest(c) => RestKeeps(l, c, f);
    case Wake(c) => WakerKeeps(l, c, f.client);
    case Batch(c) => BatchKeeps(l, c, f.client);
    case Accept(c) => AcceptKeeps(l, c, f);
    case Stop(c) => StopKeeps(l, c, f);
  }
}

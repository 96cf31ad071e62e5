/**
 The managed facade as a concurrent protocol: lanes, each with a mutex, a
 doorbell thread and a bell; transport workers that bracket every event batch
 with the lane mutex; wakers on any thread; listener accepts; reaping; stop.
 One action is one lock-protected region or one atomic load or store; every
 interleaving is a sequence of actions.
 */
module LaneProtocol {

  type ChildId = nat
  type Token = nat    // one call of lane_wake

  datatype Child = Child(shutdown: bool, reapable: bool, polled: bool, acked: bool)

  datatype BatchPhase = InBatch | BatchArmed | BatchRung
  datatype AcceptPhase = Linked(child: ChildId) | AcceptArmed | AcceptRung

  /** Who holds the lane mutex. */
  datatype Holder = Free | ByDoorbell | ByBatch(batch: BatchPhase) | ByAccept(accept: AcceptPhase)

  /** Where the doorbell thread is; `seen` is the bell generation it read at the top of the iteration. */
  datatype Doorbell =
    | Locking                                              // wants the mutex
    | Top                                                  // about to read the bell
    | Deciding(seen: nat)                                  // about to test for stop
    | Checking(seen: nat)                                  // about to test for work
    | Consuming(seen: nat)                                 // guarded flags cleared, ext_wake not yet
    | Consumed(seen: nat)                                  // every flag cleared, sweep about to begin
    | Sweeping(seen: nat, snapshot: seq<ChildId>, tick: bool)
    | Swept(seen: nat)                                     // about to test for stop before reaping
    | Reaping(seen: nat, pumped: bool)                     // about to pick a victim
    | Retiring(seen: nat, pumped: bool)                    // mutex released; child being closed
    | Relocking(seen: nat, pumped: bool)                   // reserve released; wants the mutex
    | Rechecking(seen: nat, pumped: bool)                  // about to test for work again
    | Scanning(seen: nat)                                  // about to test for stop, then deadlines
    | Timing(seen: nat)                                    // deadlines read
    | Waiting(seen: nat)                                   // mutex released, about to look at the bell
    | Asleep(seen: nat)
    | Quiesced                                             // left the loop for stop

  datatype Lane = Lane(
    holder: Holder,
    db: Doorbell,
    wake: bool,
    pump: bool,
    ext: bool,
    gen: nat,
    stop: bool,
    conns: seq<ChildId>,
    facts: map<ChildId, Child>,
    // history
    unserved: set<Token>,     // flag stored, no pump sweep begun since
    ringing: set<Token>,      // flag stored, bell not rung yet
    returned: set<Token>,     // lane_wake has returned
    swept: set<ChildId>,      // a sweep that saw the child has run since its SHUTDOWN_COMPLETE batch
    reaped: seq<Reaped>)

  /** What was known of a child when it was reclaimed. */
  datatype Reaped = Reaped(id: ChildId, facts: Child, swept: bool)

  datatype Facade = Facade(
    lanes: seq<Lane>,
    client: bool,
    max: nat,
    connCount: nat,
    accepting: nat,     // reservations of accepts that have not linked their child
    stop: bool,
    draining: bool,
    nextChild: ChildId)

  datatype CheckAct = Acquire | ReadBell | TestStop | TestWork | ClearExt | BeginSweep
  datatype SweepAct =
    | Poll(id: ChildId) | Ack(id: ChildId) | PumpWake(token: Token) | SweepLatch(id: ChildId) | Rearm | EndSweep
  datatype ReapAct = TestStopAfterSweep | Pick(id: ChildId) | PickNone | ReleaseReserve | Relock | TestWorkAgain
  datatype RestAct = TestStopBeforeScan | Tick | GoIdle | LookAtBell | BellWakes | TimeOut
  datatype WakerAct = StoreExt(token: Token) | RingExt(token: Token)
  datatype BatchAct =
    | Enter | ShutdownComplete(id: ChildId) | BatchLatch(id: ChildId) | BatchWake(token: Token)
    | ArmPump | RingBatch | Leave
  datatype AcceptAct = Reserve | GiveBack | Link | Unlink | ArmWake | RingAccept | AcceptLeave
  datatype StopAct = StopFacade | Drain | StopLane

  /** The first four kinds are the doorbell thread's; the rest are every other thread's. */
  datatype Act =
    | Check(check: CheckAct) | Sweep(sweep: SweepAct) | Reap(reap: ReapAct) | Rest(rest: RestAct)
    | Wake(waker: WakerAct) | Batch(batch: BatchAct) | Accept(accept: AcceptAct) | Stop(stop: StopAct)

  predicate WorkPending(l: Lane) { l.wake || l.pump || l.ext }

  predicate Reclaimable(l: Lane, client: bool, id: ChildId) {
    id in l.conns && id in l.facts && l.facts[id].reapable && l.facts[id].shutdown && (client || l.facts[id].acked)
  }

  function Without(s: seq<ChildId>, id: ChildId): seq<ChildId> {
    if s == [] then [] else if s[0] == id then s[1..] else [s[0]] + Without(s[1..], id)
  }

  function Snapshot(l: Lane, max: nat): seq<ChildId> {
    if |l.conns| <= max then l.conns else l.conns[..max]
  }

  // ----- the doorbell takes the mutex, reads the bell and looks for work -----

  predicate CheckEnabled(l: Lane, a: CheckAct) {
    match a
    case Acquire => l.db.Locking? && l.holder.Free?
    case ReadBell => l.db.Top?
    case TestStop => l.db.Deciding?
    case TestWork => l.db.Checking?
    case ClearExt => l.db.Consuming?
    case BeginSweep => l.db.Consumed?
  }

  function CheckStep(l: Lane, a: CheckAct, f: Facade): Lane
    requires CheckEnabled(l, a)
  {
    match a
    case Acquire => l.(db := Top, holder := ByDoorbell)
    case ReadBell => l.(db := Deciding(l.gen))
    case TestStop =>
      if l.stop || f.stop then l.(db := Quiesced, holder := Free) else l.(db := Checking(l.db.seen))
    case TestWork =>
      if WorkPending(l) then l.(db := Consuming(l.db.seen), wake := false, pump := false)
      else l.(db := Reaping(l.db.seen, false))
    case ClearExt => l.(db := Consumed(l.db.seen), ext := false)
    case BeginSweep => l.(db := Sweeping(l.db.seen, Snapshot(l, f.max), false), unserved := {})
  }

  // ----- a pump sweep, with the application running inside it -----

  predicate SweepEnabled(l: Lane, a: SweepAct, f: Facade) {
    && l.db.Sweeping?
    && match a
       case Poll(id) => id in l.db.snapshot && id in l.facts
       case Ack(id) => id in l.db.snapshot && id in l.facts && !f.client && l.facts[id].polled
       case PumpWake(t) => t !in l.returned && t !in l.ringing
       case SweepLatch(id) => id in l.db.snapshot && id in l.facts && l.facts[id].shutdown
       case Rearm => true
       case EndSweep => true
  }

  function SetFact(l: Lane, id: ChildId, c: Child): Lane { l.(facts := l.facts[id := c]) }

  function SweepStep(l: Lane, a: SweepAct, f: Facade): Lane
    requires SweepEnabled(l, a, f)
  {
    match a
    case Poll(id) => SetFact(l, id, l.facts[id].(polled := true))
    case Ack(id) => SetFact(l, id, l.facts[id].(acked := true))
    case PumpWake(t) => l.(wake := true, unserved := l.unserved + {t}, returned := l.returned + {t})
    case SweepLatch(id) => SetFact(l, id, l.facts[id].(reapable := true))
    case Rearm => l.(pump := true)
    case EndSweep =>
      var done := l.(swept := l.swept + set id | id in l.db.snapshot);
      if l.db.tick then done.(db := Locking, holder := Free) else done.(db := Swept(l.db.seen))
  }

  // ----- the reap loop, which drops the mutex to close each victim -----

  predicate ReapEnabled(l: Lane, a: ReapAct, f: Facade) {
    match a
    case TestStopAfterSweep => l.db.Swept?
    case Pick(id) => l.db.Reaping? && Reclaimable(l, f.client, id)
    case PickNone => l.db.Reaping? && forall id :: id in l.conns ==> !Reclaimable(l, f.client, id)
    case ReleaseReserve => l.db.Retiring?
    case Relock => l.db.Relocking? && l.holder.Free?
    case TestWorkAgain => l.db.Rechecking?
  }

  function ReapStep(l: Lane, a: ReapAct, f: Facade): Lane
    requires ReapEnabled(l, a, f)
  {
    match a
    case TestStopAfterSweep => l.(db := if f.stop then Top else Reaping(l.db.seen, true))
    case Pick(id) =>
      l.(db := Retiring(l.db.seen, l.db.pumped), holder := Free, conns := Without(l.conns, id),
      facts := l.facts - {id}, swept := l.swept - {id},
      reaped := l.reaped + [Reaped(id, l.facts[id], id in l.swept)])
    case PickNone => l.(db := if l.db.pumped then Top else Scanning(l.db.seen))
    case ReleaseReserve => l.(db := Relocking(l.db.seen, l.db.pumped))
    case Relock => l.(db := Rechecking(l.db.seen, l.db.pumped), holder := ByDoorbell)
    case TestWorkAgain =>
      if !WorkPending(l) then l.(db := Reaping(l.db.seen, l.db.pumped))
      else l.(db := if l.db.pumped then Top else Scanning(l.db.seen))
  }

  // ----- deadlines and the wait on the bell -----

  predicate RestEnabled(l: Lane, a: RestAct) {
    match a
    case TestStopBeforeScan => l.db.Scanning?
    case Tick => l.db.Timing?
    case GoIdle => l.db.Timing?
    case LookAtBell => l.db.Waiting?
    case BellWakes => l.db.Asleep? && l.gen != l.db.seen
    case TimeOut => l.db.Asleep?
  }

  function RestStep(l: Lane, a: RestAct, f: Facade): Lane
    requires RestEnabled(l, a)
  {
    match a
    case TestStopBeforeScan =>
      if l.stop || f.stop then l.(db := Quiesced, holder := Free) else l.(db := Timing(l.db.seen))
    case Tick => l.(db := Sweeping(l.db.seen, Snapshot(l, f.max), true), unserved := {})
    case GoIdle => l.(db := Waiting(l.db.seen), holder := Free)
    case LookAtBell => l.(db := if l.gen == l.db.seen then Asleep(l.db.seen) else Locking)
    case BellWakes => l.(db := Locking)
    case TimeOut => l.(db := Locking)
  }

  // ----- wakers outside the lane's own callbacks -----

  predicate WakerEnabled(l: Lane, a: WakerAct) {
    match a
    case StoreExt(t) => t !in l.returned && t !in l.ringing
    case RingExt(t) => t in l.ringing
  }

  function WakerStep(l: Lane, a: WakerAct): Lane {
    match a
    case StoreExt(t) => l.(ext := true, unserved := l.unserved + {t}, ringing := l.ringing + {t})
    case RingExt(t) => l.(gen := l.gen + 1, ringing := l.ringing - {t}, returned := l.returned + {t})
  }

  // ----- transport event batches -----

  predicate BatchEnabled(l: Lane, a: BatchAct) {
    match a
    case Enter => l.holder.Free?
    case ShutdownComplete(id) => l.holder == ByBatch(InBatch) && id in l.conns && id in l.facts && !l.facts[id].shutdown
    case BatchLatch(id) => l.holder == ByBatch(InBatch) && id in l.facts && l.facts[id].shutdown
    case BatchWake(t) => l.holder.ByBatch? && !l.holder.batch.BatchArmed? && t !in l.returned && t !in l.ringing
    case ArmPump => l.holder == ByBatch(InBatch)
    case RingBatch => l.holder == ByBatch(BatchArmed)
    case Leave => l.holder == ByBatch(BatchRung)
  }

  function BatchStep(l: Lane, a: BatchAct): Lane
    requires BatchEnabled(l, a)
  {
    match a
    case Enter => l.(holder := ByBatch(InBatch))
    case ShutdownComplete(id) => SetFact(l, id, l.facts[id].(shutdown := true)).(swept := l.swept - {id})
    case BatchLatch(id) => SetFact(l, id, l.facts[id].(reapable := true))
    case BatchWake(t) => l.(wake := true, unserved := l.unserved + {t}, returned := l.returned + {t})
    case ArmPump => l.(pump := true, holder := ByBatch(BatchArmed))
    case RingBatch => l.(gen := l.gen + 1, holder := ByBatch(BatchRung))
    case Leave => l.(holder := Free)
  }

  // ----- listener accepts -----

  predicate AcceptEnabled(l: Lane, a: AcceptAct, f: Facade) {
    match a
    case Reserve => f.connCount < f.max && !f.draining && !f.stop
    case GiveBack => f.accepting > 0
    case Link => l.holder.Free? && !l.stop && f.accepting > 0
    case Unlink => l.holder.ByAccept? && l.holder.accept.Linked?
    case ArmWake => l.holder.ByAccept? && l.holder.accept.Linked?
    case RingAccept => l.holder == ByAccept(AcceptArmed)
    case AcceptLeave => l.holder == ByAccept(AcceptRung)
  }

  function AcceptStep(l: Lane, a: AcceptAct, f: Facade): Lane
    requires AcceptEnabled(l, a, f)
  {
    match a
    case Reserve => l
    case GiveBack => l
    case Link =>
      l.(holder := ByAccept(Linked(f.nextChild)), conns := l.conns + [f.nextChild],
      facts := l.facts[f.nextChild := Child(false, false, false, false)])
    case Unlink =>
      l.(holder := Free, conns := Without(l.conns, l.holder.accept.child), facts := l.facts - {l.holder.accept.child})
    case ArmWake => l.(wake := true, holder := ByAccept(AcceptArmed))
    case RingAccept => l.(gen := l.gen + 1, holder := ByAccept(AcceptRung))
    case AcceptLeave => l.(holder := Free)
  }

  // ----- stop and drain -----

  predicate StopEnabled(l: Lane, a: StopAct, f: Facade) {
    a.StopLane? ==> l.holder.Free? && f.stop
  }

  function StopStep(l: Lane, a: StopAct): Lane {
    if a.StopLane? then l.(stop := true, gen := l.gen + 1) else l
  }

  // ----- one step of the facade -----

  predicate LaneEnabled(l: Lane, a: Act, f: Facade) {
    match a
    case Check(c) => CheckEnabled(l, c)
    case Sweep(c) => SweepEnabled(l, c, f)
    case Reap(c) => ReapEnabled(l, c, f)
    case Rest(c) => RestEnabled(l, c)
    case Wake(c) => WakerEnabled(l, c)
    case Batch(c) => BatchEnabled(l, c)
    case Accept(c) => AcceptEnabled(l, c, f)
    case Stop(c) => StopEnabled(l, c, f)
  }

  function LaneStep(l: Lane, a: Act, f: Facade): Lane
    requires LaneEnabled(l, a, f)
  {
    match a
    case Check(c) => CheckStep(l, c, f)
    case Sweep(c) => SweepStep(l, c, f)
    case Reap(c) => ReapStep(l, c, f)
    case Rest(c) => RestStep(l, c, f)
    case Wake(c) => WakerStep(l, c)
    case Batch(c) => BatchStep(l, c)
    case Accept(c) => AcceptStep(l, c, f)
    case Stop(c) => StopStep(l, c)
  }

  /** The facade-wide effect of an action: reservations, the connection count, stop and drain. */
  function Shared(f: Facade, a: Act): Facade {
    match a
    case Accept(Reserve) => f.(connCount := f.connCount + 1, accepting := f.accepting + 1)
    case Accept(GiveBack) =>
      if f.accepting == 0 || f.connCount == 0 then f
      else f.(connCount := f.connCount - 1, accepting := f.accepting - 1)
    case Accept(Link) => if f.accepting == 0 then f else f.(accepting := f.accepting - 1, nextChild := f.nextChild + 1)
    case Accept(Unlink) => f.(accepting := f.accepting + 1)
    case Reap(ReleaseReserve) => if f.connCount == 0 then f else f.(connCount := f.connCount - 1)
    case Stop(StopFacade) => f.(stop := true, draining := true)
    case Stop(Drain) => f.(draining := true)
    case _ => f
  }

  predicate Enabled(f: Facade, i: nat, a: Act) {
    i < |f.lanes| && LaneEnabled(f.lanes[i], a, f)
  }

  function Step(f: Facade, i: nat, a: Act): Facade
    requires Enabled(f, i, a)
  {
    Shared(f, a).(lanes := f.lanes[i := LaneStep(f.lanes[i], a, f)])
  }

  function IdleLane(): Lane {
    Lane(Free, Locking, false, false, false, 0, false, [], map[], {}, {}, {}, {}, [])
  }

  function Init(lanes: nat, client: bool, max: nat): Facade {
    Facade(seq(lanes, _ => IdleLane()), client, max, 0, 0, false, false, 0)
  }

  datatype Move = Move(lane: nat, act: Act)

  ghost predicate Run(states: seq<Facade>, moves: seq<Move>, lanes: nat, client: bool, max: nat) {
    && |states| == |moves| + 1
    && states[0] == Init(lanes, client, max)
    && forall k :: 0 <= k < |moves| ==>
         Enabled(states[k], moves[k].lane, moves[k].act)
         && states[k + 1] == Step(states[k], moves[k].lane, moves[k].act)
  }
}

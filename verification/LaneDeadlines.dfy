/**
 The time-driven half of a doorbell iteration: which deadlines a lane still
 owes a pump, when the iteration ticks, how long an idle lane waits, and why a
 deadline the application never moves cannot spin the lane.
 */
module LaneDeadlines {

  const NEVER: nat := 0xFFFF_FFFF_FFFF_FFFF    // what a query answers when nothing is due
  const IDLE_WAIT: nat := 200_000              // the cap on an idle wait, in microseconds

  type Instant = t: nat | t <= 0xFFFF_FFFF_FFFF_FFFF

  datatype Query = Absent | Answer(at: Instant)

  datatype Decision = Ticked | Idle(until: nat, atCap: bool)

  // ----- what is owed -----

  predicate Says(q: Query, at: nat) { q.Answer? && q.at == at }

  /** The query answered an instant no pump has served yet. */
  predicate Owed(lastPump: nat, q: Query) { q.Answer? && lastPump < q.at < NEVER }

  /** Some session, or an application query that is still owed, is due by `now`. */
  predicate Due(lastPump: nat, sessions: seq<Instant>, facade: Query, lane: Query, now: nat) {
    || (exists k :: 0 <= k < |sessions| && sessions[k] != NEVER && sessions[k] <= now)
    || (Owed(lastPump, facade) && facade.at <= now)
    || (Owed(lastPump, lane) && lane.at <= now)
  }

  function Earlier(lastPump: nat, q: Query, best: nat): nat {
    if q.Answer? && q.at > lastPump && q.at < best then q.at else best
  }

  function AppDeadline(lastPump: nat, facade: Query, lane: Query): (best: nat)
    ensures best <= NEVER
    ensures best < NEVER ==> best > lastPump && (Says(facade, best) || Says(lane, best))
    ensures Owed(lastPump, facade) ==> best <= facade.at
    ensures Owed(lastPump, lane) ==> best <= lane.at
  {
    Earlier(lastPump, lane, Earlier(lastPump, facade, NEVER))
  }

  // ----- the iteration -----

  class LaneClock {
    var lastPump: nat    // the instant of the lane's last pump sweep

    constructor ()
      ensures lastPump == 0
    {
      lastPump := 0;
    }

    /** Every pump sweep serves all application deadlines up to its own instant. */
    method PumpSweep(pumpNow: nat)
      modifies this
      ensures lastPump == pumpNow
      ensures forall q: Query :: q.Answer? && q.at <= pumpNow ==> !Owed(lastPump, q)
    {
      lastPump := pumpNow;
    }

    method EarliestSession(sessions: seq<Instant>) returns (deadline: nat)
      ensures deadline <= NEVER
      ensures forall k :: 0 <= k < |sessions| ==> deadline <= sessions[k]
      ensures deadline < NEVER ==> exists k :: 0 <= k < |sessions| && sessions[k] == deadline
    {
      deadline := NEVER;
      for i := 0 to |sessions|
        invariant deadline <= NEVER
        invariant forall k :: 0 <= k < i ==> deadline <= sessions[k]
        invariant deadline < NEVER ==> exists k :: 0 <= k < i && sessions[k] == deadline
      {
        if sessions[i] < deadline {
          deadline := sessions[i];
        }
      }
    }

    /** The iteration ticks exactly when an owed deadline is due; otherwise it waits past `now`, within the idle cap
        and never beyond an owed deadline. `pumpNow` is the later instant the sweep of a tick samples. */
    method Step(sessions: seq<Instant>, facade: Query, lane: Query, now: nat, pumpNow: nat) returns (d: Decision)
      modifies this
      ensures d.Ticked? <==> Due(old(lastPump), sessions, facade, lane, now)
      ensures lastPump == After(old(lastPump), Look(sessions, facade, lane, now, pumpNow))
      ensures d.Idle? ==> now < d.until <= now + IDLE_WAIT && (d.atCap <==> d.until == now + IDLE_WAIT)
      ensures d.Idle? ==> forall k :: 0 <= k < |sessions| && sessions[k] != NEVER ==> d.until <= sessions[k]
      ensures d.Idle? && Owed(lastPump, facade) ==> d.until <= facade.at
      ensures d.Idle? && Owed(lastPump, lane) ==> d.until <= lane.at
      ensures d.Idle? && !d.atCap ==> d.until in sessions || Says(facade, d.until) || Says(lane, d.until)
    {
      var deadline := EarliestSession(sessions);
      var ad := AppDeadline(lastPump, facade, lane);
      if ad < deadline {
        deadline := ad;
      }
      if deadline != NEVER && deadline <= now {
        PumpSweep(pumpNow);
        return Ticked;
      }
      var cap := now + IDLE_WAIT;
      var until := if deadline != NEVER && deadline < cap then deadline else cap;
      d := Idle(until, until == cap);
    }
  }

  // ----- whole runs -----

  /** One iteration: a pump for armed work, or a look at the deadlines. */
  datatype Event =
    | Pump(pumpNow: nat)
    | Look(sessions: seq<Instant>, facade: Query, lane: Query, now: nat, pumpNow: nat)

  function After(lastPump: nat, e: Event): nat {
    match e
    case Pump(p) => p
    case Look(ss, fq, lq, now, p) => if Due(lastPump, ss, fq, lq, now) then p else lastPump
  }

  /** `last[k]` is the lane's last pump before event k; the clock never goes back. */
  ghost predicate Run(last: seq<nat>, events: seq<Event>) {
    && |last| == |events| + 1
    && (forall k :: 0 <= k < |events| ==> last[k] <= events[k].pumpNow && last[k + 1] == After(last[k], events[k]))
    && (forall k :: 0 <= k < |events| && events[k].Look? ==> last[k] <= events[k].now <= events[k].pumpNow)
  }

  /** Event k ticks with this application deadline due. */
  ghost predicate AppTick(last: seq<nat>, events: seq<Event>, k: nat, at: nat) {
    && k < |events| < |last| && events[k].Look?
    && at == AppDeadline(last[k], events[k].facade, events[k].lane) && at != NEVER && at <= events[k].now
  }

  lemma {:induction false} PumpsAdvance(last: seq<nat>, events: seq<Event>, j: nat, k: nat)
    requires Run(last, events) && j <= k < |last|
    ensures last[j] <= last[k]
  {
    if j < k {
      PumpsAdvance(last, events, j, k - 1);
    }
  }

  /** The application deadlines that drive ticks are strictly increasing; so no instant, however long the application
      keeps answering it, drives more than one. */
  lemma TicksIncrease(last: seq<nat>, events: seq<Event>, j: nat, k: nat, atJ: nat, atK: nat)
    requires Run(last, events) && j < k && AppTick(last, events, j, atJ) && AppTick(last, events, k, atK)
    ensures atJ < atK
  {
    assert last[j + 1] == events[j].pumpNow by {
      assert Due(last[j], events[j].sessions, events[j].facade, events[j].lane, events[j].now);
    }
    PumpsAdvance(last, events, j + 1, k);
  }

  /** Deadlines that stay constant: with one unmoving answer to each query, any three events hold at most two
      application ticks, and when both queries answer alike at most one. */
  lemma ConstantDeadline(last: seq<nat>, events: seq<Event>, facade: Query, lane: Query, i: nat, j: nat, k: nat,
                         atI: nat, atJ: nat, atK: nat)
    requires Run(last, events) && i < j < k
    requires forall n :: 0 <= n < |events| && events[n].Look? ==> events[n].facade == facade && events[n].lane == lane
    requires AppTick(last, events, i, atI) && AppTick(last, events, j, atJ)
    ensures !AppTick(last, events, k, atK)
    ensures facade != lane && facade.Answer? && lane.Answer?
  {
    TicksIncrease(last, events, i, j, atI, atJ);
    if AppTick(last, events, k, atK) {
      TicksIncrease(last, events, j, k, atJ, atK);
    }
  }
}

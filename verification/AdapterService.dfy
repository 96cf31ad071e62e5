/**
 The adapter's service cycle and receive events in place, over all streams of a
 connection: owed end marks are settled, paused streams resumed, and passes
 repeated as long as any was asked for.
 */
module AdapterService {
  import opened MapTotals
  import opened RecordList
  import opened StreamItems
  import opened AdapterReceive
  import opened ReceiveRuns
  import opened ReceiveStalls

  type Sid = AdapterReceive.Sid

  /** What one pass meets: the bridge's pending streams and fate once it and the application ran, its answers to owed
      end marks, whether delivery can be enabled, and whether another pass was asked for meanwhile. */
  datatype PassEnv = PassEnv(
    pending: set<Sid>,
    fatal: bool,
    answers: Sid -> Answer,
    enables: Sid -> bool,
    rearmed: bool)

  function SettleAll(streams: map<Sid, Rx>, pending: set<Sid>, answers: Sid -> Answer): map<Sid, Rx> {
    map sid | sid in streams :: SettleOne(streams[sid], sid in pending, answers(sid))
  }

  function Unsettled(streams: map<Sid, Rx>): set<Sid> {
    set sid | sid in streams && streams[sid].live && OwesFin(streams[sid].fed)
  }

  ghost predicate AllOk(streams: map<Sid, Rx>) { forall sid :: sid in streams ==> RxOk(streams[sid]) }

  /** A stream with no input pending at the bridge is not disabled, and has something undelivered exactly if stuck. */
  ghost predicate Served(r: Rx) { (r.live ==> !r.recvDisabled) && (Undelivered(r) <==> Stuck(r)) }

  ghost predicate NoneStalled(streams: map<Sid, Rx>, pending: set<Sid>) {
    forall sid :: sid in streams && sid !in pending ==> Served(streams[sid])
  }

  /** The streams stuck are those that were, and those whose end the pass offers and the bridge refuses while no bytes
      wait behind the adapter's flag. */
  ghost predicate StuckAfter(was: map<Sid, Rx>, e: PassEnv, after: map<Sid, Rx>) {
    forall sid :: sid in was && sid in after ==>
      (Stuck(after[sid]) <==>
       Stuck(was[sid]) || Strands(was[sid], ServicePass(sid in e.pending, e.answers(sid), true)))
  }

  ghost predicate RefusesEnd(env: nat -> PassEnv, sid: Sid) { exists i: nat :: !env(i).answers(sid).took }

  /** Passes free no stream that is stuck, and get none stuck whose end the bridge takes whenever it is offered. */
  ghost predicate StuckBy(was: map<Sid, Rx>, env: nat -> PassEnv, after: map<Sid, Rx>) {
    forall sid :: sid in was && sid in after ==>
      && (Stuck(was[sid]) ==> Stuck(after[sid]))
      && (Stuck(after[sid]) ==> Stuck(was[sid]) || RefusesEnd(env, sid))
  }

  lemma StuckByMore(was: map<Sid, Rx>, env: nat -> PassEnv, now: map<Sid, Rx>, i: nat, after: map<Sid, Rx>)
    requires StuckBy(was, env, now) && StuckAfter(now, env(i), after) && was.Keys == now.Keys == after.Keys
    ensures StuckBy(was, env, after)
  {
    hide Stuck;
    forall sid | sid in was && Stuck(after[sid]) && !Stuck(was[sid])
      ensures RefusesEnd(env, sid)
    {
      assert Stuck(now[sid]) || !env(i).answers(sid).took;
    }
  }

  lemma SettledOnce(r: Rx, pending: bool, a: Answer)
    ensures Settles(r, pending) ==> !OwesFin(SettleOne(r, pending, a).fed)
    ensures SettleOne(r, pending, a).live == r.live
  {
    hide Octets;
  }

  predicate SettlesSome(streams: map<Sid, Rx>, pending: set<Sid>) {
    exists sid :: sid in streams && Settles(streams[sid], sid in pending)
  }

  lemma SettleCases(r: Rx, pending: bool, a: Answer)
    ensures !Settles(r, pending) ==> SettleOne(r, pending, a) == r && PendingAfter(r, pending, a) == pending
    ensures Settles(r, pending) ==> PendingAfter(r, pending, a) == a.pending
  {
  }

  /** Settling leaves fewer owed ends, and strictly fewer if it settled any. */
  lemma SettleShrinks(streams: map<Sid, Rx>, pending: set<Sid>, answers: Sid -> Answer)
    ensures Unsettled(SettleAll(streams, pending, answers)) <= Unsettled(streams)
    ensures SettlesSome(streams, pending) ==> Unsettled(SettleAll(streams, pending, answers)) < Unsettled(streams)
  {
    var after := SettleAll(streams, pending, answers);
    forall sid | sid in streams
      ensures after[sid].live == streams[sid].live
      ensures Settles(streams[sid], sid in pending) ==> !OwesFin(after[sid].fed)
      ensures !Settles(streams[sid], sid in pending) ==> after[sid] == streams[sid]
    {
      SettledOnce(streams[sid], sid in pending, answers(sid));
    }
    if SettlesSome(streams, pending) {
      var sid :| sid in streams && Settles(streams[sid], sid in pending);
      assert sid in Unsettled(streams) && sid !in Unsettled(after);
    }
  }

  /** A pass over one stream keeps its invariant, and a stream it resumed is no longer disabled. */
  lemma PassOne(r: Rx, pending: bool, a: Answer, reached: bool, settled: Rx, after: Rx)
    requires RxOk(r) && settled == SettleOne(r, pending, a)
    requires after == if reached then ResumeOne(settled, PendingAfter(r, pending, a)) else settled
    ensures RxOk(after) && after.live == settled.live && after.fed == settled.fed
    ensures reached && !PendingAfter(r, pending, a) ==> Served(after)
    ensures Stuck(after) <==> Stuck(r) || Strands(r, ServicePass(pending, a, true))
  {
    hide Octets, Undelivered, Stuck;
    PassKeeps(r, pending, a, reached);
    PassStuck(r, pending, a, reached);
    if reached && !PendingAfter(r, pending, a) {
      PassDelivers(r, pending, a);
    }
    hide SettleOne, PendingAfter;
  }

  lemma PassOk(was: map<Sid, Rx>, e: PassEnv, settled: map<Sid, Rx>, after: map<Sid, Rx>, pending: set<Sid>)
    requires AllOk(was) && settled == SettleAll(was, e.pending, e.answers) && after.Keys == settled.Keys
    requires forall sid :: sid in settled ==>
               (sid in pending <==> PendingAfter(was[sid], sid in e.pending, e.answers(sid)))
    requires forall sid :: sid in after ==>
               after[sid] == settled[sid] || after[sid] == ResumeOne(settled[sid], sid in pending)
    ensures AllOk(after) && after.Keys == was.Keys && Unsettled(after) == Unsettled(settled)
    ensures StuckAfter(was, e, after)
    ensures (forall sid :: sid in after ==> after[sid] == ResumeOne(settled[sid], sid in pending)) ==>
              NoneStalled(after, pending)
  {
    hide RxOk, SettleOne, ResumeOne, PendingAfter, Served, Stuck, Strands;
    forall sid | sid in after
      ensures RxOk(after[sid]) && after[sid].live == settled[sid].live && after[sid].fed == settled[sid].fed
      ensures after[sid] == ResumeOne(settled[sid], sid in pending) && sid !in pending ==> Served(after[sid])
      ensures Stuck(after[sid]) <==>
                Stuck(was[sid]) || Strands(was[sid], ServicePass(sid in e.pending, e.answers(sid), true))
    {
      var a, p := e.answers(sid), sid in e.pending;
      if after[sid] == ResumeOne(settled[sid], sid in pending) {
        PassOne(was[sid], p, a, true, settled[sid], after[sid]);
      } else {
        PassOne(was[sid], p, a, false, settled[sid], after[sid]);
      }
    }
  }

  /** Scanning the list meets every stream. */
  lemma Scanned(list: seq<Node<Rx>>, streams: map<Sid, Rx>, pending: set<Sid>)
    requires Lists(list, streams)
    ensures (exists k :: 0 <= k < |list| && Settles(list[k].rec, list[k].id in pending)) <==>
              SettlesSome(streams, pending)
  {
    hide Settles;
    if SettlesSome(streams, pending) {
      var sid :| sid in streams && Settles(streams[sid], sid in pending);
      assert Has(list, sid);
      var k :| 0 <= k < |list| && list[k].id == sid;
      assert Settles(list[k].rec, list[k].id in pending);
    }
  }

  /** A scan that resumed the first `n` records, read off the streams. */
  lemma ResumedSo(was: seq<Node<Rx>>, before: map<Sid, Rx>, list: seq<Node<Rx>>, after: map<Sid, Rx>, pending: set<Sid>,
                  n: nat)
    requires Lists(was, before) && Lists(list, after) && |list| == |was| && n <= |was|
    requires forall k :: 0 <= k < |was| ==>
               list[k] == if k < n then Node(was[k].id, ResumeOne(was[k].rec, was[k].id in pending)) else was[k]
    ensures forall sid :: sid in before ==>
              && sid in after
              && (after[sid] == before[sid] || after[sid] == ResumeOne(before[sid], sid in pending))
              && (n == |was| ==> after[sid] == ResumeOne(before[sid], sid in pending))
  {
    hide ResumeOne;
    forall sid | sid in before
      ensures sid in after
      ensures after[sid] == before[sid] || after[sid] == ResumeOne(before[sid], sid in pending)
      ensures n == |was| ==> after[sid] == ResumeOne(before[sid], sid in pending)
    {
      assert Has(was, sid);
      var k :| 0 <= k < |was| && was[k].id == sid;
      assert list[k].id == sid;
    }
  }

  class Receiver {
    var list: seq<Node<Rx>>      // the stream records, newest first
    var pending: set<Sid>        // streams with input pending at the bridge
    var fatal: bool
    var teardownSent: bool
    var inService: bool
    var servicePending: bool
    ghost var streams: map<Sid, Rx>

    ghost predicate Valid()
      reads this
    {
      Lists(list, streams)
    }

    constructor ()
      ensures Valid() && streams == map[] && pending == {}
      ensures !fatal && !teardownSent && !inService && !servicePending
    {
      list, streams, pending := [], map[], {};
      fatal, teardownSent, inService, servicePending := false, false, false, false;
    }

    /** Update the record in place. */
    method Store(at: nat, r: Rx)
      requires Valid() && at < |list|
      modifies this`list, this`streams
      ensures Valid() && streams == old(streams)[old(list[at].id) := r]
      ensures list == old(list)[at := Node(old(list[at].id), r)]
    {
      SetRecord(list, streams, at, r);
      streams := streams[list[at].id := r];
      list := list[at := Node(list[at].id, r)];
    }

    // ----- events -----

    method FeedBuffers(fed: Fed, buffers: seq<seq<Byte>>, fin: bool, answers: seq<Answer>)
      returns (f: Fed, accepted: nat, stopped: bool)
      requires |answers| == |buffers|
      ensures (f, accepted, stopped) == FeedAll(fed, buffers, fin, answers)
    {
      hide Feed;
      f, accepted, stopped := fed, 0, false;
      for i := 0 to |buffers|
        invariant !stopped
        invariant var (f1, n, s) := FeedAll(f, buffers[i..], fin, answers[i..]);
                  FeedAll(fed, buffers, fin, answers) == (f1, accepted + n, s)
      {
        var (f1, consumed) := Feed(f, buffers[i], fin && i + 1 == |buffers|, answers[i]);
        assert buffers[i..][1..] == buffers[i + 1..] && answers[i..][1..] == answers[i + 1..];
        f := f1;
        if !consumed {
          return f, accepted, true;
        }
        accepted := accepted + |buffers[i]|;
        if answers[i].pending {
          return f, accepted, true;
        }
      }
    }

    method OnReceive(sid: Sid, buffers: seq<seq<Byte>>, fin: bool, answers: seq<Answer>, bare: Answer)
      requires Valid() && sid in streams && |answers| == |buffers|
      modifies this`list, this`streams
      ensures Valid()
      ensures streams == old(streams)[sid := Receive(old(streams[sid]), buffers, fin, answers, bare)]
    {
      hide FeedAll, Feed, Lists;
      var at := Find(list, sid, streams);
      var r, total := list[at].rec, |Concat(buffers)|;
      if r.paused {
        if fin && total == 0 {
          Store(at, r.(fed := Feed(r.fed, [], true, bare).0));
        } else {
          Store(at, Rejected(r));
        }
        return;
      }
      var f, accepted, stopped := FeedBuffers(r.fed, buffers, fin, answers);
      if buffers == [] && fin {
        f := Feed(f, [], true, bare).0;
      }
      if !stopped {
        f := FeedOwedFin(f, bare);
      }
      Store(at, Accept(r, f, total, accepted, stopped));
    }

    method OnPeerSendShutdown(sid: Sid, a: Answer)
      requires Valid() && sid in streams
      modifies this`list, this`streams
      ensures Valid() && streams == old(streams)[sid := PeerSendShutdown(old(streams[sid]), a)]
    {
      hide Feed, Lists;
      var at := Find(list, sid, streams);
      var r := list[at].rec;
      if r.fed.heldInput {
        Store(at, Offered(r, Feed(r.fed, [], true, a).0));
        return;
      }
      r := r.(paused := false, recvDisabled := false);
      Store(at, Offered(r, Feed(r.fed, [], true, a).0));
    }

    method OnPeerSendAborted(sid: Sid)
      requires Valid() && sid in streams
      modifies this`list, this`streams
      ensures Valid() && streams == old(streams)[sid := PeerSendAborted(old(streams[sid]))]
    {
      hide Lists;
      var at := Find(list, sid, streams);
      var r := list[at].rec;
      r := r.(paused := false, recvDisabled := false);
      r := r.(fed := r.fed.(heldInput := false, finHeld := false, awaits := false));
      Store(at, r.(net := r.net.(aborted := true)));
    }

    // ----- the service cycle -----

    /** Settle the end mark of one record if the adapter owes it and the bridge is free to take it. */
    method SettleAt(at: nat, a: Answer)
      requires Valid() && at < |list|
      modifies this`list, this`streams, this`pending, this`servicePending
      ensures Valid()
      ensures var sid, r, p := old(list[at].id), old(list[at].rec), old(list[at].id in pending);
              && streams == old(streams)[sid := SettleOne(r, p, a)]
              && list == old(list)[at := Node(sid, SettleOne(r, p, a))]
              && pending == (if PendingAfter(r, p, a) then old(pending) + {sid} else old(pending) - {sid})
              && (servicePending <==> old(servicePending) || Settles(r, p))
    {
      hide Settles, SettleOne, PendingAfter, Lists;
      var sid, r := list[at].id, list[at].rec;
      var waits := sid in pending;
      SettleCases(r, waits, a);
      if Settles(r, waits) {
        Store(at, SettleOne(r, waits, a));
        pending := if a.pending then pending + {sid} else pending - {sid};
        servicePending := true;
      } else {
        Store(at, r);
      }
    }

    /** Settle every end mark the adapter owes and the bridge is free to take; each asks for another pass. */
    method SettleOwedFins(answers: Sid -> Answer)
      requires Valid()
      modifies this`list, this`streams, this`pending, this`servicePending
      ensures Valid() && streams == SettleAll(old(streams), old(pending), answers)
      ensures forall sid :: sid in streams ==>
                (sid in pending <==> PendingAfter(old(streams)[sid], sid in old(pending), answers(sid)))
      ensures servicePending <==> old(servicePending) || SettlesSome(old(streams), old(pending))
    {
      hide SettleOne, Settles, PendingAfter;
      ghost var was, before := list, pending;
      for i := 0 to |list|
        invariant Valid() && |list| == |was| && streams.Keys == old(streams).Keys
        invariant forall k :: 0 <= k < |was| ==>
                    list[k] == if k >= i then was[k]
                               else Node(was[k].id, SettleOne(was[k].rec, was[k].id in before, answers(was[k].id)))
        invariant forall k :: 0 <= k < |was| ==>
                    (was[k].id in pending <==>
                     if k < i then PendingAfter(was[k].rec, was[k].id in before, answers(was[k].id))
                     else was[k].id in before)
        invariant servicePending <==>
                    old(servicePending) || exists k :: 0 <= k < i && Settles(was[k].rec, was[k].id in before)
      {
        SettleAt(i, answers(list[i].id));
      }
      Scanned(was, old(streams), before);
      forall sid | sid in old(streams)
        ensures streams[sid] == SettleOne(old(streams)[sid], sid in before, answers(sid))
        ensures sid in pending <==> PendingAfter(old(streams)[sid], sid in before, answers(sid))
      {
        assert Has(was, sid);
        var k :| 0 <= k < |was| && was[k].id == sid;
        assert list[k].id == sid;
      }
    }

    /** Resume every paused stream the bridge has drained. A failure to enable delivery is fatal and stops. */
    method ResumePaused(enables: Sid -> bool) returns (ok: bool)
      requires Valid()
      modifies this`list, this`streams, this`fatal
      ensures Valid() && streams.Keys == old(streams).Keys && fatal == (old(fatal) || !ok)
      ensures forall sid :: sid in streams ==>
                streams[sid] == old(streams)[sid] || streams[sid] == ResumeOne(old(streams)[sid], sid in pending)
      ensures ok ==> forall sid :: sid in streams ==> streams[sid] == ResumeOne(old(streams)[sid], sid in pending)
    {
      ghost var was := list;
      for i := 0 to |list|
        invariant Valid() && |list| == |was| && streams.Keys == old(streams).Keys && fatal == old(fatal)
        invariant forall k :: 0 <= k < |was| ==>
                    list[k] == if k < i then Node(was[k].id, ResumeOne(was[k].rec, was[k].id in pending)) else was[k]
      {
        var sid, r := list[i].id, list[i].rec;
        if r.paused && r.live && sid !in pending {
          if r.recvDisabled {
            if !enables(sid) {
              fatal := true;
              ResumedSo(was, old(streams), list, streams, pending, i);
              return false;
            }
            r := r.(recvDisabled := false, net := r.net.(muted := false));
          }
          Store(i, r.(paused := false));
        }
      }
      ResumedSo(was, old(streams), list, streams, pending, |list|);
      return true;
    }

    /** One pass: the bridge and the application run, owed ends are settled, drained streams resumed, and a fatal bridge
        shuts the connection down, once. */
    method RunPass(e: PassEnv)
      requires Valid() && AllOk(streams)
      modifies this`list, this`streams, this`pending, this`fatal, this`teardownSent, this`servicePending
      ensures Valid() && AllOk(streams) && streams.Keys == old(streams).Keys
      ensures fatal || NoneStalled(streams, pending)
      ensures StuckAfter(old(streams), e, streams)
      ensures fatal ==> teardownSent
      ensures old(fatal) ==> fatal
      ensures servicePending <==> e.rearmed || SettlesSome(old(streams), e.pending)
      ensures Unsettled(streams) == Unsettled(SettleAll(old(streams), e.pending, e.answers))
    {
      hide RxOk, SettleAll, PendingAfter, SettlesSome, Unsettled, Lists, NoneStalled, StuckAfter;
      servicePending := e.rearmed;
      pending, fatal := e.pending, fatal || e.fatal;
      ghost var was := streams;
      SettleOwedFins(e.answers);
      ghost var settled := streams;
      var ok := ResumePaused(e.enables);
      PassOk(was, e, settled, streams, pending);
      if fatal && !teardownSent {
        teardownSent := true;
      }
    }

    /** Service the connection. Reached again while on the stack it only asks for another pass. Otherwise passes are run
        until none is owed, given that the environment asks for only finitely many; on return, unless the bridge is in a
        fatal state, a stream with no input pending at the bridge has something undelivered exactly if it is stuck, and
        it is stuck only if it was before or the bridge refused its end. */
    method Service(env: nat -> PassEnv, ghost rearms: nat)
      requires Valid() && AllOk(streams) && forall i :: rearms <= i ==> !env(i).rearmed
      modifies this
      ensures Valid() && AllOk(streams) && streams.Keys == old(streams).Keys && inService == old(inService)
      ensures old(inService) ==> streams == old(streams) && pending == old(pending) && servicePending
      ensures !old(inService) ==> fatal || NoneStalled(streams, pending)
      ensures StuckBy(old(streams), env, streams)
      ensures !old(inService) && fatal ==> teardownSent
    {
      hide AllOk, NoneStalled, Unsettled, SettleAll, SettlesSome, Lists, StuckAfter, Stuck;
      if inService {
        servicePending := true;
        return;
      }
      inService := true;
      var i, again := 0, true;
      while again
        invariant Valid() && AllOk(streams) && streams.Keys == old(streams).Keys && inService
        invariant !again ==> fatal || NoneStalled(streams, pending)
        invariant StuckBy(old(streams), env, streams)
        invariant !again && fatal ==> teardownSent
        invariant i == 0 ==> again
        decreases if i < rearms then rearms - i else 0, |Unsettled(streams)|, again
      {
        SettleShrinks(streams, env(i).pending, env(i).answers);
        ghost var was := streams;
        RunPass(env(i));
        StuckByMore(old(streams), env, was, i, streams);
        again := servicePending;
        i := i + 1;
        SubsetSize(Unsettled(streams), Unsettled(was));
      }
      inService := false;
    }
  }
}

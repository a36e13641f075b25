/**
 That a waiting message can always be sent again, and what the gap between a failed compose and the reschedule does to
 the guarantees of the retransmission engine.
 */
module ArqLimits {
  import opened Wrappers
  import opened ArqSpec
  import opened ArqProofs
  import opened ArqTheorems
  import opened ArqWaiting

  // ---- The daemon alone can always retransmit ----

  /** Steps of the daemon's own: the timer, the scheduler, the egress worker, and the second halves of handlers. */
  predicate OwnStep(s: Step) { s.DoFire? || s.DoPick? || s.DoResend? || s == DoPoll || s == DoReschedule }

  /** The message `m` of `w` has been sent again: it has a fresh SURB ID and its timer is armed. */
  ghost predicate Resent(w: World, w': World, m: Msg) {
    exists y :: y in w'.net.surbs && y >= w.net.nextSurb && y in w'.net.timers && w'.net.surbs[y].op == m.op
                && w'.net.surbs[y].retransmissions == m.retransmissions + 1
  }

  ghost predicate OwnSteps(steps: seq<Step>) { forall i :: 0 <= i < |steps| ==> OwnStep(steps[i]) }

  ghost predicate CanResend(w: World, m: Msg) { exists own :: OwnSteps(own) && Resent(w, Run(w, own), m) }

  /** If one of the daemon's own steps leads to a state from which the message can be sent again, so does this one. */
  lemma OwnStepFirst(w: World, s: Step, w1: World, m: Msg, m1: Msg)
    requires OwnStep(s) && w1 == Next(w, s) && w.net.nextSurb <= w1.net.nextSurb && CanResend(w1, m1)
    requires m1.op == m.op && m1.retransmissions == m.retransmissions
    ensures CanResend(w, m)
  {
    var own :| OwnSteps(own) && Resent(w1, Run(w1, own), m1);
    RunCons(w, s, own);
    assert Resent(w, Run(w1, own), m);
    assert OwnSteps([s] + own);
  }

  lemma IdleNext(w: World, s: Step)
    requires Enabled(w, s) && w.past.failing == None
    ensures Next(w, s) == Do(w, s)
  {}

  lemma EgressResends(w: World, x: SurbId)
    requires x in w.net.surbs && w.net.surbs[x].op.app in w.net.queues && x in w.net.egress && w.past.failing == None
    ensures CanResend(w, w.net.surbs[x])
  {
    var own := [DoResend(x)];
    IdleNext(w, own[0]);
    RunCons(w, own[0], []);
    assert own == [own[0]] + [];
    assert Run(w, own) == Resend(w, x, true);
    assert w.net.nextSurb in Resend(w, x, true).net.surbs;
    assert OwnSteps(own) && Resent(w, Run(w, own), w.net.surbs[x]);
  }

  lemma {:induction false} QueuedResends(w: World, x: SurbId, i: nat)
    requires x in w.net.surbs && w.net.surbs[x].op.app in w.net.queues && w.past.failing == None
    requires i < |w.net.queues[w.net.surbs[x].op.app]| && w.net.queues[w.net.surbs[x].op.app][i] == x
    ensures CanResend(w, w.net.surbs[x])
    decreases i
  {
    var app := w.net.surbs[x].op.app;
    if i == 0 {
      EgressResends(Picked(w, app), x);
    } else {
      QueuedResends(Picked(w, app), x, i - 1);
    }
    IdleNext(w, DoPick(app));
    OwnStepFirst(w, DoPick(app), Picked(w, app), w.net.surbs[x], w.net.surbs[x]);
  }

  lemma FireQueues(w: World, x: SurbId)
    requires w.capacity > 0 && x in w.net.surbs && w.net.surbs[x].surb == x && w.net.surbs[x].op.app in w.net.queues
    requires w.net.queues[w.net.surbs[x].op.app] == []
    ensures var w' := TimerFires(w, x);
            && w'.net.queues.Keys == w.net.queues.Keys && w'.net.queues[w.net.surbs[x].op.app] == [x]
            && x in w'.net.surbs && w'.net.surbs[x] == w.net.surbs[x] && w'.net.nextSurb == w.net.nextSurb
            && w'.past.failing == w.past.failing
  {}

  lemma {:induction false} ArmedResends(w: World, x: SurbId)
    requires w.capacity > 0 && x in w.net.surbs && w.net.surbs[x].surb == x && w.net.surbs[x].op.app in w.net.queues
    requires x in w.net.timers && w.past.failing == None
    ensures CanResend(w, w.net.surbs[x])
    decreases |w.net.queues[w.net.surbs[x].op.app]|
  {
    var app, m := w.net.surbs[x].op.app, w.net.surbs[x];
    if w.net.queues[app] == [] {
      FireQueues(w, x);
      QueuedResends(TimerFires(w, x), x, 0);
      IdleNext(w, DoFire(x));
      OwnStepFirst(w, DoFire(x), TimerFires(w, x), m, m);
    } else {
      ArmedResends(Picked(w, app), x);
      IdleNext(w, DoPick(app));
      OwnStepFirst(w, DoPick(app), Picked(w, app), m, m);
    }
  }

  lemma WaitingResends(w: World, x: SurbId)
    requires w.capacity > 0 && x in w.net.surbs && w.net.surbs[x].surb == x && w.net.surbs[x].op.app in w.net.queues
    requires Waiting(w.net, w.net.surbs[x]) && w.past.failing == None
    ensures CanResend(w, w.net.surbs[x])
  {
    var q := w.net.queues[w.net.surbs[x].op.app];
    if x in w.net.egress {
      EgressResends(w, x);
    } else if x in q {
      var i :| 0 <= i < |q| && q[i] == x;
      QueuedResends(w, x, i);
    } else {
      ArmedResends(w, x);
    }
  }

  lemma MovedResends(v: World, m: Msg, w': World)
    requires w' == Moved(v, v.net, m, m.retransmissions) && w'.capacity > 0 && m.op.app in v.net.queues && w'.past.failing == None
    ensures CanResend(w', w'.net.surbs[v.net.nextSurb])
    ensures w'.net.surbs[v.net.nextSurb].op == m.op && w'.net.surbs[v.net.nextSurb].retransmissions == m.retransmissions
  {
    WaitingResends(w', v.net.nextSurb);
  }

  /** The second half of a failed compose comes first, if one is outstanding. */
  lemma AfterReschedule(w: World, x: SurbId)
    requires Good(w) && w.capacity > 0 && x in w.net.surbs && w.net.surbs[x].op.app in w.net.queues && w.past.failing.Some?
    requires Waiting(w.net, w.net.surbs[x]) || w.past.failing.value.op.id == w.net.surbs[x].op.id
    ensures CanResend(w, w.net.surbs[x])
  {
    var f, m, w1 := w.past.failing.value, w.net.surbs[x], Rescheduled(w);
    var idle := w.(past := w.past.(failing := None));
    FiledIsTracked(w.net, x);
    if f.op.id == m.op.id {
      MovedResends(idle, m, w1);
      OwnStepFirst(w, DoReschedule, w1, m, w1.net.surbs[w.net.nextSurb]);
    } else {
      OtherReschedule(w, x);
      WaitingResends(w1, x);
      OwnStepFirst(w, DoReschedule, w1, m, m);
    }
  }

  lemma OtherReschedule(w: World, x: SurbId)
    requires Good(w) && x in w.net.surbs && w.past.failing.Some? && w.past.failing.value.op.id != w.net.surbs[x].op.id
    requires Waiting(w.net, w.net.surbs[x])
    ensures var w' := Rescheduled(w);
            && x in w'.net.surbs && w'.net.surbs[x] == w.net.surbs[x] && w'.net.queues == w.net.queues
            && Waiting(w'.net, w'.net.surbs[x]) && w'.net.nextSurb == w.net.nextSurb + 1 && w'.past.failing == None
  {
    var f := w.past.failing.value;
    if TracksOp(w.net, f.op.id) {
      var y := TrackedIsFiled(w.net, f.op.id);
    }
  }

  /**
   From every reachable state the daemon's own steps can send each message again that is on its way, or in the hands
   of a handler that is half done with it: no further event from a client or from the network is needed.
   */
  lemma CanAlwaysResend(capacity: nat, steps: seq<Step>, x: SurbId)
    requires capacity > 0 && x in After(capacity, steps).net.surbs
    requires var w := After(capacity, steps);
             && w.net.surbs[x].op.app in w.net.queues
             && (Waiting(w.net, w.net.surbs[x]) || !Unhandled(w, w.net.surbs[x].op.id))
    ensures exists own :: OwnSteps(own)
                          && Resent(After(capacity, steps), Run(After(capacity, steps), own), After(capacity, steps).net.surbs[x])
  {
    var w := After(capacity, steps);
    var m := w.net.surbs[x];
    AfterGood(capacity, steps);
    InitGood(capacity);
    RunGood(Init(capacity), steps);
    if w.past.handling == Some(m.op.id) {
      FiledIsTracked(w.net, x);
      PolledResends(w, x);
    } else if w.past.failing.Some? {
      AfterReschedule(w, x);
    } else {
      WaitingResends(w, x);
    }
  }

  lemma PolledMoves(w: World, x: SurbId)
    requires Good(w) && x in w.net.surbs && w.past.handling == Some(w.net.surbs[x].op.id)
    ensures var m, w', y := w.net.surbs[x], Next(w, DoPoll), w.net.nextSurb;
            && y in w'.net.surbs && w'.net.surbs[y].op == m.op && w'.net.surbs[y].retransmissions == m.retransmissions
            && Waiting(w'.net, w'.net.surbs[y]) && w'.net.queues == w.net.queues && w'.capacity == w.capacity
            && w'.net.nextSurb == y + 1
  {
    FiledIsTracked(w.net, x);
  }

  lemma PolledResends(w: World, x: SurbId)
    requires Good(w) && w.capacity > 0 && x in w.net.surbs && w.net.surbs[x].op.app in w.net.queues
    requires w.past.handling == Some(w.net.surbs[x].op.id)
    ensures CanResend(w, w.net.surbs[x])
  {
    var m, w1, y := w.net.surbs[x], Next(w, DoPoll), w.net.nextSurb;
    PolledMoves(w, x);
    NextGood(w, DoPoll);
    if w1.past.failing.Some? { AfterReschedule(w1, y); } else { WaitingResends(w1, y); }
    OwnStepFirst(w, DoPoll, w1, m, w1.net.surbs[y]);
  }

  // ---- The gap between a failed compose and the reschedule ----

  /** The reschedule of a message whose operation came to an end in the gap. */
  ghost predicate InGap(w: World, s: Step) {
    s == DoReschedule && w.past.failing.Some? && !TracksOp(w.net, w.past.failing.value.op.id)
  }

  lemma TouchedRevivals(w: World, w': World, n: Net, x: SurbId, c: Change)
    requires Touched(w, w', n, x, c)
    ensures w'.past.revivals == w.past.revivals
  {}

  lemma ReplyRevivals(w: World, x: SurbId, r: Incoming)
    requires NetOk(w.net)
    ensures Reply(w, x, r).past.revivals == w.past.revivals
  {
    if x in w.net.surbs {
      ReplyChanges(w, x, r);
      TouchedRevivals(w, Reply(w, x, r), CancelTimer(w.net, x), x, ReplyChange(w, x, r));
    }
  }

  lemma NextRevivals(w: World, s: Step)
    requires NetOk(w.net)
    ensures Next(w, s).past.revivals == w.past.revivals + (if InGap(w, s) then 1 else 0)
  {
    if s.DoReply? { ReplyRevivals(w, s.x, s.incoming); }
  }

  /** The step tracks the operation again although it had ended. */
  ghost predicate Revives(w: World, s: Step, id: OpId) {
    id < w.past.nextOp && !TracksOp(w.net, id) && TracksOp(Next(w, s).net, id)
  }

  lemma GapRevives(w: World)
    requires InGap(w, DoReschedule)
    ensures var w' := Next(w, DoReschedule);
            TracksOp(w'.net, w.past.failing.value.op.id) && w'.past.log == w.past.log && w'.past.revivals == w.past.revivals + 1
  {
    assert Rescheduled(w).net.surbs[w.net.nextSurb].op.id == w.past.failing.value.op.id;
  }

  lemma OnlyGapRevives(w: World, s: Step, id: OpId)
    requires Good(w) && Revives(w, s, id)
    ensures InGap(w, s)
  {
    NextGood(w, s);
    NextRevivals(w, s);
  }

  /** A step tracks an operation again that had ended if and only if it is a reschedule in the gap. */
  lemma RevivesIff(w: World, s: Step)
    requires Good(w)
    ensures (exists id: OpId :: Revives(w, s, id)) <==> InGap(w, s)
  {
    if InGap(w, s) {
      GapRevives(w);
      assert Revives(w, s, w.past.failing.value.op.id);
    }
    forall id: OpId | Revives(w, s, id) ensures InGap(w, s) { OnlyGapRevives(w, s, id); }
  }

  /** No step of the run is a reschedule in the gap. */
  ghost predicate Gapless(w: World, steps: seq<Step>)
    decreases |steps|
  {
    steps == [] || (!InGap(w, steps[0]) && Gapless(Next(w, steps[0]), steps[1..]))
  }

  lemma Monotone(w: World, s: Step, rest: seq<Step>)
    requires Good(w)
    ensures Good(Next(w, s)) && Next(w, s).past.revivals <= Run(Next(w, s), rest).past.revivals
  {
    NextGood(w, s);
    RunGood(Next(w, s), rest);
  }

  /** So the guarantees that ask for no revivals hold for exactly the runs in which no reschedule falls into the gap. */
  lemma {:induction false} GaplessIff(w: World, steps: seq<Step>)
    requires Good(w)
    ensures Run(w, steps).past.revivals == w.past.revivals <==> Gapless(w, steps)
    decreases |steps|
  {
    if steps != [] {
      Monotone(w, steps[0], steps[1..]);
      NextRevivals(w, steps[0]);
      GaplessIff(Next(w, steps[0]), steps[1..]);
    }
  }

  // ---- A run that revives ----

  lemma ComposeFailsNext(w: World, x: SurbId)
    requires Good(w) && w.past.failing == None
    requires x in w.net.surbs && x in w.net.egress && w.net.surbs[x].op.app in w.net.queues
    ensures var w1 := Next(w, DoComposeFails(x));
            && Good(w1) && x in w1.net.surbs && w1.net.surbs[x] == w.net.surbs[x] && w1.net.queues == w.net.queues
            && w1.past.hashReused == w.past.hashReused && w1.past.revivals == w.past.revivals
            && w1.past.failing == Some(w.net.surbs[x])
  {
    IdleNext(w, DoComposeFails(x));
    NextGood(w, DoComposeFails(x));
  }

  lemma CancelledInGap(w: World, x: SurbId, handler: Kind, requester: AppId)
    requires Good(w) && !w.past.hashReused && w.past.revivals == 0 && requester in w.net.queues
    requires x in w.net.surbs && w.past.failing == Some(w.net.surbs[x])
    ensures var op := w.net.surbs[x].op;
            var w2 := Next(w, DoCancel(handler, op.hash, requester));
            && Good(w2) && HasReply(w2.past.log, op.id) && !TracksOp(w2.net, op.id) && w2.past.revivals == 0
            && w2.past.failing.Some? && w2.past.failing.value.op.id == op.id
  {
    var op := w.net.surbs[x].op;
    var s := DoCancel(handler, op.hash, requester);
    NextGood(w, s);
    CancelFindsLiveMessage(w, handler, x, requester);
    CancelNext(w, handler, op.hash, requester);
    ObservedHalves(w, s, Do(w, s));
  }

  lemma CancelledThenFiled(w: World, x: SurbId, handler: Kind, requester: AppId)
    requires Good(w) && !w.past.hashReused && w.past.revivals == 0 && requester in w.net.queues
    requires x in w.net.surbs && w.past.failing == Some(w.net.surbs[x])
    ensures var op := w.net.surbs[x].op;
            var w3 := Next(Next(w, DoCancel(handler, op.hash, requester)), DoReschedule);
            TracksOp(w3.net, op.id) && HasReply(w3.past.log, op.id) && w3.past.revivals == 1
  {
    CancelledInGap(w, x, handler, requester);
    GapRevives(Next(w, DoCancel(handler, w.net.surbs[x].op.hash, requester)));
  }

  /**
   From every state in which a message is at the egress worker: its compose fails, the operation is cancelled and the
   client told so, and then the message is rescheduled. The cancelled operation is tracked again.
   */
  lemma RevivingRun(w: World, x: SurbId, handler: Kind, requester: AppId)
    requires Good(w) && !w.past.hashReused && w.past.revivals == 0 && w.past.failing == None
    requires x in w.net.surbs && x in w.net.egress && w.net.surbs[x].op.app in w.net.queues && requester in w.net.queues
    ensures var op := w.net.surbs[x].op;
            var w' := Run(w, [DoComposeFails(x), DoCancel(handler, op.hash, requester), DoReschedule]);
            TracksOp(w'.net, op.id) && HasReply(w'.past.log, op.id) && w'.past.revivals == 1
  {
    RunThree(w, DoComposeFails(x), DoCancel(handler, w.net.surbs[x].op.hash, requester), DoReschedule);
    ComposeFailsNext(w, x);
    CancelledThenFiled(Next(w, DoComposeFails(x)), x, handler, requester);
  }

  /** A client connects and starts an operation, the timer fires, the scheduler picks the message. */
  function ToEgress(app: AppId): seq<Step> {
    [DoConnect(app), DoStart(Envelope, app, 0, true, false, false, true), DoFire(0), DoPick(app)]
  }

  lemma AtEgress(capacity: nat, app: AppId)
    requires capacity > 0
    ensures var w := After(capacity, ToEgress(app));
            && !w.past.hashReused && w.past.revivals == 0 && w.past.failing == None && app in w.net.queues
            && 0 in w.net.surbs && 0 in w.net.egress && w.net.surbs[0].op.app == app && w.net.surbs[0].op.hash == 0
  {
    var w0, s := Init(capacity), ToEgress(app);
    RunCons(w0, s[0], s[1..]);
    assert s == [s[0]] + s[1..];
    var w1 := Next(w0, s[0]);
    assert w1 == Connected(w0, app);
    RunThree(w1, s[1], s[2], s[3]);
    assert s[1..] == [s[1], s[2], s[3]];
    var w2 := Next(w1, s[1]);
    assert w2 == Start(w1, Envelope, app, 0, true, false, false, true);
    var w3 := Next(w2, s[2]);
    assert w3.net.queues[app] == [0] && w3.net.surbs == w2.net.surbs && w3.past.failing == None;
  }

  lemma RevivedAtEgress(capacity: nat, app: AppId)
    requires capacity > 0
    ensures var w := After(capacity, ToEgress(app));
            && 0 in w.net.surbs
            && var w' := Run(w, [DoComposeFails(0), DoCancel(Envelope, 0, app), DoReschedule]);
               TracksOp(w'.net, w.net.surbs[0].op.id) && HasReply(w'.past.log, w.net.surbs[0].op.id)
  {
    AfterGood(capacity, ToEgress(app));
    AtEgress(capacity, app);
    RevivingRun(After(capacity, ToEgress(app)), 0, Envelope, app);
  }

  /** So some run does revive a cancelled operation. */
  lemma SomeRunRevives(capacity: nat, app: AppId)
    requires capacity > 0
    ensures exists steps, id :: TracksOp(After(capacity, steps).net, id) && HasReply(After(capacity, steps).past.log, id)
  {
    var w, last := After(capacity, ToEgress(app)), [DoComposeFails(0), DoCancel(Envelope, 0, app), DoReschedule];
    RevivedAtEgress(capacity, app);
    RunSplits(Init(capacity), ToEgress(app), last);
    var steps, id := ToEgress(app) + last, w.net.surbs[0].op.id;
    assert TracksOp(After(capacity, steps).net, id) && HasReply(After(capacity, steps).past.log, id);
  }
}

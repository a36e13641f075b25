/** Which messages a cancel by hash finds: a start over a hash in flight hides one, its next resend takes the hash back. */
module ArqHashes {
  import opened Wrappers
  import opened ArqSpec
  import opened ArqProofs
  import opened ArqTheorems
  import opened ArqWaiting

  /** The entry of the message's hash leads to the message. */
  predicate Leads(n: Net, x: SurbId)
    requires x in n.surbs
  {
    n.surbs[x].op.hash in n.hashes && n.hashes[n.surbs[x].op.hash] == x
  }

  ghost predicate Reached(n: Net, id: OpId) { exists y :: y in n.surbs && n.surbs[y].op.id == id && Leads(n, y) }

  lemma ReachedAt(n: Net, x: SurbId)
    requires Distinct(n) && x in n.surbs
    ensures Reached(n, n.surbs[x].op.id) <==> Leads(n, x)
  {}

  /** A cancel by the message's hash ends its operation if and only if the hash leads to the message. */
  lemma CancelEndsIff(w: World, handler: Kind, x: SurbId, requester: AppId)
    requires NetOk(w.net) && x in w.net.surbs && requester in w.net.queues
    ensures !TracksOp(Cancel(w, handler, w.net.surbs[x].op.hash, requester).net, w.net.surbs[x].op.id) <==> Leads(w.net, x)
  {
    var op, w' := w.net.surbs[x].op, Cancel(w, handler, w.net.surbs[x].op.hash, requester);
    if Leads(w.net, x) {
      CancelUntracks(w, handler, op.hash, requester);
    } else {
      assert x in w'.net.surbs && w'.net.surbs[x].op.id == op.id;
    }
  }

  // ---- One step ----

  /** The step files the message under a fresh SURB ID. */
  predicate MovesIt(w: World, s: Step, x: SurbId)
    requires x in w.net.surbs
  {
    match s
    case DoResend(z) => z == x && w.net.surbs[x].op.app in w.net.queues
    case DoReply(z, r) => z == x && ReplyChange(w, x, r).Moves?
    case DoPoll => w.past.handling == Some(w.net.surbs[x].op.id)
    case DoReschedule => w.past.failing.Some? && w.past.failing.value.op.id == w.net.surbs[x].op.id
    case _ => false
  }

  ghost predicate RefilesEnded(w: World, s: Step, h: Hash) {
    && s == DoReschedule && w.past.failing.Some? && w.past.failing.value.op.hash == h
    && !TracksOp(w.net, w.past.failing.value.op.id)
  }

  /** Something else with the same hash is started, refiled, or comes to its end. */
  ghost predicate Hides(w: World, s: Step, x: SurbId)
    requires x in w.net.surbs
  {
    var h := w.net.surbs[x].op.hash;
    || (s.DoStart? && s.composed && s.hash == h)
    || (exists z :: z in w.net.surbs && z != x && w.net.surbs[z].op.hash == h && (EndsIt(w, s, z) || MovesIt(w, s, z)))
    || RefilesEnded(w, s, h)
  }

  ghost predicate ToReach(w: World, s: Step, x: SurbId)
    requires x in w.net.surbs
  {
    if Leads(w.net, x) then !Hides(w, s, x) else MovesIt(w, s, x)
  }

  /** Whether the message can be reached by its hash after the step. */
  ghost predicate Fares(w: World, s: Step, n': Net, x: SurbId)
    requires x in w.net.surbs
  {
    TracksOp(n', w.net.surbs[x].op.id) ==> (Reached(n', w.net.surbs[x].op.id) <==> ToReach(w, s, x))
  }

  lemma OwnReached(w: World, w': World, n: Net, x: SurbId, c: Change)
    requires NetOk(w.net) && Touched(w, w', n, x, c) && c != Ends
    ensures Reached(w'.net, w.net.surbs[x].op.id) <==> c.Moves? || Leads(w.net, x)
  {
    TouchedOk(w, w', n, x, c);
    var y := if c.Moves? then n.nextSurb else x;
    assert y in w'.net.surbs && w'.net.surbs[y].op == w.net.surbs[x].op;
    ReachedAt(w'.net, y);
  }

  lemma OtherReached(w: World, w': World, n: Net, z: SurbId, c: Change, x: SurbId)
    requires NetOk(w.net) && Touched(w, w', n, z, c) && x in w.net.surbs && x != z
    ensures Reached(w'.net, w.net.surbs[x].op.id)
            <==> Leads(w.net, x) && !((c == Ends || c.Moves?) && w.net.surbs[z].op.hash == w.net.surbs[x].op.hash)
  {
    TouchedOk(w, w', n, z, c);
    OtherTouched(w, w', n, z, c, x);
    ReachedAt(w'.net, x);
  }

  /** The step is what it is for the one message `z`, and nothing for any other. */
  ghost predicate Concerns(w: World, s: Step, z: SurbId, c: Change)
    requires z in w.net.surbs
  {
    && !s.DoStart? && (s == DoReschedule && w.past.failing.Some? ==> TracksOp(w.net, w.past.failing.value.op.id))
    && (EndsIt(w, s, z) <==> c == Ends) && (MovesIt(w, s, z) <==> c.Moves?)
    && (forall y :: y in w.net.surbs && y != z ==> !EndsIt(w, s, y) && !MovesIt(w, s, y))
  }

  lemma HidesIff(w: World, s: Step, z: SurbId, c: Change, x: SurbId)
    requires z in w.net.surbs && x in w.net.surbs && Concerns(w, s, z, c)
    ensures Hides(w, s, x) <==> x != z && (c == Ends || c.Moves?) && w.net.surbs[z].op.hash == w.net.surbs[x].op.hash
    ensures MovesIt(w, s, x) <==> x == z && c.Moves?
  {}

  lemma TouchedFares(w: World, v: World, w': World, s: Step, n: Net, z: SurbId, c: Change, x: SurbId)
    requires NetOk(w.net) && v.net == w.net && Touched(v, w', n, z, c) && x in w.net.surbs && Concerns(w, s, z, c)
    ensures Fares(w, s, w'.net, x)
  {
    HidesIff(w, s, z, c, x);
    if x != z {
      OtherReached(v, w', n, z, c, x);
    } else if c == Ends {
      TouchedOps(v, w', n, z, c);
    } else {
      OwnReached(v, w', n, x, c);
    }
  }

  lemma SameFares(w: World, s: Step, n': Net, x: SurbId)
    requires NetOk(w.net) && x in w.net.surbs && n'.surbs == w.net.surbs && n'.hashes == w.net.hashes
    requires !s.DoStart? && !RefilesEnded(w, s, w.net.surbs[x].op.hash)
    requires forall y :: y in w.net.surbs ==> !EndsIt(w, s, y) && !MovesIt(w, s, y)
    ensures Fares(w, s, n', x)
  {
    ReachedAt(w.net, x);
  }

  lemma FireFares(w: World, z: SurbId, x: SurbId)
    requires NetOk(w.net) && x in w.net.surbs
    ensures Fares(w, DoFire(z), TimerFires(w, z).net, x)
  {
    if z in w.net.surbs {
      FireChanges(w, z);
      TouchedFares(w, w, TimerFires(w, z), DoFire(z), CancelTimer(w.net, z), z, FireChange(w, z), x);
    } else {
      SameFares(w, DoFire(z), TimerFires(w, z).net, x);
    }
  }

  lemma ResendFares(w: World, z: SurbId, x: SurbId)
    requires NetOk(w.net) && x in w.net.surbs
    ensures Fares(w, DoResend(z), Resend(w, z, true).net, x)
  {
    if z in w.net.surbs {
      ResendChanges(w, z, true);
      TouchedFares(w, w, Resend(w, z, true), DoResend(z), FromEgress(w.net, z), z, ResendChange(w, z, true), x);
    } else {
      SameFares(w, DoResend(z), Resend(w, z, true).net, x);
    }
  }

  lemma ReplyFares(w: World, z: SurbId, r: Incoming, x: SurbId)
    requires NetOk(w.net) && x in w.net.surbs
    ensures Fares(w, DoReply(z, r), Reply(w, z, r).net, x)
  {
    if z in w.net.surbs {
      ReplyChanges(w, z, r);
      TouchedFares(w, w, Reply(w, z, r), DoReply(z, r), CancelTimer(w.net, z), z, ReplyChange(w, z, r), x);
    } else {
      SameFares(w, DoReply(z, r), Reply(w, z, r).net, x);
    }
  }

  lemma ComposeFailedFares(w: World, z: SurbId, x: SurbId)
    requires NetOk(w.net) && x in w.net.surbs
    ensures Fares(w, DoComposeFails(z), ComposeFailed(w, z).net, x)
  {
    if z in w.net.surbs && w.net.surbs[z].op.app !in w.net.queues {
      ResendChanges(w, z, false);
      TouchedFares(w, w, ComposeFailed(w, z), DoComposeFails(z), FromEgress(w.net, z), z, Ends, x);
    } else {
      SameFares(w, DoComposeFails(z), ComposeFailed(w, z).net, x);
    }
  }

  lemma PollFares(w: World, x: SurbId)
    requires NetOk(w.net) && x in w.net.surbs
    ensures Fares(w, DoPoll, CopyPolled(w).net, x)
  {
    if w.past.handling.Some? && TracksOp(w.net, w.past.handling.value) {
      var idle := w.(past := w.past.(handling := None));
      var y := TrackedIsFiled(w.net, w.past.handling.value);
      TouchedFares(w, idle, CopyPolled(w), DoPoll, w.net, y, Moves(w.net.surbs[y].retransmissions), x);
    } else {
      SameFares(w, DoPoll, CopyPolled(w).net, x);
    }
  }

  lemma RefiledFares(w: World, m: Msg, x: SurbId)
    requires NetOk(w.net) && x in w.net.surbs && w.past.failing == Some(m) && FailingKnown(w, m) && !TracksOp(w.net, m.op.id)
    ensures Fares(w, DoReschedule, Rescheduled(w).net, x)
  {
    var n' := Rescheduled(w).net;
    assert x in n'.surbs && n'.surbs[x] == w.net.surbs[x];
    assert !MovesIt(w, DoReschedule, x);
  }

  lemma RescheduleFares(w: World, x: SurbId)
    requires NetOk(w.net) && FailingOk(w) && x in w.net.surbs
    ensures Fares(w, DoReschedule, Rescheduled(w).net, x)
  {
    if w.past.failing == None {
      SameFares(w, DoReschedule, Rescheduled(w).net, x);
    } else if TracksOp(w.net, w.past.failing.value.op.id) {
      var idle := w.(past := w.past.(failing := None));
      var y := TrackedIsFiled(w.net, w.past.failing.value.op.id);
      TouchedFares(w, idle, Rescheduled(w), DoReschedule, w.net, y, Moves(w.net.surbs[y].retransmissions), x);
    } else {
      RefiledFares(w, w.past.failing.value, x);
    }
  }

  lemma CancelFares(w: World, handler: Kind, hash: Hash, requester: AppId, x: SurbId)
    requires NetOk(w.net) && x in w.net.surbs
    ensures Fares(w, DoCancel(handler, hash, requester), Cancel(w, handler, hash, requester).net, x)
  {
    var s, w' := DoCancel(handler, hash, requester), Cancel(w, handler, hash, requester);
    if requester !in w.net.queues || hash !in w.net.hashes {
      SameFares(w, s, w'.net, x);
    } else if w.net.hashes[hash] in w.net.surbs {
      CancelChanges(w, handler, hash, requester);
      TouchedFares(w, w, w', s, CancelTimer(w.net, w.net.hashes[hash]), w.net.hashes[hash], Ends, x);
    } else {
      ReachedAt(w'.net, x);
    }
  }

  lemma CleanupFares(w: World, app: AppId, x: SurbId)
    requires NetOk(w.net) && x in w.net.surbs && w.net.surbs[x].op.app != app
    ensures Fares(w, DoCleanup(app), Cleanup(w, app).net, x)
  {
    var n, n', h := w.net, Cleanup(w, app).net, w.net.surbs[x].op.hash;
    var mine := OwnedBy(n, app);
    assert x in n'.surbs && n'.surbs[x] == n.surbs[x];
    assert Distinct(n');
    ReachedAt(n', x);
    if h in Hashes(n, mine) {
      var z :| z in mine && n.surbs[z].op.hash == h;
      assert EndsIt(w, DoCleanup(app), z);
    }
  }

  lemma StartFares(w: World, s: Step, x: SurbId)
    requires NetOk(w.net) && Known(w) && x in w.net.surbs && s.DoStart? && Enabled(w, s)
    ensures Fares(w, s, Do(w, s).net, x)
  {
    var n' := Do(w, s).net;
    assert x in n'.surbs && n'.surbs[x] == w.net.surbs[x];
    if s.composed { StartOk(w, s.kind, s.app, s.hash, s.isRead, s.noRetry, s.noIdempotent); }
    ReachedAt(n', x);
  }

  lemma DoFares(w: World, s: Step, x: SurbId)
    requires NetOk(w.net) && Known(w) && FailingOk(w) && x in w.net.surbs && Enabled(w, s)
    requires TracksOp(Do(w, s).net, w.net.surbs[x].op.id)
    ensures Fares(w, s, Do(w, s).net, x)
  {
    match s
    case DoStart(_, _, _, _, _, _, _) => StartFares(w, s, x);
    case DoFire(z) => FireFares(w, z, x);
    case DoResend(z) => ResendFares(w, z, x);
    case DoComposeFails(z) => ComposeFailedFares(w, z, x);
    case DoReschedule => RescheduleFares(w, x);
    case DoReply(z, r) => ReplyFares(w, z, r, x);
    case DoPoll => PollFares(w, x);
    case DoCancel(handler, hash, requester) => CancelFares(w, handler, hash, requester, x);
    case DoCleanup(app) => if w.net.surbs[x].op.app != app { CleanupFares(w, app, x); }
    case _ => SameFares(w, s, Do(w, s).net, x);
  }

  lemma SameNet(w: World, s: Step)
    requires Enabled(w, s)
    ensures Next(w, s).net == Do(w, s).net
  {}

  lemma NextFares(w: World, s: Step, x: SurbId)
    requires NetOk(w.net) && Known(w) && FailingOk(w) && x in w.net.surbs && Enabled(w, s)
    ensures Fares(w, s, Next(w, s).net, x)
  {
    SameNet(w, s);
    if TracksOp(Do(w, s).net, w.net.surbs[x].op.id) { DoFares(w, s, x); }
  }

  /** A message that its hash leads to is hidden, while it stays tracked, by exactly the steps listed. */
  lemma HiddenIff(w: World, s: Step, x: SurbId)
    requires Good(w) && Enabled(w, s) && x in w.net.surbs && Leads(w.net, x)
    ensures var id, n' := w.net.surbs[x].op.id, Next(w, s).net; TracksOp(n', id) ==> (!Reached(n', id) <==> Hides(w, s, x))
  {
    NextFares(w, s, x);
  }

  /** A hidden message is found by its hash again exactly after the steps that file it anew: each resend is one. */
  lemma RevealedIff(w: World, s: Step, x: SurbId)
    requires Good(w) && Enabled(w, s) && x in w.net.surbs && !Leads(w.net, x)
    ensures var id, n' := w.net.surbs[x].op.id, Next(w, s).net; TracksOp(n', id) ==> (Reached(n', id) <==> MovesIt(w, s, x))
  {
    NextFares(w, s, x);
  }

  // ---- Runs ----

  /** No step of the run hides the operation's message. */
  ghost predicate Unhidden(w: World, steps: seq<Step>, id: OpId)
    decreases |steps|
  {
    steps == []
    || ((forall x :: x in w.net.surbs && w.net.surbs[x].op.id == id ==> !Hides(w, steps[0], x))
        && Unhidden(Next(w, steps[0]), steps[1..], id))
  }

  lemma UnhiddenStep(w: World, s: Step, id: OpId)
    requires Good(w) && Reached(w.net, id) && TracksOp(Next(w, s).net, id)
    requires forall x :: x in w.net.surbs && w.net.surbs[x].op.id == id ==> !Hides(w, s, x)
    ensures Reached(Next(w, s).net, id)
  {
    var x :| x in w.net.surbs && w.net.surbs[x].op.id == id && Leads(w.net, x);
    if Enabled(w, s) { HiddenIff(w, s, x); }
  }

  /**
   From any state of any run, a message that its hash leads to is found by a cancel after every continuation in which
   nothing else with that hash is started, refiled or ended, reused hashes elsewhere included.
   */
  lemma {:induction false} FoundUntilHidden(w: World, steps: seq<Step>, id: OpId)
    requires Good(w) && id < w.past.nextOp && Reached(w.net, id) && Unhidden(w, steps, id)
    requires Run(w, steps).past.revivals == w.past.revivals
    ensures TracksOp(Run(w, steps).net, id) ==> Reached(Run(w, steps).net, id)
    decreases |steps|
  {
    if steps != [] {
      var w1 := Next(w, steps[0]);
      NextGood(w, steps[0]);
      RunGood(w1, steps[1..]);
      if TracksOp(w1.net, id) {
        UnhiddenStep(w, steps[0], id);
        FoundUntilHidden(w1, steps[1..], id);
      }
    }
  }

  /** The same start again; and then the resend of the first message. */
  function Again(app: AppId): Step { DoStart(Envelope, app, 0, true, false, false, true) }
  function FirstResent(app: AppId): seq<Step> { [DoFire(0), DoPick(app), DoResend(0)] }

  ghost predicate TwoInFlight(w: World, app: AppId) {
    && w.net.surbs == map[0 := Msg(Operation(0, Envelope, app, 0, true, false, false), 0, WaitingForAck, 0),
                          1 := Msg(Operation(1, Envelope, app, 0, true, false, false), 1, WaitingForAck, 0)]
    && w.net.hashes == map[0 := 1] && w.net.timers == multiset{0, 1} && w.net.queues == map[app := []]
    && w.net.egress == multiset{} && w.net.nextSurb == 2 && w.past.failing == None && w.capacity > 0
  }

  lemma SecondStart(w: World, app: AppId)
    requires w.net.surbs == map[0 := Msg(Operation(0, Envelope, app, 0, true, false, false), 0, WaitingForAck, 0)]
    requires w.net.hashes == map[0 := 0] && w.net.timers == multiset{0} && w.net.queues == map[app := []]
    requires w.net.egress == multiset{} && w.net.nextSurb == 1 && w.past.nextOp == 1 && w.past.failing == None && w.capacity > 0
    ensures TwoInFlight(Next(w, Again(app)), app)
  {}

  /** Nothing but the first message is about to be sent. */
  ghost predicate FirstQueued(w: World, app: AppId) {
    && 0 in w.net.surbs && w.net.surbs[0].surb == 0 && w.net.surbs[0].op.app == app && w.past.failing == None
    && w.net.queues == map[app := [0]] && w.net.egress == multiset{}
  }

  lemma FirstFires(w: World, app: AppId)
    requires TwoInFlight(w, app)
    ensures var w' := Next(w, DoFire(0));
            w'.net.surbs == w.net.surbs && w'.net.hashes == w.net.hashes && w'.net.nextSurb == 2 && FirstQueued(w', app)
  {
    var n, m := CancelTimer(w.net, 0), w.net.surbs[0];
    assert SetState(n, m, m.state) == n;
    assert n.queues[app] + [0] == [0];
  }

  lemma FirstGoesOut(w: World, app: AppId)
    requires FirstQueued(w, app)
    ensures var w', m, y := Next(Next(w, DoPick(app)), DoResend(0)), w.net.surbs[0], w.net.nextSurb;
            && w'.net.surbs == (w.net.surbs - {0})[y := m.(surb := y, retransmissions := m.retransmissions + 1)]
            && w'.net.hashes == w.net.hashes[m.op.hash := y]
  {
    var w1 := Next(w, DoPick(app));
    assert w1 == Picked(w, app) && w1.net.egress == multiset{0};
  }

  lemma FirstTakesBack(w: World, app: AppId)
    requires TwoInFlight(w, app)
    ensures var n := Next(Next(Next(w, DoFire(0)), DoPick(app)), DoResend(0)).net;
            Reached(n, 0) && TracksOp(n, 1) && !Reached(n, 1)
  {
    FirstFires(w, app);
    FirstGoesOut(Next(w, DoFire(0)), app);
    TakenBack(w, app, Next(Next(Next(w, DoFire(0)), DoPick(app)), DoResend(0)).net);
  }

  lemma TakenBack(w: World, app: AppId, n: Net)
    requires TwoInFlight(w, app)
    requires n.surbs == (w.net.surbs - {0})[2 := w.net.surbs[0].(surb := 2, retransmissions := w.net.surbs[0].retransmissions + 1)]
    requires n.hashes == w.net.hashes[0 := 2]
    ensures Reached(n, 0) && TracksOp(n, 1) && !Reached(n, 1)
  {
    TwoReached(n, 2, 1);
  }

  lemma TwoReached(n: Net, found: SurbId, hidden: SurbId)
    requires n.surbs.Keys == {found, hidden} && n.surbs[found].op.id != n.surbs[hidden].op.id
    requires n.surbs[found].op.hash == n.surbs[hidden].op.hash == 0 && n.hashes == map[0 := found]
    ensures Reached(n, n.surbs[found].op.id) && TracksOp(n, n.surbs[hidden].op.id) && !Reached(n, n.surbs[hidden].op.id)
  {
    assert Leads(n, found);
  }

  lemma BothStarted(capacity: nat, app: AppId)
    requires capacity > 0
    ensures TwoInFlight(After(capacity, OneStart(app) + [Again(app)]), app)
  {
    AfterOneStart(capacity, app);
    RunSplits(Init(capacity), OneStart(app), [Again(app)]);
    assert [Again(app)] == [Again(app)] + [];
    RunCons(After(capacity, OneStart(app)), Again(app), []);
    SecondStart(After(capacity, OneStart(app)), app);
  }

  /**
   A run from the start: an operation, and another one over the same hash. The first is then hidden and the second is
   found; once the first has been sent again, it is the second that is hidden.
   */
  lemma SomeRunHides(capacity: nat, app: AppId)
    requires capacity > 0
    ensures var n := After(capacity, OneStart(app) + [Again(app)]).net;
            TracksOp(n, 0) && !Reached(n, 0) && Reached(n, 1)
    ensures var n := After(capacity, (OneStart(app) + [Again(app)]) + FirstResent(app)).net;
            Reached(n, 0) && TracksOp(n, 1) && !Reached(n, 1)
  {
    var w := After(capacity, OneStart(app) + [Again(app)]);
    BothStarted(capacity, app);
    TwoReached(w.net, 1, 0);
    RunSplits(Init(capacity), OneStart(app) + [Again(app)], FirstResent(app));
    RunThree(w, DoFire(0), DoPick(app), DoResend(0));
    FirstTakesBack(w, app);
  }
}

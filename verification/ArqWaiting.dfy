/** When exactly a tracked message loses its last place in a queue, when it gets one again, and what follows for runs. */
module ArqWaiting {
  import opened Wrappers
  import opened ArqSpec
  import opened ArqProofs
  import opened ArqTheorems

  /** Apart from the timer, which the step takes away, the message has no other place. */
  predicate OnlyTimer(n: Net, m: Msg) {
    m.surb !in n.egress && (m.op.app in n.queues ==> m.surb !in n.queues[m.op.app])
  }

  /** A reply that the handler of the message's kind neither acts on nor drops. */
  predicate Ineffective(m: Msg, r: Incoming) {
    r.EnvelopeReply? &&
    (m.op.kind == CopyCommand
     || ComputeTransition(m.state, r.replyType, CourierErrorToThin(r.courierCode), m.op.isRead, m.op.noIdempotent).action == Ignore)
  }

  /**
   The steps that take a message out of its last place: its timer fires or its reply arrives while the client is away;
   the client goes while the message is in its resend queue only; a reply of a foreign type; and the first half of a
   copy poll or of a failed compose.
   */
  predicate Silences(w: World, s: Step, m: Msg) {
    match s
    case DoFire(x) => x == m.surb && m.op.app !in w.net.queues && x !in w.net.egress
    case DoReply(x, r) => x == m.surb && OnlyTimer(w.net, m) && (m.op.app !in w.net.queues || Ineffective(m, r))
    case DoDisconnect(app) => app == m.op.app && m.surb !in w.net.timers && m.surb !in w.net.egress
    case DoHandOver(x) => x == m.surb && OnlyTimer(w.net, m)
    case DoComposeFails(x) =>
      x == m.surb && m.op.app in w.net.queues && w.net.egress[x] == 1 && x !in w.net.timers && x !in w.net.queues[m.op.app]
    case _ => false
  }

  /** The steps that give a message without a place one again: a late reply, and the second halves. */
  predicate Wakes(w: World, s: Step, m: Msg) {
    match s
    case DoReply(x, r) =>
      x == m.surb && x in w.net.surbs && (ReplyChange(w, x, r).Requeues? || ReplyChange(w, x, r).Moves?)
    case DoPoll => w.past.handling == Some(m.op.id)
    case DoReschedule => w.past.failing.Some? && w.past.failing.value.op.id == m.op.id
    case _ => false
  }

  ghost predicate Accounted(w: World) { NetOk(w.net) && SilentExact(w) }

  /** The operation is tracked, and its message waits nowhere. */
  ghost predicate Quiet(w: World, id: OpId) { TracksOp(w.net, id) && id in w.past.silent }

  lemma QuietMeans(w: World, id: OpId)
    requires Accounted(w) && TracksOp(w.net, id)
    ensures Quiet(w, id) <==> !Waiting(w.net, Tracked(w.net, id))
  {
    var y := TrackedIsFiled(w.net, id);
  }

  lemma FiledIsTracked(n: Net, x: SurbId)
    requires NetOk(n) && x in n.surbs
    ensures TracksOp(n, n.surbs[x].op.id) && Tracked(n, n.surbs[x].op.id) == n.surbs[x]
  {
    assert TracksOp(n, n.surbs[x].op.id);
    var y := TrackedIsFiled(n, n.surbs[x].op.id);
  }

  // ---- One step ----

  lemma OtherTouched(w: World, w': World, n: Net, z: SurbId, c: Change, x: SurbId)
    requires NetOk(w.net) && Touched(w, w', n, z, c) && x in w.net.surbs && x != z
    ensures x in w'.net.surbs && w'.net.surbs[x] == w.net.surbs[x]
    ensures w.net.surbs[x].op.id in w'.past.silent <==> w.net.surbs[x].op.id in w.past.silent
  {
    assert w.net.surbs[x].op.id != w.net.surbs[z].op.id;
  }

  lemma OwnTouched(w: World, w': World, n: Net, x: SurbId, c: Change)
    requires NetOk(w.net) && Touched(w, w', n, x, c)
    ensures var id := w.net.surbs[x].op.id;
            && (TracksOp(w'.net, id) <==> c != Ends)
            && (c.Stays? ==> (id in w'.past.silent <==> id in w.past.silent || !Waiting(n, w.net.surbs[x])))
            && (c.Requeues? || c.Moves? ==> id !in w'.past.silent)
  {
    var m := w.net.surbs[x];
    TouchedOps(w, w', n, x, c);
    match c
    case Stays(_) => assert w'.net.surbs[x].op.id == m.op.id;
    case Ends =>
    case Requeues(_) => assert w'.net.surbs[x].op.id == m.op.id;
    case Moves(_) => assert w'.net.surbs[n.nextSurb].op.id == m.op.id;
  }

  /** What `Do` does to one operation's place, when it takes this shape. */
  lemma TouchedQuiet(w: World, w': World, n: Net, z: SurbId, c: Change, x: SurbId)
    requires Accounted(w) && Touched(w, w', n, z, c) && x in w.net.surbs
    ensures TracksOp(w'.net, w.net.surbs[x].op.id) <==> x != z || c != Ends
    ensures var id := w.net.surbs[x].op.id;
            Quiet(w', id) <==> if x != z then Quiet(w, id) else c.Stays? && (Quiet(w, id) || !Waiting(n, w.net.surbs[x]))
  {
    FiledIsTracked(w.net, x);
    if x == z {
      OwnTouched(w, w', n, x, c);
    } else {
      OtherTouched(w, w', n, z, c, x);
      assert TracksOp(w'.net, w'.net.surbs[x].op.id);
    }
  }

  ghost predicate ToQuiet(w: World, s: Step, x: SurbId)
    requires x in w.net.surbs
  {
    if Quiet(w, w.net.surbs[x].op.id) then !Wakes(w, s, w.net.surbs[x]) else Silences(w, s, w.net.surbs[x])
  }

  /** The step is one that ends the message's operation. */
  predicate EndsIt(w: World, s: Step, x: SurbId)
    requires x in w.net.surbs
  {
    match s
    case DoReply(z, r) => z == x && ReplyChange(w, x, r) == Ends
    case DoResend(z) => z == x && w.net.surbs[x].op.app !in w.net.queues
    case DoComposeFails(z) => z == x && w.net.surbs[x].op.app !in w.net.queues
    case DoCancel(_, hash, requester) => requester in w.net.queues && hash in w.net.hashes && w.net.hashes[hash] == x
    case DoCleanup(app) => app == w.net.surbs[x].op.app
    case _ => false
  }

  /** What the step does to the message: whether it is still tracked, and whether it waits anywhere. */
  ghost predicate Fate(w: World, s: Step, w': World, x: SurbId)
    requires x in w.net.surbs
  {
    && (TracksOp(w'.net, w.net.surbs[x].op.id) <==> !EndsIt(w, s, x))
    && (Quiet(w', w.net.surbs[x].op.id) <==> ToQuiet(w, s, x) && !EndsIt(w, s, x))
  }

  lemma FireQuiet(w: World, z: SurbId, x: SurbId)
    requires Accounted(w) && x in w.net.surbs && z in w.net.timers
    ensures Fate(w, DoFire(z), TimerFires(w, z), x)
  {
    FiledIsTracked(w.net, x);
    if z in w.net.surbs {
      FireChanges(w, z);
      TouchedQuiet(w, TimerFires(w, z), CancelTimer(w.net, z), z, FireChange(w, z), x);
    }
  }

  lemma ReplyQuiet(w: World, z: SurbId, r: Incoming, x: SurbId)
    requires Accounted(w) && x in w.net.surbs
    ensures Fate(w, DoReply(z, r), Reply(w, z, r), x)
  {
    FiledIsTracked(w.net, x);
    if z in w.net.surbs {
      ReplyChanges(w, z, r);
      TouchedQuiet(w, Reply(w, z, r), CancelTimer(w.net, z), z, ReplyChange(w, z, r), x);
      ReplyStaysIff(w, z, r);
    }
  }

  lemma ReplyStaysIff(w: World, x: SurbId, r: Incoming)
    requires x in w.net.surbs
    ensures ReplyChange(w, x, r).Stays? <==> w.net.surbs[x].op.app !in w.net.queues || Ineffective(w.net.surbs[x], r)
  {}

  lemma HandOverQuiet(w: World, z: SurbId, x: SurbId)
    requires Accounted(w) && x in w.net.surbs && Enabled(w, DoHandOver(z))
    ensures Fate(w, DoHandOver(z), CopyHandedOver(w, z), x)
  {
    FiledIsTracked(w.net, x);
    var v := w.(past := w.past.(handling := Some(w.net.surbs[z].op.id)));
    TouchedQuiet(v, CopyHandedOver(w, z), CancelTimer(w.net, z), z, Stays(BetweenHalves), x);
  }

  lemma ResendQuiet(w: World, z: SurbId, x: SurbId)
    requires Accounted(w) && x in w.net.surbs && z in w.net.egress
    ensures Fate(w, DoResend(z), Resend(w, z, true), x)
  {
    FiledIsTracked(w.net, x);
    if z in w.net.surbs {
      ResendChanges(w, z, true);
      TouchedQuiet(w, Resend(w, z, true), FromEgress(w.net, z), z, ResendChange(w, z, true), x);
    }
  }

  lemma HalfFailedQuiet(w: World, z: SurbId, x: SurbId)
    requires Accounted(w) && x in w.net.surbs && z in w.net.egress && z in w.net.surbs && w.net.surbs[z].op.app in w.net.queues
    ensures TracksOp(ComposeFailed(w, z).net, w.net.surbs[x].op.id)
    ensures Quiet(ComposeFailed(w, z), w.net.surbs[x].op.id)
            <==> if x != z then Quiet(w, w.net.surbs[x].op.id) else !Waiting(FromEgress(w.net, x), w.net.surbs[x])
  {
    FiledIsTracked(w.net, x);
    var v := w.(past := w.past.(failing := Some(w.net.surbs[z])));
    TouchedQuiet(v, ComposeFailed(w, z), FromEgress(w.net, z), z, Stays(BetweenHalves), x);
  }

  lemma EndFailedQuiet(w: World, z: SurbId, x: SurbId)
    requires Accounted(w) && x in w.net.surbs && z in w.net.egress && z in w.net.surbs && w.net.surbs[z].op.app !in w.net.queues
    ensures TracksOp(ComposeFailed(w, z).net, w.net.surbs[x].op.id) <==> x != z
    ensures Quiet(ComposeFailed(w, z), w.net.surbs[x].op.id) <==> x != z && Quiet(w, w.net.surbs[x].op.id)
  {
    FiledIsTracked(w.net, x);
    ResendChanges(w, z, false);
    TouchedQuiet(w, ComposeFailed(w, z), FromEgress(w.net, z), z, Ends, x);
  }

  lemma ComposeFailedQuiet(w: World, z: SurbId, x: SurbId)
    requires Accounted(w) && x in w.net.surbs && z in w.net.egress
    ensures Fate(w, DoComposeFails(z), ComposeFailed(w, z), x)
  {
    FiledIsTracked(w.net, x);
    if z in w.net.surbs && w.net.surbs[z].op.app in w.net.queues {
      HalfFailedQuiet(w, z, x);
    } else if z in w.net.surbs {
      EndFailedQuiet(w, z, x);
    }
  }

  lemma PollQuiet(w: World, x: SurbId)
    requires Accounted(w) && x in w.net.surbs
    ensures Fate(w, DoPoll, CopyPolled(w), x)
  {
    FiledIsTracked(w.net, x);
    if w.past.handling.Some? && TracksOp(w.net, w.past.handling.value) {
      var idle := w.(past := w.past.(handling := None));
      var y := TrackedIsFiled(w.net, w.past.handling.value);
      TouchedQuiet(idle, CopyPolled(w), w.net, y, Moves(w.net.surbs[y].retransmissions), x);
    }
  }

  lemma RescheduleQuiet(w: World, x: SurbId)
    requires Accounted(w) && FailingOk(w) && x in w.net.surbs
    ensures Fate(w, DoReschedule, Rescheduled(w), x)
  {
    FiledIsTracked(w.net, x);
    if w.past.failing.Some? {
      var f, idle := w.past.failing.value, w.(past := w.past.(failing := None));
      if TracksOp(w.net, f.op.id) {
          var y := TrackedIsFiled(w.net, f.op.id);
        TouchedQuiet(idle, Rescheduled(w), w.net, y, Moves(w.net.surbs[y].retransmissions), x);
      } else {
        assert f.surb != x && x in Rescheduled(w).net.surbs && Rescheduled(w).net.surbs[x] == w.net.surbs[x];
      }
    }
  }

  lemma CancelQuiet(w: World, handler: Kind, hash: Hash, requester: AppId, x: SurbId)
    requires Accounted(w) && x in w.net.surbs
    ensures Fate(w, DoCancel(handler, hash, requester), Cancel(w, handler, hash, requester), x)
  {
    FiledIsTracked(w.net, x);
    if requester in w.net.queues && hash in w.net.hashes && w.net.hashes[hash] in w.net.surbs {
      var z := w.net.hashes[hash];
      CancelChanges(w, handler, hash, requester);
      TouchedQuiet(w, Cancel(w, handler, hash, requester), CancelTimer(w.net, z), z, Ends, x);
    }
  }

  lemma CleanupQuiet(w: World, app: AppId, x: SurbId)
    requires Accounted(w) && x in w.net.surbs
    ensures Fate(w, DoCleanup(app), Cleanup(w, app), x)
  {
    FiledIsTracked(w.net, x);
    var w', id := Cleanup(w, app), w.net.surbs[x].op.id;
    if w.net.surbs[x].op.app == app {
      forall y | y in w'.net.surbs ensures w'.net.surbs[y].op.id != id {
        assert y != x;
      }
    } else {
      assert w'.net.surbs[x].op.id == id;
    }
  }

  lemma DisconnectQuiet(w: World, app: AppId, x: SurbId)
    requires Accounted(w) && x in w.net.surbs
    ensures Fate(w, DoDisconnect(app), Disconnected(w, app), x)
  {
    FiledIsTracked(w.net, x);
    var w', m := Disconnected(w, app), w.net.surbs[x];
    assert w'.net.surbs[x].op.id == m.op.id;
    if m.op.id in Stranded(w'.net, app) {
      var z :| z in w.net.surbs && w.net.surbs[z].op.app == app && !Waiting(w'.net, w.net.surbs[z])
               && w.net.surbs[z].op.id == m.op.id;
      assert z == x;
    }
    assert m.op.app == app && !Waiting(w'.net, m) ==> m.op.id in Stranded(w'.net, app);
  }

  lemma StartQuiet(w: World, s: Step, x: SurbId)
    requires Accounted(w) && x in w.net.surbs && Enabled(w, s) && (s.DoStart? || s.DoPick? || s.DoConnect? || s.DoResume?)
    ensures Fate(w, s, Do(w, s), x)
  {
    FiledIsTracked(w.net, x);
    assert x in Do(w, s).net.surbs && Do(w, s).net.surbs[x] == w.net.surbs[x];
  }

  lemma DoQuiet(w: World, s: Step, x: SurbId)
    requires Accounted(w) && FailingOk(w) && x in w.net.surbs && Enabled(w, s)
    ensures Fate(w, s, Do(w, s), x)
  {
    match s
    case DoFire(z) => FireQuiet(w, z, x);
    case DoResend(z) => ResendQuiet(w, z, x);
    case DoReply(z, r) => ReplyQuiet(w, z, r, x);
    case DoComposeFails(_) => HalvesQuiet(w, s, x);
    case DoReschedule => HalvesQuiet(w, s, x);
    case DoHandOver(_) => HalvesQuiet(w, s, x);
    case DoPoll => HalvesQuiet(w, s, x);
    case DoCancel(_, _, _) => OutsideQuiet(w, s, x);
    case DoCleanup(_) => OutsideQuiet(w, s, x);
    case DoDisconnect(_) => OutsideQuiet(w, s, x);
    case _ => StartQuiet(w, s, x);
  }

  lemma OutsideQuiet(w: World, s: Step, x: SurbId)
    requires Accounted(w) && x in w.net.surbs && Enabled(w, s) && (s.DoCancel? || s.DoCleanup? || s.DoDisconnect?)
    ensures Fate(w, s, Do(w, s), x)
  {
    match s
    case DoCancel(handler, hash, requester) => CancelQuiet(w, handler, hash, requester, x);
    case DoCleanup(app) => CleanupQuiet(w, app, x);
    case DoDisconnect(app) => DisconnectQuiet(w, app, x);
  }

  lemma HalvesQuiet(w: World, s: Step, x: SurbId)
    requires Accounted(w) && FailingOk(w) && x in w.net.surbs && Enabled(w, s)
    requires s.DoComposeFails? || s.DoReschedule? || s.DoHandOver? || s.DoPoll?
    ensures Fate(w, s, Do(w, s), x)
  {
    match s
    case DoComposeFails(z) => ComposeFailedQuiet(w, z, x);
    case DoReschedule => RescheduleQuiet(w, x);
    case DoHandOver(z) => HandOverQuiet(w, z, x);
    case DoPoll => PollQuiet(w, x);
  }

  lemma EndsOrStays(w: World, s: Step, x: SurbId)
    requires x in w.net.surbs && EndsIt(w, s, x)
    ensures !Silences(w, s, w.net.surbs[x]) && !Wakes(w, s, w.net.surbs[x])
  {
    if s.DoReply? { ReplyStaysIff(w, x, s.incoming); }
  }

  lemma NextQuiet(w: World, s: Step, x: SurbId)
    requires Accounted(w) && FailingOk(w) && x in w.net.surbs && Enabled(w, s)
    ensures Fate(w, s, Next(w, s), x)
  {
    DoQuiet(w, s, x);
  }

  lemma NextQuietMeans(w: World, s: Step, id: OpId)
    requires Good(w) && TracksOp(Next(w, s).net, id)
    ensures Quiet(Next(w, s), id) <==> !Waiting(Next(w, s).net, Tracked(Next(w, s).net, id))
  {
    NextGood(w, s);
    QuietMeans(Next(w, s), id);
  }

  /** A message that is on its way is taken off every queue by exactly the steps listed, and by no other. */
  lemma SilencedIff(w: World, s: Step, x: SurbId)
    requires Good(w) && Enabled(w, s) && x in w.net.surbs && Waiting(w.net, w.net.surbs[x])
    ensures var w', m := Next(w, s), w.net.surbs[x];
            (TracksOp(w'.net, m.op.id) && !Waiting(w'.net, Tracked(w'.net, m.op.id))) <==> Silences(w, s, m)
  {
    FiledIsTracked(w.net, x);
    NextQuiet(w, s, x);
    if EndsIt(w, s, x) { EndsOrStays(w, s, x); }
    if TracksOp(Next(w, s).net, w.net.surbs[x].op.id) { NextQuietMeans(w, s, w.net.surbs[x].op.id); }
  }

  /** A message that is on no queue gets back on one by exactly the steps listed: no timer and no resend can help it. */
  lemma WokenIff(w: World, s: Step, x: SurbId)
    requires Good(w) && Enabled(w, s) && x in w.net.surbs && !Waiting(w.net, w.net.surbs[x])
    ensures var w', m := Next(w, s), w.net.surbs[x];
            TracksOp(w'.net, m.op.id) ==> (Waiting(w'.net, Tracked(w'.net, m.op.id)) <==> Wakes(w, s, m))
  {
    FiledIsTracked(w.net, x);
    NextQuiet(w, s, x);
    if TracksOp(Next(w, s).net, w.net.surbs[x].op.id) { NextQuietMeans(w, s, w.net.surbs[x].op.id); }
  }

  // ---- Handlers in two halves ----

  /** With nothing in between, the two halves of a failed compose are the daemon's resend with a compose failure. */
  lemma ComposeFailureInHalves(w: World, x: SurbId)
    requires NetOk(w.net) && w.past.failing == None
    ensures Rescheduled(ComposeFailed(w, x)) == Resend(w, x, false)
  {
    if x in w.net.surbs && w.net.surbs[x].op.app in w.net.queues {
      var m, n, w1 := w.net.surbs[x], FromEgress(w.net, x), ComposeFailed(w, x);
      FiledIsTracked(w1.net, x);
      assert w1.past.silent - {m.op.id} == w.past.silent - {m.op.id};
    }
  }

  /** And the two halves of a copy reply that says in progress are its handling in one piece. */
  lemma CopyPollInHalves(w: World, x: SurbId, replicaCode: nat)
    requires NetOk(w.net) && w.past.handling == None && Enabled(w, DoHandOver(x))
    ensures CopyPolled(CopyHandedOver(w, x)) == Reply(w, x, CopyReply(COPY_IN_PROGRESS, replicaCode))
  {
    var m, w1 := w.net.surbs[x], CopyHandedOver(w, x);
    FiledIsTracked(w1.net, x);
    assert w1.past.silent - {m.op.id} == w.past.silent - {m.op.id};
  }

  // ---- Sessions that resume ----

  /** A session resume loses exactly the messages whose timer is not armed and that are not at the egress worker. */
  lemma ResumeKeepsIff(w: World, x: SurbId)
    requires NetOk(w.net) && x in w.net.surbs && Enabled(w, DoResume(w.net.surbs[x].op.app))
    ensures var w' := Next(w, DoResume(w.net.surbs[x].op.app));
            x in w'.net.surbs && (Waiting(w'.net, w'.net.surbs[x]) <==> x in w.net.timers || x in w.net.egress)
  {}

  /** A composed start puts its message on its way, whatever has become of the client's earlier ones. */
  lemma StartedWaits(w: World, kind: Kind, app: AppId, hash: Hash, isRead: bool, noRetry: bool, noIdempotent: bool)
    requires Good(w) && w.past.failing == None
    ensures var w' := Next(w, DoStart(kind, app, hash, isRead, noRetry, noIdempotent, true));
            TracksOp(w'.net, w.past.nextOp) && w.past.nextOp !in w'.past.silent
  {
    var w' := Next(w, DoStart(kind, app, hash, isRead, noRetry, noIdempotent, true));
    assert w'.net.surbs[w.net.nextSurb].op.id == w.past.nextOp;
  }

  // ---- Runs ----

  /** No step of the run takes the operation's message out of its last place. */
  ghost predicate Undisturbed(w: World, steps: seq<Step>, id: OpId)
    decreases |steps|
  {
    steps == []
    || ((TracksOp(w.net, id) && Enabled(w, steps[0]) ==> !Silences(w, steps[0], Tracked(w.net, id)))
        && Undisturbed(Next(w, steps[0]), steps[1..], id))
  }

  lemma UndisturbedStep(w: World, s: Step, id: OpId)
    requires Good(w) && id < w.past.nextOp && !Quiet(w, id) && Next(w, s).past.revivals == w.past.revivals
    requires TracksOp(w.net, id) && Enabled(w, s) ==> !Silences(w, s, Tracked(w.net, id))
    ensures !Quiet(Next(w, s), id)
  {
    NextGood(w, s);
    if TracksOp(w.net, id) && Enabled(w, s) {
      var x := TrackedIsFiled(w.net, id);
      NextQuiet(w, s, x);
    }
  }

  /**
   From any state of any run, a message that is on its way stays so in every continuation in which none of the steps
   listed in Silences happens to it, whatever else happens, resumed sessions included.
   */
  lemma {:induction false} WaitsUntilSilenced(w: World, steps: seq<Step>, id: OpId)
    requires Good(w) && TracksOp(w.net, id) && Waiting(w.net, Tracked(w.net, id)) && Undisturbed(w, steps, id)
    requires Run(w, steps).past.revivals == w.past.revivals
    ensures var w' := Run(w, steps); TracksOp(w'.net, id) ==> Waiting(w'.net, Tracked(w'.net, id))
  {
    QuietMeans(w, id);
    var x := TrackedIsFiled(w.net, id);
    StaysNotQuiet(w, steps, id);
    RunGood(w, steps);
    if TracksOp(Run(w, steps).net, id) { QuietMeans(Run(w, steps), id); }
  }

  lemma {:induction false} StaysNotQuiet(w: World, steps: seq<Step>, id: OpId)
    requires Good(w) && id < w.past.nextOp && !Quiet(w, id) && Undisturbed(w, steps, id)
    requires Run(w, steps).past.revivals == w.past.revivals
    ensures !Quiet(Run(w, steps), id)
    decreases |steps|
  {
    if steps != [] {
      NextGood(w, steps[0]);
      RunGood(Next(w, steps[0]), steps[1..]);
      UndisturbedStep(w, steps[0], id);
      StaysNotQuiet(Next(w, steps[0]), steps[1..], id);
    }
  }

  /** No reply for the operation's message arrives in the run. */
  ghost predicate Unreached(w: World, steps: seq<Step>, id: OpId)
    decreases |steps|
  {
    steps == []
    || ((TracksOp(w.net, id) ==>
           !(steps[0].DoReply? && steps[0].x == Tracked(w.net, id).surb)
           && !(steps[0].DoHandOver? && steps[0].x == Tracked(w.net, id).surb))
        && Unreached(Next(w, steps[0]), steps[1..], id))
  }

  /** No handler is half done with the operation. */
  predicate Unhandled(w: World, id: OpId) {
    w.past.handling != Some(id) && (w.past.failing.Some? ==> w.past.failing.value.op.id != id)
  }

  lemma TouchedHalves(w: World, w': World, n: Net, x: SurbId, c: Change)
    requires Touched(w, w', n, x, c)
    ensures w'.past.handling == w.past.handling && w'.past.failing == w.past.failing
  {}

  lemma ReplyHalves(w: World, x: SurbId, r: Incoming)
    requires NetOk(w.net)
    ensures Reply(w, x, r).past.handling == w.past.handling && Reply(w, x, r).past.failing == w.past.failing
  {
    if x in w.net.surbs {
      ReplyChanges(w, x, r);
      TouchedHalves(w, Reply(w, x, r), CancelTimer(w.net, x), x, ReplyChange(w, x, r));
    }
  }

  /** Which handler is half done with which message after a step. */
  lemma DoHalves(w: World, s: Step)
    requires NetOk(w.net) && Enabled(w, s)
    ensures Do(w, s).past.handling ==
            if s.DoHandOver? then Some(w.net.surbs[s.x].op.id) else if s == DoPoll then None else w.past.handling
    ensures Do(w, s).past.failing ==
            if s.DoComposeFails? && s.x in w.net.surbs && w.net.surbs[s.x].op.app in w.net.queues then Some(w.net.surbs[s.x])
            else if s == DoReschedule then None else w.past.failing
  {
    if s.DoReply? { ReplyHalves(w, s.x, s.incoming); }
  }

  lemma ObservedHalves(w: World, s: Step, w': World)
    requires NetOk(w.net) && NetOk(w'.net)
    ensures Observed(w, s, w').past.handling == w'.past.handling
    ensures Observed(w, s, w').past.failing.Some? <==> w'.past.failing.Some?
    ensures w.past.failing == None ==> Observed(w, s, w') == w'
    ensures w.past.failing.Some? && w'.past.failing.Some? ==>
              Observed(w, s, w').past.failing.value.op.id == w.past.failing.value.op.id
  {
    if w.past.failing.Some? && w'.past.failing.Some? {
      var id := w.past.failing.value.op.id;
      if TracksOp(w'.net, id) {
        var y := TrackedIsFiled(w'.net, id);
      } else if TracksOp(w.net, id) {
        var y := TrackedIsFiled(w.net, id);
      }
    }
  }

  /** A handler stays half done until its second half, and none but the two first halves begin one. */
  lemma HalvesStay(w: World, s: Step, id: OpId)
    requires Good(w) && Enabled(w, s)
    ensures s != DoPoll && w.past.handling == Some(id) ==> Next(w, s).past.handling == Some(id)
    ensures s != DoReschedule && w.past.failing.Some? && w.past.failing.value.op.id == id ==>
              Next(w, s).past.failing.Some? && Next(w, s).past.failing.value.op.id == id
    ensures Unhandled(w, id) && !Unhandled(Next(w, s), id) ==> First(w, s, id)
  {
    DoGood(w, s);
    DoHalves(w, s);
    ObservedHalves(w, s, Do(w, s));
    if s.DoHandOver? { FiledIsTracked(w.net, s.x); }
    if s.DoComposeFails? && s.x in w.net.surbs { FiledIsTracked(w.net, s.x); }
  }

  /** The step is a first half, on this operation's message. */
  ghost predicate First(w: World, s: Step, id: OpId) {
    TracksOp(w.net, id) && (s.DoHandOver? || s.DoComposeFails?) && s.x == Tracked(w.net, id).surb
  }

  /**
   The converse. A message that is on no queue, and that no handler is half done with, stays so for as long as no
   reply for it arrives: no timer, resend, disconnect or resume ever puts it on its way again.
   */
  lemma {:induction false} SilentUntilReached(w: World, steps: seq<Step>, id: OpId)
    requires Good(w) && Quiet(w, id) && Unhandled(w, id) && Unreached(w, steps, id)
    requires Run(w, steps).past.revivals == w.past.revivals
    ensures var w' := Run(w, steps); TracksOp(w'.net, id) ==> !Waiting(w'.net, Tracked(w'.net, id))
    decreases |steps|
  {
    if steps == [] {
      QuietMeans(w, id);
    } else {
      NextGood(w, steps[0]);
      RunGood(Next(w, steps[0]), steps[1..]);
      SilentStep(w, steps[0], id);
      if Quiet(Next(w, steps[0]), id) {
        SilentUntilReached(Next(w, steps[0]), steps[1..], id);
      }
    }
  }

  lemma SilentStep(w: World, s: Step, id: OpId)
    requires Good(w) && Quiet(w, id) && Unhandled(w, id)
    requires !(s.DoReply? && s.x == Tracked(w.net, id).surb) && !(s.DoHandOver? && s.x == Tracked(w.net, id).surb)
    ensures TracksOp(Next(w, s).net, id) ==> Quiet(Next(w, s), id) && Unhandled(Next(w, s), id)
  {
    if Enabled(w, s) {
      var x := TrackedIsFiled(w.net, id);
      NextQuiet(w, s, x);
      HalvesStay(w, s, id);
    }
  }

  // ---- Clients that stay connected ----

  /** A reply of a foreign type arrives for the copy command. */
  ghost predicate Mistyped(w: World, s: Step, id: OpId) {
    && TracksOp(w.net, id) && s.DoReply? && s.x == Tracked(w.net, id).surb
    && s.incoming.EnvelopeReply? && Tracked(w.net, id).op.kind == CopyCommand
  }

  ghost predicate WellServed(w: World, steps: seq<Step>, id: OpId)
    decreases |steps|
  {
    steps == []
    || (!Mistyped(w, steps[0], id) && (TracksOp(w.net, id) ==> steps[0] != DoDisconnect(Tracked(w.net, id).op.app))
        && WellServed(Next(w, steps[0]), steps[1..], id))
  }

  /** The client is connected, and the message is on its way or in the hands of a handler. */
  ghost predicate Served(w: World, id: OpId) {
    TracksOp(w.net, id) ==> Tracked(w.net, id).op.app in w.net.queues && (id !in w.past.silent || !Unhandled(w, id))
  }

  ghost predicate OpFrom(n: Net, op: Operation) { exists x :: x in n.surbs && n.surbs[x].op == op }

  lemma TouchedOpFrom(w: World, w': World, n: Net, z: SurbId, c: Change, y: SurbId)
    requires NetOk(w.net) && Touched(w, w', n, z, c) && y in w'.net.surbs
    ensures OpFrom(w.net, w'.net.surbs[y].op)
  {
    assert w'.net.surbs[y].op == w.net.surbs[if y in w.net.surbs then y else z].op;
  }

  lemma SecondHalfOpFrom(w: World, s: Step, y: SurbId)
    requires NetOk(w.net) && FailingOk(w) && (s == DoPoll || s == DoReschedule) && y in Do(w, s).net.surbs
    ensures OpFrom(w.net, Do(w, s).net.surbs[y].op) || !TracksOp(w.net, Do(w, s).net.surbs[y].op.id)
  {
    var op := Do(w, s).net.surbs[y].op;
    if y in w.net.surbs && y < w.net.nextSurb {
      assert op == w.net.surbs[y].op;
    } else if s == DoPoll {
      var z := TrackedIsFiled(w.net, w.past.handling.value);
      assert op == w.net.surbs[z].op;
    } else if TracksOp(w.net, w.past.failing.value.op.id) {
      var z := TrackedIsFiled(w.net, w.past.failing.value.op.id);
      assert op == w.net.surbs[z].op;
    }
  }

  lemma FireOpFrom(w: World, z: SurbId, y: SurbId)
    requires NetOk(w.net) && y in TimerFires(w, z).net.surbs
    ensures OpFrom(w.net, TimerFires(w, z).net.surbs[y].op)
  {
    if z in w.net.surbs {
      FireChanges(w, z);
      TouchedOpFrom(w, TimerFires(w, z), CancelTimer(w.net, z), z, FireChange(w, z), y);
    }
  }

  lemma ResendOpFrom(w: World, z: SurbId, y: SurbId)
    requires NetOk(w.net) && y in Resend(w, z, true).net.surbs
    ensures OpFrom(w.net, Resend(w, z, true).net.surbs[y].op)
  {
    if z in w.net.surbs {
      ResendChanges(w, z, true);
      TouchedOpFrom(w, Resend(w, z, true), FromEgress(w.net, z), z, ResendChange(w, z, true), y);
    }
  }

  lemma ReplyOpFrom(w: World, z: SurbId, r: Incoming, y: SurbId)
    requires NetOk(w.net) && y in Reply(w, z, r).net.surbs
    ensures OpFrom(w.net, Reply(w, z, r).net.surbs[y].op)
  {
    if z in w.net.surbs {
      ReplyChanges(w, z, r);
      TouchedOpFrom(w, Reply(w, z, r), CancelTimer(w.net, z), z, ReplyChange(w, z, r), y);
    }
  }

  lemma OtherOpFrom(w: World, s: Step, y: SurbId)
    requires NetOk(w.net) && Enabled(w, s) && y in Do(w, s).net.surbs
    requires !s.DoFire? && !s.DoResend? && !s.DoReply? && !s.DoPoll? && !s.DoReschedule?
    ensures OpFrom(w.net, Do(w, s).net.surbs[y].op) || Do(w, s).net.surbs[y].op.id == w.past.nextOp
  {
    assert y in w.net.surbs ==> Do(w, s).net.surbs[y].op == w.net.surbs[y].op;
  }

  lemma DoOpFrom(w: World, s: Step, y: SurbId)
    requires NetOk(w.net) && FailingOk(w) && Enabled(w, s) && y in Do(w, s).net.surbs
    ensures var op := Do(w, s).net.surbs[y].op;
            OpFrom(w.net, op) || op.id == w.past.nextOp || !TracksOp(w.net, op.id)
  {
    match s
    case DoFire(z) => FireOpFrom(w, z, y);
    case DoResend(z) => ResendOpFrom(w, z, y);
    case DoReply(z, r) => ReplyOpFrom(w, z, r, y);
    case DoPoll => SecondHalfOpFrom(w, s, y);
    case DoReschedule => SecondHalfOpFrom(w, s, y);
    case _ => OtherOpFrom(w, s, y);
  }

  /** An operation is the same as long as it is tracked. */
  lemma SameOperation(w: World, s: Step, id: OpId)
    requires Good(w) && TracksOp(w.net, id) && TracksOp(Next(w, s).net, id)
    ensures Tracked(Next(w, s).net, id).op == Tracked(w.net, id).op
  {
    NextGood(w, s);
    var x := TrackedIsFiled(w.net, id);
    var y := TrackedIsFiled(Next(w, s).net, id);
    if Enabled(w, s) {
      DoOpFrom(w, s, y);
      var z :| z in w.net.surbs && w.net.surbs[z].op == Next(w, s).net.surbs[y].op;
      assert z == x;
    }
  }

  lemma TouchedQueues(w: World, w': World, n: Net, x: SurbId, c: Change)
    requires Touched(w, w', n, x, c)
    ensures w'.net.queues.Keys == w.net.queues.Keys
  {}

  lemma ReplyQueues(w: World, x: SurbId, r: Incoming)
    requires NetOk(w.net)
    ensures Reply(w, x, r).net.queues.Keys == w.net.queues.Keys
  {
    if x in w.net.surbs {
      ReplyChanges(w, x, r);
      TouchedQueues(w, Reply(w, x, r), CancelTimer(w.net, x), x, ReplyChange(w, x, r));
    }
  }

  lemma DoQueues(w: World, s: Step, app: AppId)
    requires Enabled(w, s) && app in w.net.queues && s != DoDisconnect(app) && !s.DoReply?
    ensures app in Do(w, s).net.queues
  {}

  lemma ConnectionsStay(w: World, s: Step, app: AppId)
    requires NetOk(w.net) && app in w.net.queues && s != DoDisconnect(app)
    ensures app in Next(w, s).net.queues
  {
    if Enabled(w, s) {
      if s.DoReply? { ReplyQueues(w, s.x, s.incoming); } else { DoQueues(w, s, app); }
      assert Next(w, s).net == Do(w, s).net;
    }
  }

  lemma ServedStep(w: World, s: Step, id: OpId)
    requires Good(w) && w.past.revivals == 0 && id < w.past.nextOp && Served(w, id) && TracksOp(w.net, id) && Enabled(w, s)
    requires !Mistyped(w, s, id) && s != DoDisconnect(Tracked(w.net, id).op.app) && TracksOp(Next(w, s).net, id)
    ensures Served(Next(w, s), id)
  {
    var x := TrackedIsFiled(w.net, id);
    SameOperation(w, s, id);
    ConnectionsStay(w, s, w.net.surbs[x].op.app);
    NextQuiet(w, s, x);
    HalvesStay(w, s, id);
    if Quiet(Next(w, s), id) { ServedHalf(w, s, id, x); }
  }

  lemma FirstHalves(w: World, s: Step, id: OpId)
    requires Good(w) && Enabled(w, s) && First(w, s, id) && Tracked(w.net, id).op.app in w.net.queues
    ensures !Unhandled(Next(w, s), id)
  {
    var x := TrackedIsFiled(w.net, id);
    DoGood(w, s);
    DoHalves(w, s);
    ObservedHalves(w, s, Do(w, s));
  }

  /** While the client stays connected and replies are of the right type, only a first half can silence a message. */
  lemma OnlyFirstHalves(w: World, s: Step, x: SurbId)
    requires NoneTerminal(w.net) && NetOk(w.net) && x in w.net.surbs && Silences(w, s, w.net.surbs[x])
    requires w.net.surbs[x].op.app in w.net.queues && s != DoDisconnect(w.net.surbs[x].op.app)
    requires !Mistyped(w, s, w.net.surbs[x].op.id)
    ensures First(w, s, w.net.surbs[x].op.id)
  {
    FiledIsTracked(w.net, x);
  }

  lemma ServedHalf(w: World, s: Step, id: OpId, x: SurbId)
    requires Good(w) && w.past.revivals == 0 && x in w.net.surbs && w.net.surbs[x].op.id == id && Enabled(w, s)
    requires w.net.surbs[x].op.app in w.net.queues && s != DoDisconnect(w.net.surbs[x].op.app)
    requires !Mistyped(w, s, id) && ToQuiet(w, s, x)
    requires id in w.past.silent ==> !Unhandled(w, id)
    ensures !Unhandled(Next(w, s), id)
  {
    FiledIsTracked(w.net, x);
    if id in w.past.silent {
      HalvesStay(w, s, id);
    } else {
      OnlyFirstHalves(w, s, x);
      FirstHalves(w, s, id);
    }
  }

  /**
   A message whose client stays connected, and which is answered with its own reply type, is after every run on its
   way or in the hands of a handler that is half done with it.
   */
  lemma {:induction false} ConnectedStaysWaiting(w: World, steps: seq<Step>, id: OpId)
    requires Good(w) && id < w.past.nextOp && Served(w, id) && WellServed(w, steps, id) && Run(w, steps).past.revivals == 0
    ensures var w' := Run(w, steps);
            TracksOp(w'.net, id) ==> Waiting(w'.net, Tracked(w'.net, id)) || !Unhandled(w', id)
    decreases |steps|
  {
    RunGood(w, steps);
    if steps == [] {
      if TracksOp(w.net, id) { QuietMeans(w, id); }
    } else {
      NextGood(w, steps[0]);
      RunGood(Next(w, steps[0]), steps[1..]);
      if TracksOp(Next(w, steps[0]).net, id) && Enabled(w, steps[0]) { ServedStep(w, steps[0], id); }
      ConnectedStaysWaiting(Next(w, steps[0]), steps[1..], id);
    }
  }

  // ---- A run after which a message is on no queue ----

  /** The client goes, the timer fires, the client comes back. */
  function Away(app: AppId): seq<Step> { [DoDisconnect(app), DoFire(0), DoResume(app)] }

  ghost predicate JustStarted(w: World, app: AppId) {
    && w.net.surbs == map[0 := Msg(Operation(0, Envelope, app, 0, true, false, false), 0, WaitingForAck, 0)]
    && w.net.egress == multiset{} && w.past.failing == None
  }

  lemma FiredWhileAway(w: World, app: AppId)
    requires JustStarted(w, app) && w.net.queues == map[] && w.net.timers == multiset{0}
    ensures var w' := Next(w, DoFire(0));
            && JustStarted(w', app) && w'.net.queues == map[] && w'.net.timers == multiset{} && w'.past.seen == w.past.seen
            && w'.past.handling == w.past.handling && w'.past.revivals == w.past.revivals
  {}

  lemma ResumedTooLate(w: World, app: AppId)
    requires JustStarted(w, app) && w.net.queues == map[] && w.net.timers == multiset{} && app in w.past.seen
    ensures var w' := Next(w, DoResume(app));
            && JustStarted(w', app) && app in w'.net.queues && !Waiting(w'.net, w'.net.surbs[0])
            && w'.past.handling == w.past.handling && w'.past.revivals == w.past.revivals
  {}

  lemma AwayIsQuiet(w: World, app: AppId)
    requires JustStarted(w, app) && w.net.queues == map[app := []] && app in w.past.seen && w.net.timers == multiset{0}
    ensures var w' := Run(w, Away(app));
            && JustStarted(w', app) && app in w'.net.queues && !Waiting(w'.net, w'.net.surbs[0])
            && w'.past.handling == w.past.handling && w'.past.revivals == w.past.revivals
  {
    RunThree(w, DoDisconnect(app), DoFire(0), DoResume(app));
    var w1 := Next(w, DoDisconnect(app));
    assert w1 == Disconnected(w, app);
    FiredWhileAway(w1, app);
    ResumedTooLate(Next(w1, DoFire(0)), app);
  }

  /**
   A run from the start: an operation is begun, its client is away while the timer fires, and comes back. The message is
   tracked and its client connected, but it is on no queue, and stays so for as long as no reply for it arrives.
   */
  lemma SomeRunSilences(capacity: nat, app: AppId, after: seq<Step>)
    requires Unreached(After(capacity, OneStart(app) + Away(app)), after, 0)
    requires Run(After(capacity, OneStart(app) + Away(app)), after).past.revivals == 0
    ensures var w := After(capacity, OneStart(app) + Away(app));
            TracksOp(w.net, 0) && app in w.net.queues && !Waiting(w.net, Tracked(w.net, 0))
    ensures var w' := Run(After(capacity, OneStart(app) + Away(app)), after);
            TracksOp(w'.net, 0) ==> !Waiting(w'.net, Tracked(w'.net, 0))
  {
    var w := After(capacity, OneStart(app) + Away(app));
    AfterGood(capacity, OneStart(app) + Away(app));
    RunSplits(Init(capacity), OneStart(app), Away(app));
    AfterOneStart(capacity, app);
    AwayIsQuiet(After(capacity, OneStart(app)), app);
    FiledIsTracked(w.net, 0);
    QuietMeans(w, 0);
    SilentUntilReached(w, after, 0);
  }
}

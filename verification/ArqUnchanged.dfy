/**
 What the steps of the retransmission engine that handle no reply leave as it is, and how an operation begins and is
 cleaned up.
 */
module ArqUnchanged {
  import opened ArqSpec
  import opened ArqProofs
  import opened Wrappers

  /** Some tracked message is of this operation and in this state. */
  ghost predicate InState(n: Net, op: Operation, s: ArqState) { exists x :: x in n.surbs && n.surbs[x].op == op && n.surbs[x].state == s }

  lemma TouchedState(w: World, w': World, n: Net, z: SurbId, c: Change, y: SurbId)
    requires NetOk(w.net) && Touched(w, w', n, z, c) && y in w'.net.surbs && (c.Requeues? ==> c.state == w.net.surbs[z].state)
    ensures InState(w.net, w'.net.surbs[y].op, w'.net.surbs[y].state)
  {
    var x := if y in w.net.surbs then y else z;
    assert w'.net.surbs[y].op == w.net.surbs[x].op && w'.net.surbs[y].state == w.net.surbs[x].state;
  }

  lemma FireState(w: World, z: SurbId, y: SurbId)
    requires NetOk(w.net) && y in TimerFires(w, z).net.surbs
    ensures InState(w.net, TimerFires(w, z).net.surbs[y].op, TimerFires(w, z).net.surbs[y].state)
  {
    if z in w.net.surbs {
      FireChanges(w, z);
      TouchedState(w, TimerFires(w, z), CancelTimer(w.net, z), z, FireChange(w, z), y);
    } else {
      assert TimerFires(w, z).net.surbs[y] == w.net.surbs[y];
    }
  }

  lemma ResendState(w: World, z: SurbId, y: SurbId)
    requires NetOk(w.net) && y in Resend(w, z, true).net.surbs
    ensures InState(w.net, Resend(w, z, true).net.surbs[y].op, Resend(w, z, true).net.surbs[y].state)
  {
    if z in w.net.surbs {
      ResendChanges(w, z, true);
      TouchedState(w, Resend(w, z, true), FromEgress(w.net, z), z, ResendChange(w, z, true), y);
    } else {
      assert Resend(w, z, true).net.surbs[y] == w.net.surbs[y];
    }
  }

  lemma SecondHalfState(w: World, s: Step, y: SurbId)
    requires NetOk(w.net) && FailingOk(w) && (s == DoPoll || s == DoReschedule) && y in Do(w, s).net.surbs
    ensures InState(w.net, Do(w, s).net.surbs[y].op, Do(w, s).net.surbs[y].state) || !TracksOp(w.net, Do(w, s).net.surbs[y].op.id)
  {
    var op := Do(w, s).net.surbs[y].op;
    if y in w.net.surbs && y < w.net.nextSurb {
      assert Do(w, s).net.surbs[y] == w.net.surbs[y];
    } else if s == DoPoll {
      var z := TrackedIsFiled(w.net, w.past.handling.value);
      assert op == w.net.surbs[z].op && Do(w, s).net.surbs[y].state == w.net.surbs[z].state;
    } else if TracksOp(w.net, w.past.failing.value.op.id) {
      var z := TrackedIsFiled(w.net, w.past.failing.value.op.id);
      assert op == w.net.surbs[z].op && Do(w, s).net.surbs[y].state == w.net.surbs[z].state;
    }
  }

  lemma OtherState(w: World, s: Step, y: SurbId)
    requires NetOk(w.net) && Enabled(w, s) && y in Do(w, s).net.surbs
    requires !s.DoFire? && !s.DoResend? && !s.DoReply? && !s.DoPoll? && !s.DoReschedule?
    ensures InState(w.net, Do(w, s).net.surbs[y].op, Do(w, s).net.surbs[y].state) || Do(w, s).net.surbs[y].op.id == w.past.nextOp
  {
    assert y in w.net.surbs ==> Do(w, s).net.surbs[y] == w.net.surbs[y];
  }

  lemma DoState(w: World, s: Step, y: SurbId)
    requires NetOk(w.net) && FailingOk(w) && Enabled(w, s) && !s.DoReply? && y in Do(w, s).net.surbs
    ensures var m := Do(w, s).net.surbs[y];
            InState(w.net, m.op, m.state) || m.op.id == w.past.nextOp || !TracksOp(w.net, m.op.id)
  {
    match s
    case DoFire(z) => FireState(w, z, y);
    case DoResend(z) => ResendState(w, z, y);
    case DoPoll => SecondHalfState(w, s, y);
    case DoReschedule => SecondHalfState(w, s, y);
    case _ => OtherState(w, s, y);
  }

  lemma SameNet(w: World, s: Step)
    requires Enabled(w, s)
    ensures Next(w, s).net == Do(w, s).net && Next(w, s).past.counters == Do(w, s).past.counters
    ensures Next(w, s).past.log == Do(w, s).past.log
  {}

  lemma FoundInState(n: Net, x: SurbId, op: Operation, s: ArqState)
    requires Distinct(n) && x in n.surbs && n.surbs[x].op.id == op.id && InState(n, op, s)
    ensures n.surbs[x].op == op && n.surbs[x].state == s
  {
    var z :| z in n.surbs && n.surbs[z].op == op && n.surbs[z].state == s;
    assert z == x;
  }

  /**
   No step but a reply changes the operation of a message that stays tracked, or its state: a resend asks for the same
   thing again.
   */
  lemma OnlyRepliesChangeState(w: World, s: Step, id: OpId)
    requires Good(w) && !s.DoReply? && TracksOp(w.net, id) && TracksOp(Next(w, s).net, id)
    ensures Tracked(Next(w, s).net, id).op == Tracked(w.net, id).op && Tracked(Next(w, s).net, id).state == Tracked(w.net, id).state
  {
    if Enabled(w, s) {
      var n' := Next(w, s).net;
      NextGood(w, s);
      SameNet(w, s);
      var x := TrackedIsFiled(w.net, id);
      var y := TrackedIsFiled(n', id);
      DoState(w, s, y);
      FoundInState(w.net, x, n'.surbs[y].op, n'.surbs[y].state);
    }
  }

  // ---- The beginning and the end ----

  /**
   A composed start tracks its operation as it was asked for, waiting for its acknowledgement, with its timer armed and
   its hash leading to it.
   */
  lemma StartTracks(w: World, kind: Kind, app: AppId, hash: Hash, isRead: bool, noRetry: bool, noIdempotent: bool)
    requires Good(w) && w.past.failing == None
    ensures var w', x := Next(w, DoStart(kind, app, hash, isRead, noRetry, noIdempotent, true)), w.net.nextSurb;
            && x !in w.net.surbs && x in w'.net.surbs && w'.net.surbs == w.net.surbs[x := w'.net.surbs[x]]
            && w'.net.surbs[x].op == Operation(w.past.nextOp, kind, app, hash, isRead, noRetry, noIdempotent)
            && w'.net.surbs[x].state == WaitingForAck && x in w'.net.timers && w'.net.hashes == w.net.hashes[hash := x]
            && w'.past.log == w.past.log + [Started(w'.net.surbs[x].op)]
  {}

  lemma CleanedUp(w: World, app: AppId, x: SurbId)
    requires NetOk(w.net) && x in w.net.surbs
    ensures var n, n' := w.net, Cleanup(w, app).net;
            if n.surbs[x].op.app == app then x !in n'.surbs && x !in n'.timers && n.surbs[x].op.hash !in n'.hashes
            else x in n'.surbs && n'.surbs[x] == n.surbs[x] && n'.timers[x] == n.timers[x]
  {
    var mine := OwnedBy(w.net, app);
    assert Surbs(w.net, mine) == mine;
    assert w.net.timers[x] <= 1;
  }

  /**
   The cleanup forgets what the client has in flight, with its hashes and its timers, and leaves everybody else's as it
   is.
   */
  lemma CleanupForgets(w: World, app: AppId, x: SurbId)
    requires Good(w) && x in w.net.surbs
    ensures var n, n' := w.net, Next(w, DoCleanup(app)).net;
            if n.surbs[x].op.app == app then x !in n'.surbs && x !in n'.timers && n.surbs[x].op.hash !in n'.hashes
            else x in n'.surbs && n'.surbs[x] == n.surbs[x] && n'.timers[x] == n.timers[x]
    ensures Next(w, DoCleanup(app)).past.counters ==
            w.past.counters.(collected := w.past.counters.collected + |OwnedBy(w.net, app)|)
  {
    SameNet(w, DoCleanup(app));
    CleanedUp(w, app, x);
  }

  /** What the entry of a hash leads to, if there is one. */
  function LedTo(n: Net, hash: Hash): set<SurbId> { if hash in n.hashes then {n.hashes[hash]} else {} }

  lemma Cancelled(w: World, handler: Kind, hash: Hash, requester: AppId)
    requires NetOk(w.net) && requester in w.net.queues
    ensures var w', gone := Cancel(w, handler, hash, requester), LedTo(w.net, hash);
            && w'.net.hashes == w.net.hashes - {hash} && w'.net.surbs == w.net.surbs - gone
            && (forall x :: x in gone && x in w.net.surbs ==> x !in w'.net.timers)
            && (gone !! w.net.surbs.Keys ==> w'.past.log == w.past.log && w'.net.timers == w.net.timers)
  {
    if hash !in w.net.hashes {
      assert w.net.hashes - {hash} == w.net.hashes && w.net.surbs - {} == w.net.surbs;
    } else if w.net.hashes[hash] !in w.net.surbs {
      assert w.net.surbs - {w.net.hashes[hash]} == w.net.surbs;
    } else {
      assert w.net.timers[w.net.hashes[hash]] <= 1;
    }
  }

  /**
   A cancel by a connected client takes the hash out of the map, and with it the message it leads to, with its timer; a hash
   that leads to no message is forgotten without a word, and no other message or hash is touched.
   */
  lemma CancelForgets(w: World, handler: Kind, hash: Hash, requester: AppId)
    requires Good(w) && requester in w.net.queues
    ensures var w', gone := Next(w, DoCancel(handler, hash, requester)), LedTo(w.net, hash);
            && w'.net.hashes == w.net.hashes - {hash} && w'.net.surbs == w.net.surbs - gone
            && (forall x :: x in gone && x in w.net.surbs ==> x !in w'.net.timers)
            && (gone !! w.net.surbs.Keys ==> w'.past.log == w.past.log && w'.net.timers == w.net.timers)
  {
    SameNet(w, DoCancel(handler, hash, requester));
    Cancelled(w, handler, hash, requester);
  }
}

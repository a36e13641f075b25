/** Every schedule that keeps giving a waiting message its turns sends it again, after a bounded number of them. */
module ArqTurns {
  import opened ArqSpec
  import opened ArqProofs
  import opened ArqTheorems

  function FirstAt(q: seq<SurbId>, x: SurbId): (i: nat)
    requires x in q
    ensures i < |q| && q[i] == x && forall j :: 0 <= j < i ==> q[j] != x
  {
    if q[0] == x then 0 else 1 + FirstAt(q[1..], x)
  }

  lemma FirstIs(q: seq<SurbId>, x: SurbId, i: nat)
    requires i < |q| && q[i] == x
    ensures FirstAt(q, x) <= i
  {}

  /** How many turns a waiting message is away from its resend: none at the egress worker, else by its place in the queue. */
  function Distance(n: Net, x: SurbId, capacity: nat): nat
    requires x in n.surbs && n.surbs[x].op.app in n.queues
  {
    var q := n.queues[n.surbs[x].op.app];
    if x in n.egress then 0 else if x in q then 1 + FirstAt(q, x) else 1 + capacity
  }

  /**
   The daemon's step that the message is waiting for: the egress worker takes it, the scheduler picks its client, or its
   timer fires while its client's resend queue has room.
   */
  predicate Turn(n: Net, s: Step, x: SurbId, capacity: nat)
    requires x in n.surbs && n.surbs[x].op.app in n.queues
  {
    var app := n.surbs[x].op.app;
    if x in n.egress then s == DoResend(x)
    else if x in n.queues[app] then s == DoPick(app)
    else s == DoFire(x) && |n.queues[app]| < capacity
  }

  // ---- No step takes a message further back ----

  /** The message stays at the egress worker, and its client's queue has at most grown, within its capacity. */
  ghost predicate NotBack(n: Net, n': Net, x: SurbId, capacity: nat)
    requires x in n.surbs && n.surbs[x].op.app in n.queues
  {
    var app := n.surbs[x].op.app;
    && (x in n.egress ==> x in n'.egress) && app in n'.queues && n.queues[app] <= n'.queues[app]
    && (|n'.queues[app]| == |n.queues[app]| || |n'.queues[app]| <= capacity)
  }

  lemma NotBackNearer(n: Net, n': Net, x: SurbId, capacity: nat)
    requires x in n.surbs && n.surbs[x].op.app in n.queues && NotBack(n, n', x, capacity)
    requires x in n'.surbs && n'.surbs[x].op == n.surbs[x].op
    ensures Distance(n', x, capacity) <= Distance(n, x, capacity)
  {
    var q, q' := n.queues[n.surbs[x].op.app], n'.queues[n.surbs[x].op.app];
    if x in q { FirstIs(q', x, FirstAt(q, x)); }
  }

  lemma EnqueueNotBack(n: Net, z: SurbId, capacity: nat, x: SurbId)
    requires x in n.surbs && n.surbs[x].op.app in n.queues
    ensures NotBack(n, EnqueueResend(n, z, capacity), x, capacity)
  {}

  lemma TouchedNotBack(w: World, w': World, n: Net, z: SurbId, c: Change, x: SurbId)
    requires NetOk(w.net) && Touched(w, w', n, z, c) && x in w.net.surbs && w.net.surbs[x].op.app in w.net.queues
    requires x != z || n.egress == w.net.egress
    ensures NotBack(w.net, w'.net, x, w.capacity)
  {
    if c.Requeues? { EnqueueNotBack(SetState(n, w.net.surbs[z], c.state), z, w.capacity, x); }
  }

  lemma FireNotBack(w: World, z: SurbId, x: SurbId)
    requires NetOk(w.net) && x in w.net.surbs && w.net.surbs[x].op.app in w.net.queues
    ensures NotBack(w.net, TimerFires(w, z).net, x, w.capacity)
  {
    if z in w.net.surbs {
      FireChanges(w, z);
      TouchedNotBack(w, TimerFires(w, z), CancelTimer(w.net, z), z, FireChange(w, z), x);
    }
  }

  lemma ReplyNotBack(w: World, z: SurbId, r: Incoming, x: SurbId)
    requires NetOk(w.net) && x in w.net.surbs && w.net.surbs[x].op.app in w.net.queues
    ensures NotBack(w.net, Reply(w, z, r).net, x, w.capacity)
  {
    if z in w.net.surbs {
      ReplyChanges(w, z, r);
      TouchedNotBack(w, Reply(w, z, r), CancelTimer(w.net, z), z, ReplyChange(w, z, r), x);
    }
  }

  lemma ResendNotBack(w: World, z: SurbId, x: SurbId, composed: bool)
    requires NetOk(w.net) && x in w.net.surbs && w.net.surbs[x].op.app in w.net.queues && x != z
    ensures NotBack(w.net, Resend(w, z, composed).net, x, w.capacity)
    ensures NotBack(w.net, ComposeFailed(w, z).net, x, w.capacity)
  {}

  /** The steps that are the message's own business: its resend, a failure to compose it, and a pick of its client. */
  predicate Own(w: World, s: Step, x: SurbId)
    requires x in w.net.surbs
  {
    s == DoResend(x) || s == DoComposeFails(x) || s == DoPick(w.net.surbs[x].op.app)
  }

  lemma DoNotBack(w: World, s: Step, x: SurbId)
    requires NetOk(w.net) && Known(w) && x in w.net.surbs && w.net.surbs[x].op.app in w.net.queues && Enabled(w, s)
    requires !Own(w, s, x) && s != DoDisconnect(w.net.surbs[x].op.app)
    ensures NotBack(w.net, Do(w, s).net, x, w.capacity)
  {
    match s
    case DoFire(z) => FireNotBack(w, z, x);
    case DoReply(z, r) => ReplyNotBack(w, z, r, x);
    case DoResend(z) => ResendNotBack(w, z, x, true);
    case DoComposeFails(z) => ResendNotBack(w, z, x, true);
    case _ =>
  }

  // ---- A turn takes it nearer ----

  lemma PickNearer(w: World, x: SurbId)
    requires x in w.net.surbs && w.net.surbs[x].op.app in w.net.queues && w.net.queues[w.net.surbs[x].op.app] != []
    ensures var app, n' := w.net.surbs[x].op.app, Picked(w, w.net.surbs[x].op.app).net;
            Distance(n', x, w.capacity) + (if Turn(w.net, DoPick(app), x, w.capacity) then 1 else 0) <= Distance(w.net, x, w.capacity)
  {
    var q := w.net.queues[w.net.surbs[x].op.app];
    if x in q && q[0] != x { FirstIs(q[1..], x, FirstAt(q, x) - 1); }
    assert x in q[1..] ==> x in q;
  }

  lemma FireNearer(w: World, x: SurbId)
    requires NetOk(w.net) && x in w.net.surbs && w.net.surbs[x].op.app in w.net.queues
    requires Turn(w.net, DoFire(x), x, w.capacity)
    ensures var n' := TimerFires(w, x).net;
            x in n'.surbs && n'.surbs[x].op == w.net.surbs[x].op && n'.surbs[x].op.app in n'.queues
            && Distance(n', x, w.capacity) < Distance(w.net, x, w.capacity)
  {
    var q, n' := w.net.queues[w.net.surbs[x].op.app], TimerFires(w, x).net;
    assert n'.queues[w.net.surbs[x].op.app] == q + [x];
    FirstIs(q + [x], x, |q|);
  }

  lemma ResendLeaves(w: World, x: SurbId)
    requires NetOk(w.net) && x in w.net.surbs && w.net.surbs[x].op.app in w.net.queues
    ensures x !in Resend(w, x, true).net.surbs
  {}

  /** The message is filed under its SURB ID as long as none of the steps that refile or end it has been taken. */
  ghost predicate Nearer(w: World, s: Step, n': Net, x: SurbId)
    requires x in w.net.surbs && w.net.surbs[x].op.app in w.net.queues
  {
    x in n'.surbs ==>
      && n'.surbs[x].op == w.net.surbs[x].op && n'.surbs[x].op.app in n'.queues
      && Distance(n', x, w.capacity) + (if Turn(w.net, s, x, w.capacity) then 1 else 0) <= Distance(w.net, x, w.capacity)
  }

  lemma DoNearer(w: World, s: Step, x: SurbId)
    requires NetOk(w.net) && Known(w) && x in w.net.surbs && w.net.surbs[x].op.app in w.net.queues && Enabled(w, s)
    requires s != DoDisconnect(w.net.surbs[x].op.app) && s != DoComposeFails(x)
    requires x in Do(w, s).net.surbs ==> Do(w, s).net.surbs[x].op == w.net.surbs[x].op
    ensures Nearer(w, s, Do(w, s).net, x)
  {
    if s == DoResend(x) {
      ResendLeaves(w, x);
    } else if s == DoPick(w.net.surbs[x].op.app) {
      PickNearer(w, x);
    } else if Turn(w.net, s, x, w.capacity) {
      FireNearer(w, x);
    } else {
      DoNotBack(w, s, x);
      if x in Do(w, s).net.surbs { NotBackNearer(w.net, Do(w, s).net, x, w.capacity); }
    }
  }

  lemma NextNearer(w: World, s: Step, x: SurbId)
    requires Good(w) && x in w.net.surbs && w.net.surbs[x].op.app in w.net.queues && Enabled(w, s)
    requires s != DoDisconnect(w.net.surbs[x].op.app) && s != DoComposeFails(x)
    ensures Nearer(w, s, Next(w, s).net, x)
  {
    SameOp(w, s, x);
    DoNearer(w, s, x);
  }

  lemma SameOp(w: World, s: Step, x: SurbId)
    requires Good(w) && Enabled(w, s) && x in w.net.surbs
    ensures Next(w, s).net == Do(w, s).net
    ensures x in Do(w, s).net.surbs ==> Do(w, s).net.surbs[x].op == w.net.surbs[x].op
  {
    DoGood(w, s);
  }

  // ---- Runs ----

  /** The client stays connected, and whenever the message is composed that succeeds. */
  ghost predicate Favoured(w: World, steps: seq<Step>, x: SurbId)
    decreases |steps|
  {
    steps == []
    || ((x in w.net.surbs ==> steps[0] != DoDisconnect(w.net.surbs[x].op.app) && steps[0] != DoComposeFails(x))
        && Favoured(Next(w, steps[0]), steps[1..], x))
  }

  /** How often in the run it is the message's turn. */
  ghost function Turns(w: World, steps: seq<Step>, x: SurbId): nat
    decreases |steps|
  {
    if steps == [] then 0
    else
      var rest := Turns(Next(w, steps[0]), steps[1..], x);
      if Enabled(w, steps[0]) && x in w.net.surbs && w.net.surbs[x].op.app in w.net.queues
         && Turn(w.net, steps[0], x, w.capacity)
      then rest + 1 else rest
  }

  lemma NextKeeps(w: World, s: Step, x: SurbId)
    requires Good(w) && x < w.net.nextSurb
    ensures Good(Next(w, s)) && x < Next(w, s).net.nextSurb && Next(w, s).capacity == w.capacity
    ensures x !in w.net.surbs ==> x !in Next(w, s).net.surbs
  {
    NextGood(w, s);
  }

  lemma {:induction false} GoneStays(w: World, steps: seq<Step>, x: SurbId)
    requires Good(w) && x < w.net.nextSurb && x !in w.net.surbs
    ensures x !in Run(w, steps).net.surbs
    decreases |steps|
  {
    if steps != [] {
      NextKeeps(w, steps[0], x);
      GoneStays(Next(w, steps[0]), steps[1..], x);
    }
  }

  lemma {:induction false} TurnsAreFew(w: World, steps: seq<Step>, x: SurbId)
    requires Good(w) && x in w.net.surbs && w.net.surbs[x].op.app in w.net.queues && Favoured(w, steps, x)
    requires x in Run(w, steps).net.surbs
    ensures Turns(w, steps, x) <= Distance(w.net, x, w.capacity)
    decreases |steps|
  {
    if steps != [] {
      var w1 := Next(w, steps[0]);
      NextKeeps(w, steps[0], x);
      if Enabled(w, steps[0]) { NextNearer(w, steps[0], x); }
      if x !in w1.net.surbs { GoneStays(w1, steps[1..], x); }
      TurnsAreFew(w1, steps[1..], x);
    }
  }

  /**
   Whatever else is scheduled in between, and however many other messages and clients there are: once a message of a
   connected client has had more turns than it was away from its resend, it is no longer under its old SURB ID. It has been
   sent again, or polled, or its operation is over.
   */
  lemma ResentInTurn(w: World, steps: seq<Step>, x: SurbId)
    requires Good(w) && x in w.net.surbs && w.net.surbs[x].op.app in w.net.queues && Favoured(w, steps, x)
    requires Turns(w, steps, x) > Distance(w.net, x, w.capacity)
    ensures x !in Run(w, steps).net.surbs
  {
    if x in Run(w, steps).net.surbs { TurnsAreFew(w, steps, x); }
  }

  // ---- How many turns that can be ----

  ghost predicate Fits(n: Net, capacity: nat) { forall a :: a in n.queues ==> |n.queues[a]| <= capacity }

  lemma TouchedFits(w: World, w': World, n: Net, z: SurbId, c: Change)
    requires Fits(w.net, w.capacity) && Touched(w, w', n, z, c)
    ensures Fits(w'.net, w.capacity)
  {
    if c.Requeues? { assert Fits(EnqueueResend(SetState(n, w.net.surbs[z], c.state), z, w.capacity), w.capacity); }
  }

  lemma FireFits(w: World, z: SurbId)
    requires NetOk(w.net) && Fits(w.net, w.capacity)
    ensures Fits(TimerFires(w, z).net, w.capacity)
  {
    if z in w.net.surbs {
      FireChanges(w, z);
      TouchedFits(w, TimerFires(w, z), CancelTimer(w.net, z), z, FireChange(w, z));
    }
  }

  lemma ReplyFits(w: World, z: SurbId, r: Incoming)
    requires NetOk(w.net) && Fits(w.net, w.capacity)
    ensures Fits(Reply(w, z, r).net, w.capacity)
  {
    if z in w.net.surbs {
      ReplyChanges(w, z, r);
      TouchedFits(w, Reply(w, z, r), CancelTimer(w.net, z), z, ReplyChange(w, z, r));
    }
  }

  lemma RefiledFits(w: World)
    requires Fits(w.net, w.capacity)
    ensures Fits(CopyPolled(w).net, w.capacity) && Fits(Rescheduled(w).net, w.capacity)
  {}

  lemma DoFits(w: World, s: Step)
    requires NetOk(w.net) && Fits(w.net, w.capacity) && Enabled(w, s)
    ensures Fits(Do(w, s).net, w.capacity)
  {
    match s
    case DoFire(z) => FireFits(w, z);
    case DoReply(z, r) => ReplyFits(w, z, r);
    case DoPoll => RefiledFits(w);
    case DoReschedule => RefiledFits(w);
    case _ =>
  }

  lemma NextFits(w: World, s: Step)
    requires NetOk(w.net) && Fits(w.net, w.capacity)
    ensures Fits(Next(w, s).net, w.capacity)
  {
    if Enabled(w, s) {
      DoFits(w, s);
      assert Next(w, s).net == Do(w, s).net;
    }
  }

  lemma {:induction false} RunFits(w: World, steps: seq<Step>)
    requires Good(w) && Fits(w.net, w.capacity)
    ensures Good(Run(w, steps)) && Fits(Run(w, steps).net, w.capacity) && Run(w, steps).capacity == w.capacity
    decreases |steps|
  {
    if steps != [] {
      NextGood(w, steps[0]);
      NextFits(w, steps[0]);
      RunFits(Next(w, steps[0]), steps[1..]);
    }
  }

  lemma FitsIsNear(n: Net, x: SurbId, capacity: nat)
    requires Fits(n, capacity) && x in n.surbs && n.surbs[x].op.app in n.queues
    ensures Distance(n, x, capacity) <= 1 + capacity
  {}

  /** So from every reachable state the capacity of a resend queue and two more turns are enough. */
  lemma ResentWithin(capacity: nat, before: seq<Step>, steps: seq<Step>, x: SurbId)
    requires var w := After(capacity, before);
             x in w.net.surbs && w.net.surbs[x].op.app in w.net.queues && Favoured(w, steps, x) && Turns(w, steps, x) >= capacity + 2
    ensures x !in After(capacity, before + steps).net.surbs
  {
    var w := After(capacity, before);
    InitGood(capacity);
    RunFits(Init(capacity), before);
    RunSplits(Init(capacity), before, steps);
    FitsIsNear(w.net, x, capacity);
    ResentInTurn(w, steps, x);
  }
}

/** What the scheduler serves: each client's resends and its requests in their order, and resends first. */
module SchedulerQueues {
  import opened SchedulerSpec
  import opened SchedulerFairness

  /** What one step serves to the client, and what it puts into its queues. */
  function ResendServed(r: Rota, s: Step, a: AppId): seq<nat> {
    match Pick(r).1
    case Some(Picked(app, Resend(x))) => if s == DoPick && app == a then [x] else []
    case _ => []
  }

  function RequestServed(r: Rota, s: Step, a: AppId): seq<nat> {
    match Pick(r).1
    case Some(Picked(app, Fresh(q))) => if s == DoPick && app == a then [q] else []
    case _ => []
  }

  function ResendOffered(s: Step, a: AppId): seq<nat> {
    match s
    case DoOffer(app, Resend(x)) => if app == a then [x] else []
    case _ => []
  }

  function RequestOffered(s: Step, a: AppId): seq<nat> {
    match s
    case DoOffer(app, Fresh(q)) => if app == a then [q] else []
    case _ => []
  }

  /** The same over a run, in order. */
  function ResendsServed(r: Rota, steps: seq<Step>, a: AppId): seq<nat>
    decreases |steps|
  {
    if steps == [] then [] else ResendServed(r, steps[0], a) + ResendsServed(Next(r, steps[0]), steps[1..], a)
  }

  function RequestsServed(r: Rota, steps: seq<Step>, a: AppId): seq<nat>
    decreases |steps|
  {
    if steps == [] then [] else RequestServed(r, steps[0], a) + RequestsServed(Next(r, steps[0]), steps[1..], a)
  }

  function ResendsOffered(steps: seq<Step>, a: AppId): seq<nat> {
    if steps == [] then [] else ResendOffered(steps[0], a) + ResendsOffered(steps[1..], a)
  }

  function RequestsOffered(steps: seq<Step>, a: AppId): seq<nat> {
    if steps == [] then [] else RequestOffered(steps[0], a) + RequestsOffered(steps[1..], a)
  }

  // ---- One step takes what it serves from the front and puts what is offered at the end ----

  ghost predicate InOrder(r: Rota, s: Step, r': Rota, a: AppId)
    requires a in r.conns
  {
    && a in r'.conns
    && ResendServed(r, s, a) + r'.conns[a].resends == r.conns[a].resends + ResendOffered(s, a)
    && RequestServed(r, s, a) + r'.conns[a].requests == r.conns[a].requests + RequestOffered(s, a)
  }

  lemma PickInOrder(r: Rota, a: AppId)
    requires RotaOk(r) && a in r.conns
    ensures InOrder(r, DoPick, Pick(r).0, a)
  {
    if Pick(r).1.Some? && Pick(r).1.value.app == a {
      var c, c' := r.conns[a], Pick(r).0.conns[a];
      assert c.resends != [] ==> [c.resends[0]] + c'.resends == c.resends;
      assert c.resends == [] ==> [c.requests[0]] + c'.requests == c.requests;
    }
  }

  lemma UntouchedInOrder(r: Rota, s: Step, r': Rota, a: AppId)
    requires !s.DoPick? && !(s.DoOffer? && s.app == a) && a in r.conns && a in r'.conns && r'.conns[a] == r.conns[a]
    ensures InOrder(r, s, r', a)
  {}

  lemma OthersUntouched(r: Rota, s: Step, a: AppId)
    requires RotaOk(r) && a in r.conns && Spares(s, a) && !s.DoPick? && !(s.DoOffer? && s.app == a)
    ensures a in Next(r, s).conns && Next(r, s).conns[a] == r.conns[a]
  {
    if s.DoUnregister? { UnregisterSpares(r, s.app, a); }
  }

  lemma StepInOrder(r: Rota, s: Step, a: AppId)
    requires RotaOk(r) && a in r.conns && Spares(s, a)
    ensures RotaOk(Next(r, s)) && InOrder(r, s, Next(r, s), a)
  {
    NextOk(r, s);
    if s.DoPick? {
      PickInOrder(r, a);
    } else if s.DoOffer? && s.app == a {
    } else {
      OthersUntouched(r, s, a);
      UntouchedInOrder(r, s, Next(r, s), a);
    }
  }

  lemma Chained(served1: seq<nat>, served2: seq<nat>, q0: seq<nat>, q1: seq<nat>, q2: seq<nat>, off1: seq<nat>, off2: seq<nat>)
    requires served1 + q1 == q0 + off1 && served2 + q2 == q1 + off2
    ensures served1 + served2 + q2 == q0 + (off1 + off2)
  {
    assert served1 + served2 + q2 == served1 + (served2 + q2);
    assert served1 + (q1 + off2) == (served1 + q1) + off2;
    assert (q0 + off1) + off2 == q0 + (off1 + off2);
  }

  /**
   Over every run in which the client is neither removed nor renamed: the resends served to it, followed by those still
   queued, are those queued at the start followed by those offered since, in order; and the same of its requests.
   */
  lemma {:induction false} FirstInFirstOut(r: Rota, steps: seq<Step>, a: AppId)
    requires RotaOk(r) && a in r.conns && AllSpare(steps, a)
    ensures a in Run(r, steps).conns
    ensures ResendsServed(r, steps, a) + Run(r, steps).conns[a].resends == r.conns[a].resends + ResendsOffered(steps, a)
    ensures RequestsServed(r, steps, a) + Run(r, steps).conns[a].requests == r.conns[a].requests + RequestsOffered(steps, a)
    decreases |steps|
  {
    if steps != [] {
      var s, rest := steps[0], steps[1..];
      var r1, r2 := Next(r, s), Run(r, steps);
      AllSpareRest(steps, a);
      StepInOrder(r, s, a);
      FirstInFirstOut(r1, rest, a);
      Chained(ResendServed(r, s, a), ResendsServed(r1, rest, a), r.conns[a].resends, r1.conns[a].resends,
              r2.conns[a].resends, ResendOffered(s, a), ResendsOffered(rest, a));
      Chained(RequestServed(r, s, a), RequestsServed(r1, rest, a), r.conns[a].requests, r1.conns[a].requests,
              r2.conns[a].requests, RequestOffered(s, a), RequestsOffered(rest, a));
    }
  }

  /** A request is served only to a client none of whose resends waits, and someone is served unless nobody has anything. */
  lemma ResendsFirst(r: Rota)
    requires RotaOk(r)
    ensures match Pick(r).1
            case Some(Picked(app, Fresh(_))) => app in r.conns && r.conns[app].resends == []
            case Some(Picked(app, Resend(_))) => app in r.conns
            case None => forall a :: a in r.conns ==> r.conns[a].resends == [] && r.conns[a].requests == []
  {
    if Pick(r).1.None? {
      forall a | a in r.conns ensures r.conns[a].resends == [] && r.conns[a].requests == [] {
        if r.conns[a] != Conn([], []) { PickServesNearest(r, a); }
      }
    }
  }
}

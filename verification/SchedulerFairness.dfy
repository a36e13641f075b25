/** Why the round-robin scheduler is fair: what each step does to a client's distance from the cursor. */
module SchedulerFairness {
  import opened SchedulerSpec

  function Cyclic(p: nat, cursor: nat, n: nat): (d: nat)
    requires p < n && cursor < n
    ensures d < n
  {
    if p >= cursor then p - cursor else p + n - cursor
  }

  /** How many slots the scheduler looks at before it comes to the client. */
  function Dist(r: Rota, a: AppId): (d: nat)
    requires RotaOk(r) && a in r.order
    ensures d < |r.order|
  {
    PosFound(r.order, a);
    Cyclic(Pos(r.order, a), r.cursor, |r.order|)
  }

  lemma PosFound(order: seq<AppId>, a: AppId)
    requires a in order
    ensures Pos(order, a) < |order|
  {
    var i :| 0 <= i < |order| && order[i] == a;
  }

  lemma PosIs(order: seq<AppId>, a: AppId, i: nat)
    requires NoDup(order) && i < |order| && order[i] == a
    ensures Pos(order, a) == i
  {}

  lemma DistIs(r: Rota, a: AppId, p: nat, c: nat, n: nat)
    requires RotaOk(r) && a in r.order && Pos(r.order, a) == p && r.cursor == c && |r.order| == n && p < n && c < n
    ensures Dist(r, a) == Cyclic(p, c, n)
  {}

  lemma Wraps(x: nat, n: nat)
    requires x < 2 * n
    ensures x % n == if x < n then x else x - n
  {
    if x >= n { assert x == n + (x - n); }
  }

  lemma SlotIs(r: Rota, i: nat)
    requires r.cursor < |r.order| && i < |r.order|
    ensures Slot(r, i) == if r.cursor + i < |r.order| then r.cursor + i else r.cursor + i - |r.order|
  {
    Wraps(r.cursor + i, |r.order|);
  }

  /** No two slots of one round hold the same client. */
  lemma SlotDist(r: Rota, i: nat)
    requires RotaOk(r) && i < |r.order|
    ensures Dist(r, r.order[Slot(r, i)]) == i
  {
    SlotIs(r, i);
    PosIs(r.order, r.order[Slot(r, i)], Slot(r, i));
  }

  lemma DistSlot(r: Rota, a: AppId)
    requires RotaOk(r) && a in r.order
    ensures r.order[Slot(r, Dist(r, a))] == a
  {
    PosFound(r.order, a);
    SlotIs(r, Dist(r, a));
  }

  // ---- Steps ----

  datatype Step =
    | DoPick
    | DoOffer(app: AppId, work: Work)
    | DoRegister(app: AppId)
    | DoUnregister(app: AppId)
    | DoResume(app: AppId, existing: AppId)

  /** A new connection has a fresh identity, and a resumed one is not live elsewhere. */
  predicate Enabled(r: Rota, s: Step) {
    match s
    case DoOffer(app, _) => app in r.conns
    case DoRegister(app) => app !in r.conns
    case DoResume(app, existing) => app in r.conns && (existing == app || existing !in r.conns)
    case _ => true
  }

  function Next(r: Rota, s: Step): Rota {
    if !Enabled(r, s) then r
    else
      match s
      case DoPick => Pick(r).0
      case DoOffer(app, work) => r.(conns := r.conns[app := Offered(r.conns[app], work)])
      case DoRegister(app) => Register(r, app, Conn([], []))
      case DoUnregister(app) => Unregister(r, app)
      case DoResume(app, existing) => Resume(r, app, existing)
  }

  predicate Serves(r: Rota, s: Step, a: AppId) { s == DoPick && Pick(r).1.Some? && Pick(r).1.value.app == a }

  lemma NextOk(r: Rota, s: Step)
    requires RotaOk(r)
    ensures RotaOk(Next(r, s))
  {
    if Enabled(r, s) {
      match s
      case DoPick => PickOk(r);
      case DoOffer(app, work) =>
      case DoRegister(app) => RegisterOkIff(r, app, Conn([], []));
      case DoUnregister(app) => UnregisterOk(r, app);
      case DoResume(app, existing) => ResumeOkIff(r, app, existing);
    }
  }

  /** The step neither removes nor renames the client. */
  predicate Spares(s: Step, a: AppId) {
    s != DoUnregister(a) && !(s.DoResume? && (s.app == a || s.existing == a))
  }

  lemma UnregisterSpares(r: Rota, app: AppId, a: AppId)
    requires RotaOk(r) && app != a && a in r.conns
    ensures a in Unregister(r, app).conns && Unregister(r, app).conns[a] == r.conns[a] && a in Unregister(r, app).order
  {
    UnregisterOk(r, app);
  }

  lemma SparedStays(r: Rota, s: Step, a: AppId)
    requires RotaOk(r) && Spares(s, a) && a in r.conns
    ensures a in Next(r, s).conns && a in Next(r, s).order
    ensures r.conns[a] != Conn([], []) && !Serves(r, s, a) ==> Next(r, s).conns[a] != Conn([], [])
  {
    NextOk(r, s);
    if s.DoUnregister? { UnregisterSpares(r, s.app, a); }
  }

  // ---- Distances ----

  /** How far the cursor moves before its final step. */
  function Skipped(r: Rota): (k: nat)
    requires r.order != []
    ensures k < |r.order|
  {
    if Scan(r, 0) == |r.order| then 0 else Scan(r, 0)
  }

  lemma PickCursor(r: Rota)
    requires RotaOk(r) && r.order != []
    ensures var c := r.cursor + Skipped(r) + 1;
            Pick(r).0.cursor == if c < |r.order| then c else c - |r.order|
    ensures Pick(r).0.order == r.order
  {
    SlotIs(r, Skipped(r));
    Wraps(Slot(r, Skipped(r)) + 1, |r.order|);
    Wraps(r.cursor + 1, |r.order|);
  }

  lemma CyclicMoves(p: nat, c: nat, n: nat, k: nat)
    requires p < n && c < n && k < n
    ensures var c' := if c + k + 1 < n then c + k + 1 else c + k + 1 - n;
            Cyclic(p, c', n) == if Cyclic(p, c, n) > k then Cyclic(p, c, n) - k - 1 else Cyclic(p, c, n) + n - k - 1
  {}

  lemma PickMoves(r: Rota, a: AppId)
    requires RotaOk(r) && a in r.order
    ensures RotaOk(Pick(r).0) && Pick(r).0.order == r.order
    ensures var k := Skipped(r);
            Dist(Pick(r).0, a) == if Dist(r, a) > k then Dist(r, a) - k - 1 else Dist(r, a) + |r.order| - k - 1
  {
    PickOk(r);
    PosFound(r.order, a);
    PickCursor(r);
    CyclicMoves(Pos(r.order, a), r.cursor, |r.order|, Skipped(r));
  }

  /** The client served is a ready one at the least distance, and someone ready is always served. */
  lemma PickServesNearest(r: Rota, a: AppId)
    requires RotaOk(r) && a in r.order && r.conns[a] != Conn([], [])
    ensures Pick(r).1.Some? && Pick(r).1.value.app in r.order && r.conns[Pick(r).1.value.app] != Conn([], [])
    ensures Dist(r, Pick(r).1.value.app) == Skipped(r) <= Dist(r, a)
    ensures Skipped(r) == Dist(r, a) ==> Pick(r).1.value.app == a
  {
    DistSlot(r, a);
    assert ReadyAt(r, Dist(r, a));
    SlotDist(r, Scan(r, 0));
  }

  lemma RegisterMoves(r: Rota, app: AppId, a: AppId)
    requires RotaOk(r) && app !in r.conns && a in r.order
    ensures RotaOk(Register(r, app, Conn([], []))) && a in Register(r, app, Conn([], [])).order
    ensures Dist(Register(r, app, Conn([], [])), a) == Dist(r, a) + (if Pos(r.order, a) < r.cursor then 1 else 0)
  {
    var r' := Register(r, app, Conn([], []));
    RegisterOkIff(r, app, Conn([], []));
    PosFound(r.order, a);
    assert r'.order[Pos(r.order, a)] == a;
    PosIs(r'.order, a, Pos(r.order, a));
  }

  lemma UnregisterPos(r: Rota, app: AppId, a: AppId)
    requires RotaOk(r) && app != a && a in r.order && app in r.order
    ensures RotaOk(Unregister(r, app)) && a in Unregister(r, app).order
    ensures Pos(Unregister(r, app).order, a) == Pos(r.order, a) - (if Pos(r.order, a) > Pos(r.order, app) then 1 else 0)
  {
    var r' := Unregister(r, app);
    var i, p := Pos(r.order, app), Pos(r.order, a);
    UnregisterOk(r, app);
    PosFound(r.order, a);
    PosFound(r.order, app);
    var q := p - (if p > i then 1 else 0);
    assert r'.order[q] == a;
    PosIs(r'.order, a, q);
  }

  function CursorAfter(i: nat, c: nat, n: nat): nat
    requires n > 1
  {
    if c > i then c - 1 else if c == n - 1 then 0 else c
  }

  lemma UnregisterCursor(r: Rota, app: AppId)
    requires RotaOk(r) && app in r.order && |r.order| > 1
    ensures Unregister(r, app).cursor == CursorAfter(Pos(r.order, app), r.cursor, |r.order|)
    ensures |Unregister(r, app).order| == |r.order| - 1
  {
    PosFound(r.order, app);
    RemovedAt(r.order, Pos(r.order, app));
    Wraps(|r.order| - 1, |r.order| - 1);
  }

  lemma CyclicShrinks(p: nat, i: nat, c: nat, n: nat)
    requires p < n && i < n && c < n && p != i && n > 1
    ensures CursorAfter(i, c, n) < n - 1
    ensures Cyclic(p - (if p > i then 1 else 0), CursorAfter(i, c, n), n - 1)
            == Cyclic(p, c, n) - (if Cyclic(i, c, n) < Cyclic(p, c, n) then 1 else 0)
  {}

  lemma UnregisterDist(r: Rota, app: AppId, a: AppId, p: nat, i: nat, n: nat)
    requires RotaOk(r) && a in r.order && app in r.order && app != a && |r.order| == n > 1
    requires p == Pos(r.order, a) < n && i == Pos(r.order, app) < n && CursorAfter(i, r.cursor, n) < n - 1
    ensures RotaOk(Unregister(r, app)) && a in Unregister(r, app).order
    ensures Dist(Unregister(r, app), a) == Cyclic(p - (if p > i then 1 else 0), CursorAfter(i, r.cursor, n), n - 1)
  {
    UnregisterPos(r, app, a);
    UnregisterCursor(r, app);
    DistIs(Unregister(r, app), a, p - (if p > i then 1 else 0), CursorAfter(i, r.cursor, n), n - 1);
  }

  /** Removing another client brings this one a slot nearer if the other stood before it, and changes nothing otherwise. */
  lemma UnregisterMoves(r: Rota, app: AppId, a: AppId)
    requires RotaOk(r) && app != a && a in r.order && app in r.order
    ensures RotaOk(Unregister(r, app)) && a in Unregister(r, app).order
    ensures Dist(Unregister(r, app), a) == Dist(r, a) - (if Dist(r, app) < Dist(r, a) then 1 else 0)
  {
    var p, i, n := Pos(r.order, a), Pos(r.order, app), |r.order|;
    PosFound(r.order, a);
    PosFound(r.order, app);
    CyclicShrinks(p, i, r.cursor, n);
    UnregisterDist(r, app, a, p, i, n);
  }

  lemma ResumeMoves(r: Rota, app: AppId, existing: AppId, a: AppId)
    requires RotaOk(r) && Enabled(r, DoResume(app, existing)) && app != a && existing != a && a in r.order
    ensures RotaOk(Resume(r, app, existing)) && a in Resume(r, app, existing).order
    ensures Dist(Resume(r, app, existing), a) == Dist(r, a)
  {
    var r' := Resume(r, app, existing);
    ResumeOkIff(r, app, existing);
    PosFound(r.order, a);
    assert r'.order[Pos(r.order, a)] == a;
    PosIs(r'.order, a, Pos(r.order, a));
  }

  /** Absent clients leave nothing behind when they unregister. */
  lemma UnregisterAbsent(r: Rota, app: AppId)
    requires RotaOk(r) && app !in r.conns
    ensures Unregister(r, app) == r
  {
    assert r.conns - {app} == r.conns;
  }

  // ---- Served within a round ----

  /** How much later than now the client may still come, after a step that does not serve it. */
  predicate Nearer(r: Rota, s: Step, a: AppId, d: nat, d': nat) {
    match s
    case DoPick => d' < d
    case DoRegister(_) => d' <= d + 1
    case _ => d' <= d
  }

  lemma StepNearer(r: Rota, s: Step, a: AppId)
    requires RotaOk(r) && Spares(s, a) && a in r.conns && r.conns[a] != Conn([], []) && !Serves(r, s, a)
    ensures RotaOk(Next(r, s)) && a in Next(r, s).order
    ensures Nearer(r, s, a, Dist(r, a), Dist(Next(r, s), a))
  {
    NextOk(r, s);
    SparedStays(r, s, a);
    if Enabled(r, s) {
      match s
      case DoPick =>
        PickServesNearest(r, a);
        PickMoves(r, a);
      case DoOffer(app, work) =>
      case DoRegister(app) => RegisterMoves(r, app, a);
      case DoUnregister(app) => if app in r.conns { UnregisterMoves(r, app, a); } else { UnregisterAbsent(r, app); }
      case DoResume(app, existing) => ResumeMoves(r, app, existing, a);
    }
  }

  function Run(r: Rota, steps: seq<Step>): Rota
    decreases |steps|
  {
    if steps == [] then r else Run(Next(r, steps[0]), steps[1..])
  }

  function Count(steps: seq<Step>, p: Step -> bool): nat {
    if steps == [] then 0 else (if p(steps[0]) then 1 else 0) + Count(steps[1..], p)
  }

  function Picks(steps: seq<Step>): nat { Count(steps, (s: Step) => s == DoPick) }

  function Joins(steps: seq<Step>): nat { Count(steps, (s: Step) => s.DoRegister?) }

  /** How often the run serves the client. */
  function Served(r: Rota, steps: seq<Step>, a: AppId): nat
    decreases |steps|
  {
    if steps == [] then 0 else (if Serves(r, steps[0], a) then 1 else 0) + Served(Next(r, steps[0]), steps[1..], a)
  }

  predicate AllSpare(steps: seq<Step>, a: AppId) { forall i :: 0 <= i < |steps| ==> Spares(steps[i], a) }

  /**
   A client with work is served at the latest by the pick whose number exceeds its distance, however the others
   come, go, resume and queue work meanwhile; each client that joins can cost it one pick.
   */
  lemma {:induction false} ServedInTime(r: Rota, steps: seq<Step>, a: AppId)
    requires RotaOk(r) && a in r.conns && r.conns[a] != Conn([], []) && AllSpare(steps, a)
    requires Picks(steps) > Dist(r, a) + Joins(steps)
    ensures Served(r, steps, a) > 0
    decreases |steps|
  {
    var s, rest := steps[0], steps[1..];
    if !Serves(r, s, a) {
      StepNearer(r, s, a);
      SparedStays(r, s, a);
      AllSpareRest(steps, a);
      ServedInTime(Next(r, s), rest, a);
    }
  }

  /** With the membership fixed, `n` picks are enough for everyone who has work. */
  lemma ServedWithinRound(r: Rota, steps: seq<Step>, a: AppId)
    requires RotaOk(r) && a in r.conns && r.conns[a] != Conn([], [])
    requires forall i :: 0 <= i < |steps| ==> steps[i].DoPick? || steps[i].DoOffer?
    requires Picks(steps) >= |r.order|
    ensures Served(r, steps, a) > 0
  {
    NoJoins(steps);
    ServedInTime(r, steps, a);
  }

  lemma {:induction false} NoJoins(steps: seq<Step>)
    requires forall i :: 0 <= i < |steps| ==> steps[i].DoPick? || steps[i].DoOffer?
    ensures Joins(steps) == 0
  {
    if steps != [] {
      assert forall i :: 0 <= i < |steps[1..]| ==> steps[1..][i] == steps[i + 1];
      NoJoins(steps[1..]);
    }
  }

  // ---- Two busy clients share alike ----

  /** Both clients are connected and have work before every step of the run. */
  ghost predicate BothBusy(r: Rota, steps: seq<Step>, a: AppId, b: AppId)
    decreases |steps|
  {
    steps == []
    || ((a in r.conns && b in r.conns && r.conns[a] != Conn([], []) && r.conns[b] != Conn([], []))
        && BothBusy(Next(r, steps[0]), steps[1..], a, b))
  }

  lemma PickKeepsOrder(r: Rota, a: AppId, b: AppId)
    requires RotaOk(r) && a in r.conns && b in r.conns && r.conns[a] != Conn([], []) && Dist(r, a) < Dist(r, b)
    ensures RotaOk(Pick(r).0) && Pick(r).0.order == r.order && !Serves(r, DoPick, b)
    ensures Dist(Pick(r).0, a) < Dist(Pick(r).0, b) <==> !Serves(r, DoPick, a)
  {
    PickServesNearest(r, a);
    PickMoves(r, a);
    PickMoves(r, b);
  }

  lemma RegisterKeepsOrder(r: Rota, app: AppId, a: AppId, b: AppId)
    requires RotaOk(r) && app !in r.conns && a in r.order && b in r.order && Dist(r, a) < Dist(r, b)
    ensures var r' := Register(r, app, Conn([], []));
            RotaOk(r') && a in r'.order && b in r'.order && Dist(r', a) < Dist(r', b)
  {
    RegisterMoves(r, app, a);
    RegisterMoves(r, app, b);
    PosFound(r.order, a);
    PosFound(r.order, b);
  }

  lemma UnregisterKeepsOrder(r: Rota, app: AppId, a: AppId, b: AppId)
    requires RotaOk(r) && app in r.conns && app != a && app != b && a in r.order && b in r.order && Dist(r, a) < Dist(r, b)
    ensures var r' := Unregister(r, app);
            RotaOk(r') && a in r'.order && b in r'.order && Dist(r', a) < Dist(r', b)
  {
    UnregisterMoves(r, app, a);
    UnregisterMoves(r, app, b);
    if Dist(r, app) < Dist(r, b) && Dist(r, b) == Dist(r, a) + 1 {
      DistinctDist(r, app, a);
    }
  }

  lemma OtherKeepsOrder(r: Rota, s: Step, a: AppId, b: AppId)
    requires RotaOk(r) && Spares(s, a) && Spares(s, b) && s != DoPick
    requires a in r.order && b in r.order && Dist(r, a) < Dist(r, b)
    ensures var r' := Next(r, s);
            RotaOk(r') && a in r'.order && b in r'.order && Dist(r', a) < Dist(r', b)
  {
    NextOk(r, s);
    if Enabled(r, s) {
      match s
      case DoOffer(app, work) =>
      case DoRegister(app) => RegisterKeepsOrder(r, app, a, b);
      case DoUnregister(app) => if app in r.conns { UnregisterKeepsOrder(r, app, a, b); } else { UnregisterAbsent(r, app); }
      case DoResume(app, existing) => ResumeMoves(r, app, existing, a); ResumeMoves(r, app, existing, b);
    }
  }

  lemma DistinctDist(r: Rota, a: AppId, b: AppId)
    requires RotaOk(r) && a in r.order && b in r.order && a != b
    ensures Dist(r, a) != Dist(r, b)
  {
    DistSlot(r, a);
    DistSlot(r, b);
  }

  lemma StepKeepsOrder(r: Rota, s: Step, a: AppId, b: AppId)
    requires RotaOk(r) && Spares(s, a) && Spares(s, b)
    requires a in r.conns && b in r.conns && r.conns[a] != Conn([], []) && Dist(r, a) < Dist(r, b)
    ensures RotaOk(Next(r, s)) && a in Next(r, s).order && b in Next(r, s).order && !Serves(r, s, b)
    ensures Dist(Next(r, s), a) < Dist(Next(r, s), b) <==> !Serves(r, s, a)
  {
    if s == DoPick { PickKeepsOrder(r, a, b); } else { OtherKeepsOrder(r, s, a, b); }
  }

  lemma {:induction false} NearerLeads(r: Rota, steps: seq<Step>, a: AppId, b: AppId)
    requires RotaOk(r) && a != b && AllSpare(steps, a) && AllSpare(steps, b) && BothBusy(r, steps, a, b)
    requires a in r.order && b in r.order && Dist(r, a) < Dist(r, b)
    ensures Served(r, steps, b) <= Served(r, steps, a) <= Served(r, steps, b) + 1
    decreases |steps|
  {
    if steps != [] {
      var s, rest := steps[0], steps[1..];
      StepKeepsOrder(r, s, a, b);
      AllSpareRest(steps, a);
      AllSpareRest(steps, b);
      if Serves(r, s, a) {
        DistinctDist(Next(r, s), a, b);
        SwapBusy(Next(r, s), rest, a, b);
        NearerLeads(Next(r, s), rest, b, a);
      } else {
        NearerLeads(Next(r, s), rest, a, b);
      }
    }
  }

  lemma AllSpareRest(steps: seq<Step>, a: AppId)
    requires steps != [] && AllSpare(steps, a)
    ensures Spares(steps[0], a) && AllSpare(steps[1..], a)
  {
    assert forall i :: 0 <= i < |steps[1..]| ==> steps[1..][i] == steps[i + 1];
  }

  /** Over any window in which two clients both have work, the scheduler serves neither more than once oftener. */
  lemma BusyClientsShareAlike(r: Rota, steps: seq<Step>, a: AppId, b: AppId)
    requires RotaOk(r) && a in r.order && b in r.order && a != b
    requires AllSpare(steps, a) && AllSpare(steps, b) && BothBusy(r, steps, a, b)
    ensures -1 <= Served(r, steps, a) - Served(r, steps, b) <= 1
  {
    DistinctDist(r, a, b);
    if Dist(r, a) < Dist(r, b) {
      NearerLeads(r, steps, a, b);
    } else {
      SwapBusy(r, steps, a, b);
      NearerLeads(r, steps, b, a);
    }
  }

  lemma {:induction false} SwapBusy(r: Rota, steps: seq<Step>, a: AppId, b: AppId)
    requires BothBusy(r, steps, a, b)
    ensures BothBusy(r, steps, b, a)
    decreases |steps|
  {
    if steps != [] { SwapBusy(Next(r, steps[0]), steps[1..], a, b); }
  }
}

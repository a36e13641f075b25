/** No interleaving gets stuck: some thread can always take a step until all have finished, and not for long. */
module BoxProgress {
  import opened BoxStore
  import opened BoxLock
  import opened BoxWriters

  /** The steps of the threads that are there already: no arrival, no clock, no collector. */
  predicate ThreadStep(a: Action) { a.OnLock? || a.ReadClock? || a.CheckEpoch? || a.PutValue? }

  function Actor(a: Action): Tid
    requires ThreadStep(a)
  {
    match a
    case OnLock(t, _) => t
    case ReadClock(t) => t
    case CheckEpoch(t) => t
    case PutValue(t) => t
  }

  /** Only writes look anything up. */
  ghost predicate Looking(m: Machine) {
    forall t :: t in m.jobs && m.jobs[t].work.Checking? ==> m.jobs[t].req.WriteBox?
  }

  ghost predicate Steady(m: Machine) { Good(m) && Looking(m) }

  lemma NextIsLooking(m: Machine, a: Action)
    requires Looking(m)
    ensures Looking(Next(m, a))
  {}

  lemma NextIsSteady(m: Machine, a: Action)
    requires Steady(m)
    ensures Steady(Next(m, a))
  {
    NextIsGood(m, a);
    NextIsLooking(m, a);
  }

  lemma {:induction false} RunIsSteady(m: Machine, actions: seq<Action>)
    requires Steady(m)
    ensures Steady(RunFrom(m, actions))
    decreases |actions|
  {
    if actions != [] {
      NextIsSteady(m, actions[0]);
      RunIsSteady(Next(m, actions[0]), actions[1..]);
    }
  }

  // ---- Some step is enabled ----

  ghost predicate CanStep(m: Machine) { exists a :: ThreadStep(a) && Enabled(m, a) }

  ghost predicate Unfinished(m: Machine, t: Tid) { t in m.jobs && !In(m.locks, t, Finished) }

  lemma LockCounted(l: Locks<BoxID>, t: Tid)
    requires BoxLock.Inv(l) && t in l.seats && Attached(l.seats[t].phase)
    ensures l.seats[t].lock in l.refs
  {
    assert Live(l, l.seats[t].box);
  }

  lemma InsideSteps(m: Machine, t: Tid)
    requires Seated(m) && Looking(m) && In(m.locks, t, Critical)
    ensures CanStep(m)
  {
    match m.jobs[t].work
    case NotStarted => assert ThreadStep(ReadClock(t)) && Enabled(m, ReadClock(t));
    case Checking(_, _) => assert ThreadStep(CheckEpoch(t)) && Enabled(m, CheckEpoch(t));
    case Putting(_) => assert ThreadStep(PutValue(t)) && Enabled(m, PutValue(t));
    case Decided(_) => assert ThreadStep(OnLock(t, Release)) && Enabled(m, OnLock(t, Release));
  }

  lemma MoveSteps(m: Machine, t: Tid, move: Move)
    requires t in m.jobs && move != Release && CanMove(m.locks, t, move)
    ensures CanStep(m)
  {
    assert ThreadStep(OnLock(t, move)) && Enabled(m, OnLock(t, move));
  }

  /** Whoever holds the table mutex goes on; else the holder of the box lock, or the thread itself. */
  lemma SomeoneSteps(m: Machine, t: Tid)
    requires Steady(m) && Unfinished(m, t)
    ensures CanStep(m)
  {
    var l := m.locks;
    if l.locksMu.Some? {
      var u := l.locksMu.value;
      LockCounted(l, u);
      MoveSteps(m, u, if In(l, u, Looked) then Count else Reclaim);
    } else {
      match l.seats[t].phase
      case Idle => MoveSteps(m, t, LookUp);
      case Waiting =>
        if l.seats[t].lock in l.holder { InsideSteps(m, l.holder[l.seats[t].lock]); } else { MoveSteps(m, t, Acquire); }
      case Critical => InsideSteps(m, t);
      case Unlocked =>
        LockCounted(l, t);
        MoveSteps(m, t, Uncount);
      case _ => assert false;
    }
  }

  /** In every reachable state, as long as any thread has not finished, some thread can take its next step. */
  lemma NoDeadlock(actions: seq<Action>, t: Tid)
    requires Unfinished(RunFrom(START, actions), t)
    ensures CanStep(RunFrom(START, actions))
  {
    ReachedIsSteady(actions);
    SomeoneSteps(RunFrom(START, actions), t);
  }

  // ---- And only so many ----

  /** How many steps a thread has before it at most. */
  function Left(p: Phase, w: Work): nat {
    match p
    case Idle => 11
    case Looked => 10
    case Waiting => 9
    case Critical =>
      (match w
       case NotStarted => 8
       case Checking(current, looked) => if looked <= |KeptEpochs(current)| then 5 + |KeptEpochs(current)| - looked else 5
       case Putting(_) => 4
       case Decided(_) => 3)
    case Unlocked => 2
    case Dropped => 1
    case Finished => 0
  }

  function LeftOf(m: Machine, t: Tid): nat { if t in m.jobs && t in m.locks.seats then Left(m.locks.seats[t].phase, m.jobs[t].work) else 0 }

  ghost function Sum(m: Machine, ts: set<Tid>): nat {
    if ts == {} then 0 else var t :| t in ts; LeftOf(m, t) + Sum(m, ts - {t})
  }

  lemma {:induction false} SumWithout(m: Machine, ts: set<Tid>, t: Tid)
    requires t in ts
    ensures Sum(m, ts) == LeftOf(m, t) + Sum(m, ts - {t})
    decreases |ts|
  {
    var u :| u in ts && Sum(m, ts) == LeftOf(m, u) + Sum(m, ts - {u});
    if u != t {
      SumWithout(m, ts - {u}, t);
      SumWithout(m, ts - {t}, u);
      assert ts - {u} - {t} == ts - {t} - {u};
    }
  }

  lemma {:induction false} SumSame(m: Machine, m': Machine, ts: set<Tid>)
    requires forall t :: t in ts ==> LeftOf(m', t) == LeftOf(m, t)
    ensures Sum(m', ts) == Sum(m, ts)
    decreases |ts|
  {
    if ts != {} {
      var t :| t in ts;
      SumSame(m, m', ts - {t});
      SumWithout(m, ts, t);
      SumWithout(m', ts, t);
    }
  }

  /** The step brings its thread nearer to its end and leaves the others where they are. */
  ghost predicate UsesOne(m: Machine, m': Machine, t: Tid) {
    && t in m.jobs && m'.jobs.Keys == m.jobs.Keys && LeftOf(m', t) < LeftOf(m, t)
    && forall u :: u != t ==> LeftOf(m', u) == LeftOf(m, u)
  }

  lemma SameSeats(l: Locks<BoxID>, t: Tid, move: Move, u: Tid)
    requires CanMove(l, t, move) && u != t
    ensures var l' := DoMove(l, t, move); (u in l'.seats <==> u in l.seats) && (u in l'.seats ==> l'.seats[u] == l.seats[u])
  {}

  lemma NextPhase(l: Locks<BoxID>, t: Tid, move: Move)
    requires CanMove(l, t, move)
    ensures t in DoMove(l, t, move).seats
    ensures DoMove(l, t, move).seats[t].phase ==
            match move
            case LookUp => Looked
            case Count => Waiting
            case Acquire => Critical
            case Release => Unlocked
            case Uncount => Dropped
            case Reclaim => Finished
  {}

  lemma MoveUsesOne(m: Machine, t: Tid, move: Move)
    requires Enabled(m, OnLock(t, move))
    ensures UsesOne(m, Next(m, OnLock(t, move)), t)
  {
    var m' := Next(m, OnLock(t, move));
    NextPhase(m.locks, t, move);
    forall u | u != t ensures LeftOf(m', u) == LeftOf(m, u) { SameSeats(m.locks, t, move, u); }
  }

  lemma WorkUsesOne(m: Machine, m': Machine, t: Tid)
    requires Worker(m, m', t) && Left(Critical, m'.jobs[t].work) < Left(Critical, m.jobs[t].work)
    ensures UsesOne(m, m', t)
  {}

  lemma CheckUsesOne(m: Machine, t: Tid)
    requires Enabled(m, CheckEpoch(t)) && Fresh(m.db, m.jobs[t])
    ensures UsesOne(m, CheckStep(m, t), t)
  {
    WorkUsesOne(m, CheckStep(m, t), t);
  }

  lemma PutUsesOne(m: Machine, t: Tid)
    requires Enabled(m, PutValue(t))
    ensures UsesOne(m, PutStep(m, t), t)
  {
    WorkUsesOne(m, PutStep(m, t), t);
  }

  lemma StepUsesOne(m: Machine, a: Action)
    requires Unspoiled(m) && ThreadStep(a) && Enabled(m, a)
    ensures UsesOne(m, Next(m, a), Actor(a))
  {
    match a
    case OnLock(t, move) => MoveUsesOne(m, t, move);
    case ReadClock(t) => WorkUsesOne(m, Next(m, a), t);
    case CheckEpoch(t) => CheckUsesOne(m, t);
    case PutValue(t) => PutUsesOne(m, t);
  }

  lemma StepShrinks(m: Machine, a: Action)
    requires Steady(m) && ThreadStep(a) && Enabled(m, a)
    ensures Sum(Next(m, a), Next(m, a).jobs.Keys) < Sum(m, m.jobs.Keys)
  {
    var t, ts := Actor(a), m.jobs.Keys;
    StepUsesOne(m, a);
    SumWithout(m, ts, t);
    SumWithout(Next(m, a), ts, t);
    SumSame(m, Next(m, a), ts - {t});
  }

  ghost predicate ThreadRun(m: Machine, actions: seq<Action>)
    decreases |actions|
  {
    actions == [] || (ThreadStep(actions[0]) && Enabled(m, actions[0]) && ThreadRun(Next(m, actions[0]), actions[1..]))
  }

  lemma {:induction false} RunIsShort(m: Machine, actions: seq<Action>)
    requires Steady(m) && ThreadRun(m, actions)
    ensures Sum(RunFrom(m, actions), RunFrom(m, actions).jobs.Keys) + |actions| <= Sum(m, m.jobs.Keys)
    decreases |actions|
  {
    if actions != [] {
      StepShrinks(m, actions[0]);
      NextIsSteady(m, actions[0]);
      RunIsShort(Next(m, actions[0]), actions[1..]);
    }
  }

  lemma {:induction false} SumBound(m: Machine, ts: set<Tid>)
    ensures Sum(m, ts) <= 11 * |ts|
    decreases |ts|
  {
    if ts != {} {
      var t :| t in ts && Sum(m, ts) == LeftOf(m, t) + Sum(m, ts - {t});
      SumBound(m, ts - {t});
      assert |ts - {t}| == |ts| - 1 && LeftOf(m, t) <= 11;
    }
  }

  lemma ReachedIsSteady(actions: seq<Action>)
    ensures Steady(RunFrom(START, actions))
  {
    StartIsGood();
    RunIsSteady(START, actions);
  }

  lemma StuckIsFinished(m: Machine)
    requires Steady(m) && !CanStep(m)
    ensures forall t :: t in m.jobs ==> In(m.locks, t, Finished)
  {
    forall t | t in m.jobs ensures In(m.locks, t, Finished) {
      if Unfinished(m, t) { SomeoneSteps(m, t); }
    }
  }

  /**
   From every reachable state, however the threads that are there are scheduled, they take at most eleven steps each, and
   when none of them can take another one they have all finished.
   */
  lemma AllFinish(before: seq<Action>, actions: seq<Action>)
    requires ThreadRun(RunFrom(START, before), actions)
    ensures var m, m' := RunFrom(START, before), RunFrom(RunFrom(START, before), actions);
            |actions| <= 11 * |m.jobs| && (!CanStep(m') ==> forall t :: t in m'.jobs ==> In(m'.locks, t, Finished))
  {
    var m := RunFrom(START, before);
    ReachedIsSteady(before);
    RunIsShort(m, actions);
    SumBound(m, m.jobs.Keys);
    RunIsSteady(m, actions);
    if !CanStep(RunFrom(m, actions)) { StuckIsFinished(RunFrom(m, actions)); }
  }
}

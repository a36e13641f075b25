/**
 Concurrent writers of the box store. Taking and leaving the lock, reading the clock, each database read and
 each database write of every thread are separate steps, and the epoch and the collector move in between.
 */
module BoxWriters {
  import opened Bytes
  import opened BoxStore
  import opened BoxLock
  import opened Trunnel

  datatype Request = WriteBox(command: Command) | BuryBox(boxID: BoxID, signature: Signature) {
    function Box(): BoxID { if WriteBox? then command.boxID else boxID }
  }

  /** Progress inside the critical section. */
  datatype Work =
    | NotStarted
    | Checking(current: Epoch, looked: nat)    // the first `looked` kept epochs hold nothing
    | Putting(current: Epoch)
    | Decided(result: WriteResult)

  datatype Job = Job(req: Request, work: Work)

  datatype Commit =
    | Stored(tid: Tid, command: Command, current: Epoch, result: WriteResult)
    | Buried(tid: Tid, boxID: BoxID, signature: Signature, current: Epoch)
    | Collected(current: Epoch)

  datatype Machine = Machine(
    locks: Locks<BoxID>,
    jobs: map<Tid, Job>,
    db: Db,
    clock: Epoch,
    history: seq<Commit>)             // what took effect, in order

  const START := Machine(NoLocks(), map[], map[], 0, [])

  datatype Action =
    | Spawn(t: Tid, req: Request)
    | OnLock(t: Tid, move: Move)
    | ReadClock(t: Tid)
    | CheckEpoch(t: Tid)
    | PutValue(t: Tid)
    | Tick(now: Epoch)
    | Collect

  predicate Enabled(m: Machine, a: Action) {
    match a
    case Spawn(t, _) => t !in m.locks.seats && t !in m.jobs
    case OnLock(t, move) =>
      CanMove(m.locks, t, move) && t in m.jobs && (move == Release ==> m.jobs[t].work.Decided?)
    case ReadClock(t) => In(m.locks, t, Critical) && t in m.jobs && m.jobs[t].work == NotStarted
    case CheckEpoch(t) => In(m.locks, t, Critical) && t in m.jobs && m.jobs[t].work.Checking? && m.jobs[t].req.WriteBox?
    case PutValue(t) => In(m.locks, t, Critical) && t in m.jobs && m.jobs[t].work.Putting?
    case Tick(now) => m.clock <= now
    case Collect => true
  }

  function Worked(m: Machine, t: Tid, w: Work): Machine
    requires t in m.jobs
  {
    m.(jobs := m.jobs[t := m.jobs[t].(work := w)])
  }

  function CheckStep(m: Machine, t: Tid): Machine
    requires Enabled(m, CheckEpoch(t))
  {
    var c, current, looked := m.jobs[t].req.command, m.jobs[t].work.current, m.jobs[t].work.looked;
    if looked >= |KeptEpochs(current)| then Worked(m, t, Putting(current))
    else
      var existing := At(m.db, KeptEpochs(current)[looked], c.boxID);
      if existing == Absent then Worked(m, t, Checking(current, looked + 1))
      else
        var verdict := Verdict(existing, c);
        Worked(m, t, Decided(verdict)).(history := m.history + [Commit.Stored(t, c, current, verdict)])
  }

  function PutStep(m: Machine, t: Tid): Machine
    requires Enabled(m, PutValue(t))
  {
    var current := m.jobs[t].work.current;
    match m.jobs[t].req
    case WriteBox(c) =>
      Worked(m, t, Decided(Accepted)).(db := Put(m.db, current, c.boxID, c.payload, c.signature),
                                       history := m.history + [Commit.Stored(t, c, current, Accepted)])
    case BuryBox(b, s) =>
      Worked(m, t, Decided(Accepted)).(db := Tombstone(m.db, current, b, s),
                                       history := m.history + [Buried(t, b, s, current)])
  }

  /** One step; an action that is not enabled leaves the machine alone. */
  function Next(m: Machine, a: Action): Machine {
    if !Enabled(m, a) then m
    else
      match a
      case Spawn(t, req) => m.(locks := Arrive(m.locks, t, req.Box()), jobs := m.jobs[t := Job(req, NotStarted)])
      case OnLock(t, move) => m.(locks := DoMove(m.locks, t, move))
      case ReadClock(t) =>
        Worked(m, t, if m.jobs[t].req.WriteBox? then Checking(m.clock, 0) else Putting(m.clock))
      case CheckEpoch(t) => CheckStep(m, t)
      case PutValue(t) => PutStep(m, t)
      case Tick(now) => m.(clock := now)
      case Collect => m.(db := Wipe(m.db, m.clock), history := m.history + [Collected(m.clock)])
  }

  function RunFrom(m: Machine, actions: seq<Action>): Machine
    decreases |actions|
  {
    if actions == [] then m else RunFrom(Next(m, actions[0]), actions[1..])
  }

  // ---- The sequential execution behind a run ----

  function Apply(db: Db, c: Commit): Db {
    match c
    case Stored(_, command, current, _) => Write(db, current, command).0
    case Buried(_, b, s, current) => Tombstone(db, current, b, s)
    case Collected(current) => Wipe(db, current)
  }

  /** The answer the commit records is the one the operation gets when executed alone on `db`. */
  predicate Rightly(db: Db, c: Commit) {
    c.Stored? ==> c.result == Write(db, c.current, c.command).1
  }

  /** The database after executing the committed operations one after the other, each in one piece. */
  function Replay(h: seq<Commit>): Db {
    if h == [] then map[] else Apply(Replay(h[..|h| - 1]), h[|h| - 1])
  }

  predicate Legal(h: seq<Commit>) {
    h == [] || (Legal(h[..|h| - 1]) && Rightly(Replay(h[..|h| - 1]), h[|h| - 1]))
  }

  lemma Extend(h: seq<Commit>, c: Commit)
    ensures Replay(h + [c]) == Apply(Replay(h), c)
    ensures Legal(h + [c]) <==> Legal(h) && Rightly(Replay(h), c)
  {
    assert (h + [c])[..|h|] == h;
  }

  // ---- The invariant ----

  ghost predicate Seated(m: Machine) {
    && m.jobs.Keys == m.locks.seats.Keys
    && forall t :: t in m.jobs ==> m.locks.seats[t].box == m.jobs[t].req.Box()
  }

  ghost predicate NothingStored(db: Db, current: Epoch, looked: nat, b: BoxID) {
    && (looked >= 1 ==> At(db, current, b) == Absent)
    && (looked >= 2 && current > 0 ==> At(db, current - 1, b) == Absent)
  }

  /** What a writer has seen is still so. */
  ghost predicate Fresh(db: Db, j: Job) {
    match j.work
    case Checking(current, looked) => looked <= |KeptEpochs(current)| && NothingStored(db, current, looked, j.req.Box())
    case Putting(current) => j.req.WriteBox? ==> NothingStored(db, current, 2, j.req.Box())
    case _ => true
  }

  ghost predicate Unspoiled(m: Machine) {
    forall t :: t in m.jobs && In(m.locks, t, Critical) ==> Fresh(m.db, m.jobs[t])
  }

  predicate Records(c: Commit, t: Tid, req: Request, result: WriteResult) {
    match req
    case WriteBox(command) => c.Stored? && c.tid == t && c.command == command && c.result == result
    case BuryBox(b, s) => c.Buried? && c.tid == t && c.boxID == b && c.signature == s && result == Accepted
  }

  predicate Committed(h: seq<Commit>, t: Tid, req: Request, result: WriteResult) {
    exists i :: 0 <= i < |h| && Records(h[i], t, req, result)
  }

  ghost predicate Answered(m: Machine) {
    && (forall t :: t in m.jobs && m.jobs[t].work.Decided? ==>
          Committed(m.history, t, m.jobs[t].req, m.jobs[t].work.result))
    && (forall t :: t in m.jobs && (In(m.locks, t, Unlocked) || In(m.locks, t, Dropped) || In(m.locks, t, Finished)) ==>
          m.jobs[t].work.Decided?)
    && (forall t :: t in m.jobs && (In(m.locks, t, Idle) || In(m.locks, t, Looked) || In(m.locks, t, Waiting)) ==>
          m.jobs[t].work == NotStarted)
  }

  ghost predicate Sequential(m: Machine) {
    m.db == Replay(m.history) && Legal(m.history)
  }

  ghost predicate Good(m: Machine) {
    BoxLock.Inv(m.locks) && Seated(m) && Unspoiled(m) && Answered(m) && Sequential(m)
  }

  lemma HistoryGrows(h: seq<Commit>, c: Commit)
    ensures forall t, req, result | Committed(h, t, req, result) :: Committed(h + [c], t, req, result)
  {
    forall t, req, result | Committed(h, t, req, result) ensures Committed(h + [c], t, req, result) {
      var i :| 0 <= i < |h| && Records(h[i], t, req, result);
      assert (h + [c])[i] == h[i];
    }
  }

  lemma Recorded(h: seq<Commit>, c: Commit, t: Tid, req: Request, result: WriteResult)
    requires Records(c, t, req, result)
    ensures Committed(h + [c], t, req, result)
  {
    assert (h + [c])[|h|] == c;
  }

  /** `m'` differs from `m` in what thread `t` has done inside its critical section. */
  ghost predicate Worker(m: Machine, m': Machine, t: Tid) {
    && t in m.jobs && t in m'.jobs && In(m.locks, t, Critical) && m'.locks == m.locks
    && m'.jobs == m.jobs[t := m'.jobs[t]] && m'.jobs[t].req == m.jobs[t].req
  }

  lemma WorkerSeated(m: Machine, m': Machine, t: Tid)
    requires Seated(m) && Worker(m, m', t)
    ensures Seated(m')
  {}

  /** A step that decides thread `t` by committing `c`: everyone's answer is on record. */
  lemma DecisionAnswered(m: Machine, m': Machine, t: Tid, c: Commit)
    requires Answered(m) && Worker(m, m', t) && m'.history == m.history + [c]
    requires m'.jobs[t].work.Decided? && Records(c, t, m.jobs[t].req, m'.jobs[t].work.result)
    ensures Answered(m')
  {
    HistoryGrows(m.history, c);
    Recorded(m.history, c, t, m.jobs[t].req, m'.jobs[t].work.result);
  }

  lemma UndecidedAnswered(m: Machine, m': Machine, t: Tid)
    requires Answered(m) && Worker(m, m', t) && m'.history == m.history && !m'.jobs[t].work.Decided?
    ensures Answered(m')
  {}

  lemma WorkerUnspoiled(m: Machine, m': Machine, t: Tid)
    requires Worker(m, m', t) && Fresh(m'.db, m'.jobs[t])
    requires forall u :: u in m.jobs && u != t && In(m.locks, u, Critical) ==> Fresh(m'.db, m.jobs[u])
    ensures Unspoiled(m')
  {}

  lemma LookupStopsAt(db: Db, current: Epoch, looked: nat, b: BoxID)
    requires looked <= |KeptEpochs(current)| && NothingStored(db, current, looked, b)
    ensures looked == |KeptEpochs(current)| ==> Lookup(db, KeptEpochs(current), b) == Absent
    ensures looked < |KeptEpochs(current)| ==>
              var s := At(db, KeptEpochs(current)[looked], b);
              && (s != Absent ==> Lookup(db, KeptEpochs(current), b) == s)
              && (s == Absent ==> NothingStored(db, current, looked + 1, b))
  {
    LookupKept(db, current, b);
  }

  lemma CheckIsGood(m: Machine, t: Tid)
    requires Good(m) && Enabled(m, CheckEpoch(t))
    ensures Good(Next(m, CheckEpoch(t)))
  {
    var m', j := CheckStep(m, t), m.jobs[t];
    assert Fresh(m.db, j);
    LookupStopsAt(m.db, j.work.current, j.work.looked, j.req.Box());
    WorkerSeated(m, m', t);
    WorkerUnspoiled(m, m', t);
    if m'.jobs[t].work.Decided? {
      var c := Commit.Stored(t, j.req.command, j.work.current, m'.jobs[t].work.result);
      Extend(m.history, c);
      DecisionAnswered(m, m', t, c);
    } else {
      UndecidedAnswered(m, m', t);
    }
  }

  lemma PutElsewhere(db: Db, current: Epoch, b: BoxID, payload: Bytes, s: Signature, c: BoxID)
    requires b != c
    ensures forall e: Epoch :: At(Put(db, current, b, payload, s), e, c) == At(db, e, c)
  {
    forall e: Epoch ensures At(Put(db, current, b, payload, s), e, c) == At(db, e, c) {
      BoxKeyInjective(current, b, e, c);
    }
  }

  /** The lock at work: a put spoils nobody else's findings, since nobody else is inside for that box. */
  lemma PutSpoilsNothing(m: Machine, t: Tid, payload: Bytes, s: Signature, u: Tid)
    requires BoxLock.Inv(m.locks) && Seated(m) && Unspoiled(m) && Enabled(m, PutValue(t))
    requires u in m.jobs && u != t && In(m.locks, u, Critical)
    ensures Fresh(Put(m.db, m.jobs[t].work.current, m.jobs[t].req.Box(), payload, s), m.jobs[u])
  {
    InvExcludes(m.locks);
    assert m.jobs[u].req.Box() == m.jobs[t].req.Box() ==> Contend(m.locks, t, u);
    PutElsewhere(m.db, m.jobs[t].work.current, m.jobs[t].req.Box(), payload, s, m.jobs[u].req.Box());
    assert Fresh(m.db, m.jobs[u]);
  }

  lemma PutUnspoiled(m: Machine, t: Tid, payload: Bytes, s: Signature, m': Machine)
    requires BoxLock.Inv(m.locks) && Seated(m) && Unspoiled(m) && Enabled(m, PutValue(t))
    requires Worker(m, m', t) && m'.jobs[t].work.Decided?
    requires m'.db == Put(m.db, m.jobs[t].work.current, m.jobs[t].req.Box(), payload, s)
    ensures Unspoiled(m')
  {
    forall u | u in m.jobs && u != t && In(m.locks, u, Critical) ensures Fresh(m'.db, m.jobs[u]) {
      PutSpoilsNothing(m, t, payload, s, u);
    }
    WorkerUnspoiled(m, m', t);
  }

  lemma WriteIsGood(m: Machine, t: Tid)
    requires Good(m) && Enabled(m, PutValue(t)) && m.jobs[t].req.WriteBox?
    ensures Good(PutStep(m, t))
  {
    var m', j, w := PutStep(m, t), m.jobs[t], m.jobs[t].req.command;
    assert Fresh(m.db, j);
    LookupStopsAt(m.db, j.work.current, |KeptEpochs(j.work.current)|, w.boxID);
    var c := Commit.Stored(t, w, j.work.current, Accepted);
    Extend(m.history, c);
    WorkerSeated(m, m', t);
    DecisionAnswered(m, m', t, c);
    PutUnspoiled(m, t, w.payload, w.signature, m');
  }

  lemma BuryIsGood(m: Machine, t: Tid)
    requires Good(m) && Enabled(m, PutValue(t)) && m.jobs[t].req.BuryBox?
    ensures Good(PutStep(m, t))
  {
    var m', j := PutStep(m, t), m.jobs[t];
    var c := Buried(t, j.req.boxID, j.req.signature, j.work.current);
    Extend(m.history, c);
    WorkerSeated(m, m', t);
    DecisionAnswered(m, m', t, c);
    PutUnspoiled(m, t, [], j.req.signature, m');
  }

  lemma CollectUnspoiled(m: Machine)
    requires Unspoiled(m)
    ensures Unspoiled(Next(m, Collect))
  {
    forall t | t in m.jobs && In(m.locks, t, Critical) ensures Fresh(Wipe(m.db, m.clock), m.jobs[t]) {
      assert Fresh(m.db, m.jobs[t]);
    }
  }

  lemma CollectAnswered(m: Machine)
    requires Answered(m)
    ensures Answered(Next(m, Collect))
  {
    HistoryGrows(m.history, Collected(m.clock));
  }

  lemma CollectSequential(m: Machine)
    requires Sequential(m) && Seated(m)
    ensures Sequential(Next(m, Collect)) && Seated(Next(m, Collect))
  {
    Extend(m.history, Collected(m.clock));
  }

  lemma CollectIsGood(m: Machine)
    requires Good(m)
    ensures Good(Next(m, Collect))
  {
    CollectSequential(m);
    CollectUnspoiled(m);
    CollectAnswered(m);
  }

  lemma OnLockUnspoiled(m: Machine, t: Tid, move: Move)
    requires Unspoiled(m) && Answered(m) && Enabled(m, OnLock(t, move))
    ensures Unspoiled(Next(m, OnLock(t, move)))
  {
    var m' := Next(m, OnLock(t, move));
    forall u | u in m'.jobs && In(m'.locks, u, Critical) ensures Fresh(m'.db, m'.jobs[u]) {
      assert u != t ==> In(m.locks, u, Critical);
      assert u == t ==> m.jobs[t].work == NotStarted;
    }
  }

  lemma OthersStay(l: Locks<BoxID>, t: Tid, move: Move)
    requires CanMove(l, t, move)
    ensures forall u, p :: u != t ==> (In(DoMove(l, t, move), u, p) <==> In(l, u, p))
  {}

  lemma OnLockAnswered(m: Machine, t: Tid, move: Move)
    requires Answered(m) && Enabled(m, OnLock(t, move))
    ensures Answered(Next(m, OnLock(t, move)))
  {
    OthersStay(m.locks, t, move);
  }

  lemma OnLockSeated(m: Machine, t: Tid, move: Move)
    requires Seated(m) && Enabled(m, OnLock(t, move))
    ensures Seated(Next(m, OnLock(t, move)))
  {}

  lemma OnLockIsGood(m: Machine, t: Tid, move: Move)
    requires Good(m) && Enabled(m, OnLock(t, move))
    ensures Good(Next(m, OnLock(t, move)))
  {
    MoveKeepsInv(m.locks, t, move);
    OnLockSeated(m, t, move);
    OnLockUnspoiled(m, t, move);
    OnLockAnswered(m, t, move);
  }

  lemma ReadClockIsGood(m: Machine, t: Tid)
    requires Good(m) && Enabled(m, ReadClock(t))
    ensures Good(Next(m, ReadClock(t)))
  {
    var m' := Next(m, ReadClock(t));
    WorkerSeated(m, m', t);
    WorkerUnspoiled(m, m', t);
    UndecidedAnswered(m, m', t);
  }

  lemma SpawnUnspoiled(m: Machine, t: Tid, req: Request)
    requires Seated(m) && Unspoiled(m) && Enabled(m, Spawn(t, req))
    ensures Seated(Next(m, Spawn(t, req))) && Unspoiled(Next(m, Spawn(t, req)))
  {
    var m' := Next(m, Spawn(t, req));
    forall u | u in m'.jobs && In(m'.locks, u, Critical) ensures Fresh(m'.db, m'.jobs[u]) {
      assert u != t && In(m.locks, u, Critical);
    }
  }

  lemma SpawnAnswered(m: Machine, t: Tid, req: Request)
    requires Answered(m) && Enabled(m, Spawn(t, req))
    ensures Answered(Next(m, Spawn(t, req)))
  {
    var l, l' := m.locks, Next(m, Spawn(t, req)).locks;
    assert forall u, p :: u != t ==> (In(l', u, p) <==> In(l, u, p));
  }

  lemma SpawnIsGood(m: Machine, t: Tid, req: Request)
    requires Good(m) && Enabled(m, Spawn(t, req))
    ensures Good(Next(m, Spawn(t, req)))
  {
    ArriveKeepsInv(m.locks, t, req.Box());
    SpawnUnspoiled(m, t, req);
    SpawnAnswered(m, t, req);
  }

  lemma NextIsGood(m: Machine, a: Action)
    requires Good(m)
    ensures Good(Next(m, a))
  {
    if Enabled(m, a) {
      match a
      case Spawn(t, req) => SpawnIsGood(m, t, req);
      case OnLock(t, move) => OnLockIsGood(m, t, move);
      case ReadClock(t) => ReadClockIsGood(m, t);
      case CheckEpoch(t) => CheckIsGood(m, t);
      case PutValue(t) =>
        if m.jobs[t].req.WriteBox? {
          WriteIsGood(m, t);
        } else {
          BuryIsGood(m, t);
        }
      case Tick(now) =>
      case Collect => CollectIsGood(m);
    }
  }

  lemma {:induction false} RunIsGood(m: Machine, actions: seq<Action>)
    requires Good(m)
    ensures Good(RunFrom(m, actions))
    decreases |actions|
  {
    if actions != [] {
      NextIsGood(m, actions[0]);
      RunIsGood(Next(m, actions[0]), actions[1..]);
    }
  }

  lemma StartIsGood()
    ensures Good(START)
  {}

  /** In every interleaving of any number of threads the locks exclude, box by box, and the table stays exact. */
  lemma MutualExclusion(actions: seq<Action>)
    ensures Exclusive(RunFrom(START, actions).locks)
  {
    StartIsGood();
    RunIsGood(START, actions);
    InvExcludes(RunFrom(START, actions).locks);
  }

  /**
   In every interleaving the database is what the committed operations produce executed one at a time, every
   write got the answer it gets there, and every thread that has finished is in that sequence with its answer.
   */
  lemma Linearizable(actions: seq<Action>)
    ensures var m := RunFrom(START, actions);
            && m.db == Replay(m.history) && Legal(m.history)
            && (forall t :: t in m.jobs && In(m.locks, t, Finished) ==>
                  m.jobs[t].work.Decided? && Committed(m.history, t, m.jobs[t].req, m.jobs[t].work.result))
  {
    StartIsGood();
    RunIsGood(START, actions);
  }

  // ---- Two writers of one box ----

  /** No tombstone for the box, no write of it under another epoch, no collection into the kept epochs. */
  predicate Harmless(c: Commit, b: BoxID, current: Epoch) {
    match c
    case Stored(_, w, e, _) => w.boxID == b ==> e == current
    case Buried(_, x, _, _) => x != b
    case Collected(e) => e <= current
  }

  lemma AcceptedIsVisible(db: Db, current: Epoch, c: Command)
    requires 100 + |c.payload| <= MAX_PARSE_SIZE && Write(db, current, c).1 == Accepted
    ensures Lookup(Write(db, current, c).0, KeptEpochs(current), c.boxID) == Box(c.payload, c.signature)
  {
    LookupKept(db, current, c.boxID);
    LookupKept(Write(db, current, c).0, current, c.boxID);
    StoredFate(c.boxID, c.payload, c.signature);
  }

  lemma HarmlessKeeps(db: Db, c: Commit, b: BoxID, current: Epoch)
    requires Harmless(c, b, current) && Lookup(db, KeptEpochs(current), b) != Absent
    ensures Lookup(Apply(db, c), KeptEpochs(current), b) == Lookup(db, KeptEpochs(current), b)
  {
    LookupKept(db, current, b);
    LookupKept(Apply(db, c), current, b);
    match c
    case Stored(_, w, e, _) =>
      if w.boxID != b {
        PutElsewhere(db, e, w.boxID, w.payload, w.signature, b);
      }
    case Buried(_, x, s, e) => PutElsewhere(db, e, x, [], s, b);
    case Collected(e) =>
      if e >= 2 {
        RangeIsOldEpochs(current, b, e - 1);
        if current > 0 {
          RangeIsOldEpochs(current - 1, b, e - 1);
        }
      }
  }

  lemma {:induction false} VisibleStays(h: seq<Commit>, from: nat, b: BoxID, current: Epoch)
    requires from <= |h| && forall i :: from <= i < |h| ==> Harmless(h[i], b, current)
    requires Lookup(Replay(h[..from]), KeptEpochs(current), b) != Absent
    ensures Lookup(Replay(h), KeptEpochs(current), b) == Lookup(Replay(h[..from]), KeptEpochs(current), b)
    decreases |h|
  {
    if from == |h| {
      assert h[..from] == h;
    } else {
      var before := h[..|h| - 1];
      assert before[..from] == h[..from];
      VisibleStays(before, from, b, current);
      HarmlessKeeps(Replay(before), h[|h| - 1], b, current);
    }
  }

  lemma {:induction false} LegalAt(h: seq<Commit>, k: nat)
    requires Legal(h) && k < |h|
    ensures Rightly(Replay(h[..k]), h[k])
    ensures Replay(h[..k + 1]) == Apply(Replay(h[..k]), h[k])
    decreases |h|
  {
    if k == |h| - 1 {
      assert h[..k + 1] == h;
    } else {
      var before := h[..|h| - 1];
      LegalAt(before, k);
      assert before[..k] == h[..k] && before[..k + 1] == h[..k + 1];
    }
  }

  /**
   Concurrent check-and-put writers never both store differing boxes: of two accepted writes of one box under
   one epoch, with nothing but harmless operations in between, both carry the same payload and signature.
   */
  lemma AcceptedWritesAgree(actions: seq<Action>, i: nat, j: nat)
    requires var h := RunFrom(START, actions).history;
             && i < j < |h| && h[i].Stored? && h[j].Stored? && h[i].result == Accepted && h[j].result == Accepted
             && h[i].command.boxID == h[j].command.boxID && h[i].current == h[j].current
             && 100 + |h[i].command.payload| <= MAX_PARSE_SIZE
             && forall k :: i < k < j ==> Harmless(h[k], h[i].command.boxID, h[i].current)
    ensures var h := RunFrom(START, actions).history; h[i].command == h[j].command
  {
    var h := RunFrom(START, actions).history;
    Linearizable(actions);
    var c, e := h[i].command, h[i].current;
    LegalAt(h, i);
    LegalAt(h, j);
    AcceptedIsVisible(Replay(h[..i]), e, c);
    assert h[..j][..i + 1] == h[..i + 1];
    VisibleStays(h[..j], i + 1, c.boxID, e);
  }
}

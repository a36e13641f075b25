/**
 A run in which two writers of one box both store: the second reads the clock, and before it looks the clock moves on and
 the collector, which takes no box lock, removes what the first has stored.
 */
module BoxOverlap {
  import opened Wrappers
  import opened BoxStore
  import opened BoxLock
  import opened BoxWriters
  import opened BoxWindows
  import BoxCommits

  lemma RunMore(m: Machine, a: Action, rest: seq<Action>)
    ensures RunFrom(m, [a] + rest) == RunFrom(Next(m, a), rest)
  {
    assert ([a] + rest)[1..] == rest;
  }

  lemma RunThree(m: Machine, a: Action, b: Action, c: Action)
    ensures RunFrom(m, [a, b, c]) == Next(Next(Next(m, a), b), c)
  {
    assert [a, b, c] == [a] + [b, c] && [b, c] == [b] + [c] && [c] == [c] + [];
    RunMore(m, a, [b, c]);
    RunMore(Next(m, a), b, [c]);
    RunMore(Next(Next(m, a), b), c, []);
  }

  lemma RunTwo(m: Machine, a: Action, b: Action)
    ensures RunFrom(m, [a, b]) == Next(Next(m, a), b)
  {
    assert [a, b] == [a] + [b] && [b] == [b] + [];
    RunMore(m, a, [b]);
    RunMore(Next(m, a), b, []);
  }

  // ---- A thread that meets nobody ----

  /** Nobody is inside a locksMu section, and nobody uses the box. */
  ghost predicate Quiet(m: Machine, t: Tid, box: BoxID) {
    && t !in m.locks.seats && t !in m.jobs && m.locks.locksMu == None && box !in m.locks.table
    && m.locks.nextLock !in m.locks.holder
  }

  function Arrives(t: Tid, req: Request): seq<Action> { [Spawn(t, req), OnLock(t, LookUp), OnLock(t, Count)] }
  function Enters(t: Tid): seq<Action> { [OnLock(t, Acquire), ReadClock(t)] }
  function Leaves(t: Tid): seq<Action> { [OnLock(t, Release), OnLock(t, Uncount), OnLock(t, Reclaim)] }

  /** The lock table with `t` counted on a new entry. */
  function WithSeat(l: Locks<BoxID>, t: Tid, box: BoxID): Locks<BoxID> {
    var x := l.nextLock;
    l.(seats := l.seats[t := Seat(box, Waiting, x)], table := l.table[box := x], refs := l.refs[x := 1], nextLock := x + 1)
  }

  lemma CountsIn(l: Locks<BoxID>, t: Tid, box: BoxID)
    requires t !in l.seats && l.locksMu == None && box !in l.table
    ensures var l1 := Arrive(l, t, box);
            && CanMove(l1, t, LookUp) && CanMove(DoMove(l1, t, LookUp), t, Count)
            && DoMove(DoMove(l1, t, LookUp), t, Count) == WithSeat(l, t, box)
  {
    var x, l1 := l.nextLock, Arrive(l, t, box);
    var l2 := DoMove(l1, t, LookUp);
    assert l2.seats == l.seats[t := Seat(box, Looked, x)] && l2.refs[x] == 0;
    var l3 := DoMove(l2, t, Count);
    assert l3.seats == l.seats[t := Seat(box, Waiting, x)] && l3.refs == l.refs[x := 1];
  }

  lemma ArrivesAlone(m: Machine, t: Tid, req: Request)
    requires Quiet(m, t, req.Box())
    ensures RunFrom(m, Arrives(t, req)) == m.(jobs := m.jobs[t := Job(req, NotStarted)], locks := WithSeat(m.locks, t, req.Box()))
  {
    RunThree(m, Spawn(t, req), OnLock(t, LookUp), OnLock(t, Count));
    CountsIn(m.locks, t, req.Box());
  }

  lemma EntersAlone(m: Machine, t: Tid)
    requires In(m.locks, t, Waiting) && m.locks.seats[t].lock !in m.locks.holder
    requires t in m.jobs && m.jobs[t].work == NotStarted && m.jobs[t].req.WriteBox?
    ensures var m' := RunFrom(m, Enters(t));
            m' == m.(jobs := m.jobs[t := m.jobs[t].(work := Checking(m.clock, 0))],
                     locks := MoveTo(m.locks, t, Critical).(holder := m.locks.holder[m.locks.seats[t].lock := t]))
  {
    RunTwo(m, OnLock(t, Acquire), ReadClock(t));
  }

  lemma LeavesAlone(m: Machine, t: Tid)
    requires In(m.locks, t, Critical) && m.locks.locksMu == None && t in m.jobs && m.jobs[t].work.Decided?
    requires m.locks.seats[t].lock in m.locks.refs && m.locks.refs[m.locks.seats[t].lock] == 1
    ensures var m', s := RunFrom(m, Leaves(t)), m.locks.seats[t];
            m' == m.(locks := MoveTo(m.locks, t, Finished).(holder := m.locks.holder - {s.lock}, table := m.locks.table - {s.box},
                                                            refs := m.locks.refs[s.lock := 0]))
  {
    RunThree(m, OnLock(t, Release), OnLock(t, Uncount), OnLock(t, Reclaim));
    var m1 := Next(m, OnLock(t, Release));
    var m2 := Next(m1, OnLock(t, Uncount));
    assert m2.locks.refs[m.locks.seats[t].lock] == 0;
    var m3 := Next(m2, OnLock(t, Reclaim));
    assert m3.locks.seats == MoveTo(m.locks, t, Finished).seats;
  }

  // ---- What it does inside ----

  /** It is inside, has read this epoch, and has looked nowhere yet. */
  ghost predicate Inside(m: Machine, t: Tid, c: Command, current: Epoch) {
    In(m.locks, t, Critical) && t in m.jobs && m.jobs[t] == Job(WriteBox(c), Checking(current, 0))
  }

  ghost predicate StoredBy(m: Machine, m': Machine, t: Tid, c: Command, current: Epoch) {
    && m'.locks == m.locks && m'.clock == m.clock && t in m'.jobs && m'.jobs == m.jobs[t := Job(WriteBox(c), Decided(Accepted))]
    && m'.db == Put(m.db, current, c.boxID, c.payload, c.signature)
    && m'.history == m.history + [Commit.Stored(t, c, current, Accepted)]
  }

  function Checked(m: Machine, t: Tid, current: Epoch, looked: nat): Machine
    requires t in m.jobs
  {
    m.(jobs := m.jobs[t := m.jobs[t].(work := Checking(current, looked))])
  }

  lemma ChecksOnce(m: Machine, t: Tid, c: Command, current: Epoch, looked: nat)
    requires In(m.locks, t, Critical) && t in m.jobs && m.jobs[t] == Job(WriteBox(c), Checking(current, looked))
    ensures looked < |KeptEpochs(current)| && At(m.db, KeptEpochs(current)[looked], c.boxID) == Absent ==>
              Next(m, CheckEpoch(t)) == Checked(m, t, current, looked + 1)
    ensures looked == |KeptEpochs(current)| ==>
              Next(m, CheckEpoch(t)) == m.(jobs := m.jobs[t := Job(WriteBox(c), Putting(current))])
  {}

  lemma PutsThen(m: Machine, t: Tid, c: Command, current: Epoch)
    requires In(m.locks, t, Critical) && t in m.jobs && m.jobs[t] == Job(WriteBox(c), Checking(current, |KeptEpochs(current)|))
    ensures StoredBy(m, RunFrom(m, [CheckEpoch(t), PutValue(t)]), t, c, current)
  {
    RunTwo(m, CheckEpoch(t), PutValue(t));
    ChecksOnce(m, t, c, current, |KeptEpochs(current)|);
  }

  function StoresAtZero(t: Tid): seq<Action> { [CheckEpoch(t)] + [CheckEpoch(t), PutValue(t)] }
  function StoresAtOne(t: Tid): seq<Action> { [CheckEpoch(t), CheckEpoch(t)] + [CheckEpoch(t), PutValue(t)] }

  lemma FirstStores(m: Machine, t: Tid, c: Command)
    requires Inside(m, t, c, 0) && At(m.db, 0, c.boxID) == Absent
    ensures StoredBy(m, RunFrom(m, StoresAtZero(t)), t, c, 0)
  {
    RunMore(m, CheckEpoch(t), [CheckEpoch(t), PutValue(t)]);
    ChecksOnce(m, t, c, 0, 0);
    PutsThen(Checked(m, t, 0, 1), t, c, 0);
  }

  lemma SecondStores(m: Machine, t: Tid, c: Command)
    requires Inside(m, t, c, 1) && At(m.db, 1, c.boxID) == Absent && At(m.db, 0, c.boxID) == Absent
    ensures StoredBy(m, RunFrom(m, StoresAtOne(t)), t, c, 1)
  {
    var looks := [CheckEpoch(t), CheckEpoch(t)];
    BoxCommits.RunSplits(m, looks, [CheckEpoch(t), PutValue(t)]);
    RunTwo(m, CheckEpoch(t), CheckEpoch(t));
    ChecksOnce(m, t, c, 1, 0);
    ChecksOnce(Checked(m, t, 1, 1), t, c, 1, 1);
    assert Checked(Checked(m, t, 1, 1), t, 1, 2) == Checked(m, t, 1, 2);
    PutsThen(Checked(m, t, 1, 2), t, c, 1);
  }

  // ---- The run ----

  /** One thread stores its box under epoch 0 and leaves. */
  function FirstPart(a: Command): seq<Action> { ((Arrives(0, WriteBox(a)) + Enters(0)) + StoresAtZero(0)) + Leaves(0) }

  lemma FirstPartRuns(a: Command)
    ensures var m := RunFrom(START, FirstPart(a));
            && Quiet(m, 1, a.boxID) && m.db == Put(map[], 0, a.boxID, a.payload, a.signature) && m.clock == 0
            && m.history == [Commit.Stored(0, a, 0, Accepted)]
  {
    var in1, in2 := Arrives(0, WriteBox(a)), Arrives(0, WriteBox(a)) + Enters(0);
    var m1 := RunFrom(START, in1);
    ArrivesAlone(START, 0, WriteBox(a));
    BoxCommits.RunSplits(START, in1, Enters(0));
    EntersAlone(m1, 0);
    BoxCommits.RunSplits(START, in2, StoresAtZero(0));
    FirstStores(RunFrom(START, in2), 0, a);
    BoxCommits.RunSplits(START, in2 + StoresAtZero(0), Leaves(0));
    LeavesAlone(RunFrom(START, in2 + StoresAtZero(0)), 0);
  }

  /** Another one enters under epoch 1, the clock moves on and the collector runs, and only then it looks. */
  function SecondPart(b: Command): seq<Action> {
    (([Tick(1)] + Arrives(1, WriteBox(b))) + Overtaken()) + StoresAtOne(1)
  }

  /** The clock is read before it moves on. */
  function Overtaken(): seq<Action> { Enters(1) + [Tick(2), Collect] }

  lemma OvertakenRuns(m: Machine, b: Command)
    requires In(m.locks, 1, Waiting) && m.locks.seats[1].lock !in m.locks.holder && m.clock == 1
    requires 1 in m.jobs && m.jobs[1] == Job(WriteBox(b), NotStarted)
    ensures var m' := RunFrom(m, Overtaken());
            Inside(m', 1, b, 1) && m'.db == Wipe(m.db, 2) && m'.history == m.history + [Collected(2)]
  {
    BoxCommits.RunSplits(m, Enters(1), [Tick(2), Collect]);
    EntersAlone(m, 1);
    RunTwo(RunFrom(m, Enters(1)), Tick(2), Collect);
  }

  lemma SecondArrives(m: Machine, b: Command)
    requires Quiet(m, 1, b.boxID) && m.clock == 0
    ensures var m' := RunFrom(m, [Tick(1)] + Arrives(1, WriteBox(b)));
            && In(m'.locks, 1, Waiting) && m'.locks.seats[1].lock !in m'.locks.holder && m'.clock == 1
            && 1 in m'.jobs && m'.jobs[1] == Job(WriteBox(b), NotStarted) && m'.db == m.db && m'.history == m.history
  {
    RunMore(m, Tick(1), Arrives(1, WriteBox(b)));
    ArrivesAlone(Next(m, Tick(1)), 1, WriteBox(b));
  }

  lemma SecondPartRuns(m: Machine, a: Command, b: Command)
    requires Quiet(m, 1, b.boxID) && m.db == Put(map[], 0, a.boxID, a.payload, a.signature) && m.clock == 0
    requires m.history == [Commit.Stored(0, a, 0, Accepted)]
    ensures RunFrom(m, SecondPart(b)).history == [Commit.Stored(0, a, 0, Accepted), Collected(2), Commit.Stored(1, b, 1, Accepted)]
  {
    var arrives := [Tick(1)] + Arrives(1, WriteBox(b));
    BoxCommits.RunSplits(m, arrives, Overtaken());
    BoxCommits.RunSplits(m, arrives + Overtaken(), StoresAtOne(1));
    SecondArrives(m, b);
    OvertakenRuns(RunFrom(m, arrives), b);
    NothingLeft(a, b);
    SecondStores(RunFrom(m, arrives + Overtaken()), 1, b);
  }

  lemma NothingLeft(a: Command, b: Command)
    ensures var db := Wipe(Put(map[], 0, a.boxID, a.payload, a.signature), 2);
            At(db, 0, b.boxID) == Absent && At(db, 1, b.boxID) == Absent
  {
    var db := Put(map[], 0, a.boxID, a.payload, a.signature);
    AtAfterWipe(db, 2, 0, b.boxID);
    AtAfterWipe(db, 2, 1, b.boxID);
    AtAfterPut(map[], 0, a.boxID, a.payload, a.signature, 1, b.boxID);
  }

  /** Whatever the two payloads are, both writes of the box are stored and accepted, under consecutive epochs. */
  lemma SomeRunStoresTwice(a: Command, b: Command)
    requires a.boxID == b.boxID
    ensures var h := RunFrom(START, FirstPart(a) + SecondPart(b)).history;
            && h == [Commit.Stored(0, a, 0, Accepted), Collected(2), Commit.Stored(1, b, 1, Accepted)]
            && Puts(h, 0) && Puts(h, 2)
  {
    var h := RunFrom(START, FirstPart(a) + SecondPart(b)).history;
    FirstPartRuns(a);
    BoxCommits.RunSplits(START, FirstPart(a), SecondPart(b));
    SecondPartRuns(RunFrom(START, FirstPart(a)), a, b);
    BothPut(h, a, b);
  }

  lemma BothPut(h: seq<Commit>, a: Command, b: Command)
    requires h == [Commit.Stored(0, a, 0, Accepted), Collected(2), Commit.Stored(1, b, 1, Accepted)]
    ensures Puts(h, 0) && Puts(h, 2)
  {
    var h1, h2 := h[..1], h[..2];
    assert h[..0] == [] && h1[..0] == [] && h2[..1] == h1 && h1[0] == h[0] && h2[1] == h[1];
    LookupKept(map[], 0, a.boxID);
    assert Replay(h1) == Put(map[], 0, a.boxID, a.payload, a.signature);
    assert Replay(h2) == Wipe(Replay(h1), 2);
    NothingLeft(a, b);
    LookupKept(Replay(h2), 1, b.boxID);
  }
}

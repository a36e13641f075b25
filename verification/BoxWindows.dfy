/**
 Concurrent writers across an epoch boundary: the operations on one box take effect in the order of their epochs,
 so whoever stores a box is seen by every writer of the same and of the next epoch.
 */
module BoxWindows {
  import opened Bytes
  import opened BoxStore
  import opened BoxLock
  import opened BoxWriters
  import opened Trunnel

  predicate OnBox(c: Commit, b: BoxID) {
    match c
    case Stored(_, command, _, _) => command.boxID == b
    case Buried(_, x, _, _) => x == b
    case Collected(_) => false
  }

  predicate Busy(w: Work) { w.Checking? || w.Putting? }

  ghost predicate Latest(h: seq<Commit>, b: BoxID, e: Epoch) {
    forall i :: 0 <= i < |h| && OnBox(h[i], b) ==> h[i].current <= e
  }

  ghost predicate InOrder(h: seq<Commit>, b: BoxID) {
    forall i, j :: 0 <= i < j < |h| && OnBox(h[i], b) && OnBox(h[j], b) ==> h[i].current <= h[j].current
  }

  ghost predicate Ordered(h: seq<Commit>) { forall b :: InOrder(h, b) }

  /** Nothing has taken effect on the box of a writer inside under a later epoch than the one it has read. */
  ghost predicate UpToDate(m: Machine, t: Tid)
    requires t in m.jobs
  {
    Busy(m.jobs[t].work) ==>
      m.jobs[t].work.current <= m.clock && Latest(m.history, m.jobs[t].req.Box(), m.jobs[t].work.current)
  }

  ghost predicate Timely(m: Machine) {
    && (forall i :: 0 <= i < |m.history| ==> m.history[i].current <= m.clock)
    && AllUpToDate(m) && Ordered(m.history)
  }

  ghost predicate AllUpToDate(m: Machine) { forall t :: t in m.jobs && In(m.locks, t, Critical) ==> UpToDate(m, t) }

  lemma CommitInOrder(h: seq<Commit>, c: Commit, b: BoxID)
    requires InOrder(h, b) && (OnBox(c, b) ==> Latest(h, b, c.current))
    ensures InOrder(h + [c], b)
  {}

  lemma CommitOrdered(h: seq<Commit>, c: Commit)
    requires Ordered(h) && forall b :: OnBox(c, b) ==> Latest(h, b, c.current)
    ensures Ordered(h + [c])
  {
    forall b ensures InOrder(h + [c], b) {
      assert InOrder(h, b);
      CommitInOrder(h, c, b);
    }
  }

  lemma LatestStays(h: seq<Commit>, c: Commit, b: BoxID, e: Epoch)
    requires Latest(h, b, e) && !OnBox(c, b)
    ensures Latest(h + [c], b, e)
  {}

  lemma OtherWriter(m: Machine, m': Machine, t: Tid, u: Tid, c: Commit)
    requires BoxLock.Inv(m.locks) && Seated(m) && t in m.jobs && u in m.jobs && t != u
    requires In(m.locks, t, Critical) && In(m.locks, u, Critical) && UpToDate(m, u)
    requires forall b :: OnBox(c, b) ==> b == m.jobs[t].req.Box()
    requires u in m'.jobs && m'.jobs[u] == m.jobs[u] && m'.history == m.history + [c] && m'.clock == m.clock
    ensures UpToDate(m', u)
  {
    OtherBox(m, t, u);
    if Busy(m.jobs[u].work) { LatestStays(m.history, c, m.jobs[u].req.Box(), m.jobs[u].work.current); }
  }

  lemma CommitUpToDate(m: Machine, m': Machine, t: Tid, c: Commit)
    requires BoxLock.Inv(m.locks) && Seated(m) && AllUpToDate(m) && Worker(m, m', t)
    requires forall b :: OnBox(c, b) ==> b == m.jobs[t].req.Box()
    requires m'.history == m.history + [c] && m'.clock == m.clock && m'.jobs[t].work.Decided?
    ensures AllUpToDate(m')
  {
    forall u | u in m'.jobs && In(m'.locks, u, Critical) ensures UpToDate(m', u) {
      if u != t { OtherWriter(m, m', t, u, c); }
    }
  }

  /** A thread inside commits under the epoch it has read; nobody else inside is dealing with that box. */
  lemma CommitTimely(m: Machine, m': Machine, t: Tid, c: Commit)
    requires BoxLock.Inv(m.locks) && Seated(m) && Timely(m) && Worker(m, m', t) && Busy(m.jobs[t].work)
    requires c.current == m.jobs[t].work.current && (forall b :: OnBox(c, b) ==> b == m.jobs[t].req.Box())
    requires m'.history == m.history + [c] && m'.clock == m.clock && m'.jobs[t].work.Decided?
    ensures Timely(m')
  {
    assert UpToDate(m, t);
    CommitOrdered(m.history, c);
    CommitUpToDate(m, m', t, c);
  }

  lemma OtherBox(m: Machine, t: Tid, u: Tid)
    requires BoxLock.Inv(m.locks) && Seated(m) && t in m.jobs && u in m.jobs && t != u
    requires In(m.locks, t, Critical) && In(m.locks, u, Critical)
    ensures m.jobs[u].req.Box() != m.jobs[t].req.Box()
  {
    InvExcludes(m.locks);
    assert m.jobs[u].req.Box() == m.jobs[t].req.Box() ==> Contend(m.locks, t, u);
  }

  /** A step inside that commits nothing keeps the epoch read, or reads the clock. */
  lemma WorkTimely(m: Machine, m': Machine, t: Tid)
    requires Timely(m) && Worker(m, m', t) && m'.history == m.history && m'.clock == m.clock
    requires Busy(m'.jobs[t].work) ==>
               m'.jobs[t].work.current == if Busy(m.jobs[t].work) then m.jobs[t].work.current else m.clock
    ensures Timely(m')
  {}

  lemma LockTimely(m: Machine, t: Tid, move: Move)
    requires Answered(m) && Timely(m) && Enabled(m, OnLock(t, move))
    ensures Timely(Next(m, OnLock(t, move)))
  {
    var m' := Next(m, OnLock(t, move));
    OthersStay(m.locks, t, move);
    assert move == Acquire ==> m.jobs[t].work == NotStarted;
    assert In(m'.locks, t, Critical) ==> move == Acquire;
    assert forall u :: u in m'.jobs && In(m'.locks, u, Critical) && Busy(m'.jobs[u].work) ==> In(m.locks, u, Critical);
  }

  lemma SpawnTimely(m: Machine, t: Tid, req: Request)
    requires Timely(m) && Enabled(m, Spawn(t, req))
    ensures Timely(Next(m, Spawn(t, req)))
  {
    var m' := Next(m, Spawn(t, req));
    assert forall u :: u in m'.jobs && In(m'.locks, u, Critical) && Busy(m'.jobs[u].work) ==> u != t && In(m.locks, u, Critical);
  }

  lemma CheckTimely(m: Machine, t: Tid)
    requires BoxLock.Inv(m.locks) && Seated(m) && Timely(m) && Enabled(m, CheckEpoch(t))
    ensures Timely(CheckStep(m, t))
  {
    var m' := CheckStep(m, t);
    if m'.history == m.history {
      WorkTimely(m, m', t);
    } else {
      CommitTimely(m, m', t, m'.history[|m.history|]);
    }
  }

  lemma PutTimely(m: Machine, t: Tid)
    requires BoxLock.Inv(m.locks) && Seated(m) && Timely(m) && Enabled(m, PutValue(t))
    ensures Timely(PutStep(m, t))
  {
    CommitTimely(m, PutStep(m, t), t, PutStep(m, t).history[|m.history|]);
  }

  lemma CollectTimely(m: Machine)
    requires Timely(m)
    ensures Timely(Next(m, Collect))
  {
    forall b ensures InOrder(Next(m, Collect).history, b) {
      assert InOrder(m.history, b);
      CommitInOrder(m.history, Collected(m.clock), b);
    }
  }

  lemma NextTimely(m: Machine, a: Action)
    requires Good(m) && Timely(m)
    ensures Timely(Next(m, a))
  {
    if Enabled(m, a) {
      match a
      case Spawn(t, req) => SpawnTimely(m, t, req);
      case OnLock(t, move) => LockTimely(m, t, move);
      case ReadClock(t) => WorkTimely(m, Next(m, a), t);
      case CheckEpoch(t) => CheckTimely(m, t);
      case PutValue(t) => PutTimely(m, t);
      case Tick(now) =>
      case Collect => CollectTimely(m);
    }
  }

  lemma {:induction false} RunTimely(m: Machine, actions: seq<Action>)
    requires Good(m) && Timely(m)
    ensures Timely(RunFrom(m, actions))
    decreases |actions|
  {
    if actions != [] {
      NextIsGood(m, actions[0]);
      NextTimely(m, actions[0]);
      RunTimely(Next(m, actions[0]), actions[1..]);
    }
  }

  lemma StartTimely()
    ensures Timely(START)
  {}

  lemma AlwaysTimely(actions: seq<Action>)
    ensures Timely(RunFrom(START, actions))
  {
    StartIsGood();
    StartTimely();
    RunTimely(START, actions);
  }

  /** In every interleaving the operations on one box take effect in the order of their epochs. */
  lemma EpochsInOrder(actions: seq<Action>, b: BoxID)
    ensures InOrder(RunFrom(START, actions).history, b)
  {
    AlwaysTimely(actions);
  }

  // ---- What the operations on one box have left ----

  /** The last thing stored of a box, until a collection erases it. */
  datatype Held = Nothing | Last(epoch: Epoch, box: Stored)

  /** What a writer of epoch `f` finds. */
  function Seen(held: Held, f: Epoch): Stored { if held.Last? && held.epoch + 1 >= f then held.box else Absent }

  function HeldAfter(held: Held, c: Commit, b: BoxID): Held {
    match c
    case Collected(g) => if held.Last? && g >= held.epoch + 2 then Nothing else held
    case Buried(_, x, s, g) => if x == b then Last(g, Fate([], s)) else held
    case Stored(_, w, g, _) =>
      if w.boxID == b && Seen(held, g) == Absent && Fate(w.payload, w.signature) != Absent
      then Last(g, Fate(w.payload, w.signature)) else held
  }

  function HeldOf(h: seq<Commit>, b: BoxID): Held {
    if h == [] then Nothing else HeldAfter(HeldOf(h[..|h| - 1], b), h[|h| - 1], b)
  }

  /** The database has the box where the register says, and nothing of it under any later epoch. */
  ghost predicate Holds(db: Db, b: BoxID, held: Held) {
    && (held == Nothing ==> forall e: Epoch :: At(db, e, b) == Absent)
    && (held.Last? ==> held.box != Absent && At(db, held.epoch, b) == held.box
                       && forall e: Epoch :: e > held.epoch ==> At(db, e, b) == Absent)
  }

  lemma AtAfterPut(db: Db, g: Epoch, x: BoxID, payload: Bytes, s: Signature, e: Epoch, b: BoxID)
    ensures At(Put(db, g, x, payload, s), e, b) == if e == g && b == x then Fate(payload, s) else At(db, e, b)
  {
    BoxKeyInjective(e, b, g, x);
    StoredFate(x, payload, s);
  }

  lemma AtAfterWipe(db: Db, g: Epoch, e: Epoch, b: BoxID)
    ensures At(Wipe(db, g), e, b) == if g >= 2 && e < g - 1 then Absent else At(db, e, b)
  {
    if g >= 2 { RangeIsOldEpochs(e, b, g - 1); }
  }

  lemma HeldIsSeen(db: Db, b: BoxID, held: Held, f: Epoch)
    requires Holds(db, b, held) && (held.Last? ==> held.epoch <= f)
    ensures Lookup(db, KeptEpochs(f), b) == Seen(held, f)
  {
    LookupKept(db, f, b);
  }

  lemma PutHolds(db: Db, b: BoxID, held: Held, g: Epoch, x: BoxID, payload: Bytes, s: Signature)
    requires Holds(db, b, held) && (x == b && held.Last? ==> held.epoch <= g)
    requires x == b && Fate(payload, s) == Absent ==> Seen(held, g) == Absent
    ensures Holds(Put(db, g, x, payload, s), b, if x == b && Fate(payload, s) != Absent then Last(g, Fate(payload, s)) else held)
  {
    forall e: Epoch
      ensures At(Put(db, g, x, payload, s), e, b) == if e == g && b == x then Fate(payload, s) else At(db, e, b)
    {
      AtAfterPut(db, g, x, payload, s, e, b);
    }
  }

  lemma WipeHolds(db: Db, b: BoxID, held: Held, g: Epoch)
    requires Holds(db, b, held)
    ensures Holds(Wipe(db, g), b, if held.Last? && g >= held.epoch + 2 then Nothing else held)
  {
    forall e: Epoch ensures At(Wipe(db, g), e, b) == if g >= 2 && e < g - 1 then Absent else At(db, e, b) {
      AtAfterWipe(db, g, e, b);
    }
  }

  lemma CommitHolds(db: Db, c: Commit, b: BoxID, held: Held)
    requires Holds(db, b, held) && (OnBox(c, b) && held.Last? ==> held.epoch <= c.current)
    ensures Holds(Apply(db, c), b, HeldAfter(held, c, b))
  {
    match c
    case Collected(g) => WipeHolds(db, b, held, g);
    case Buried(_, x, s, g) => PutHolds(db, b, held, g, x, [], s);
    case Stored(_, w, g, _) =>
      if w.boxID == b { HeldIsSeen(db, b, held, g); }
      if Lookup(db, KeptEpochs(g), w.boxID) == Absent { PutHolds(db, b, held, g, w.boxID, w.payload, w.signature); }
  }

  /** What is held came with one of the operations on the box. */
  lemma {:induction false} HeldLatest(h: seq<Commit>, b: BoxID, f: Epoch)
    requires Latest(h, b, f) && HeldOf(h, b).Last?
    ensures HeldOf(h, b).epoch <= f
    decreases |h|
  {
    var before := h[..|h| - 1];
    if HeldOf(before, b).Last? { HeldLatest(before, b, f); }
    assert OnBox(h[|h| - 1], b) ==> h[|h| - 1].current <= f;
  }

  /** The operations on a box, if their epochs are in order, do to the database what they do to the register. */
  lemma {:induction false} HistoryHolds(h: seq<Commit>, b: BoxID)
    requires InOrder(h, b)
    ensures Holds(Replay(h), b, HeldOf(h, b))
    decreases |h|
  {
    if h != [] {
      var before, c := h[..|h| - 1], h[|h| - 1];
      HistoryHolds(before, b);
      if OnBox(c, b) && HeldOf(before, b).Last? { HeldLatest(before, b, c.current); }
      CommitHolds(Replay(before), c, b, HeldOf(before, b));
    }
  }

  lemma SeenAt(h: seq<Commit>, j: nat)
    requires j < |h| && h[j].Stored? && InOrder(h, h[j].command.boxID)
    ensures var b, f := h[j].command.boxID, h[j].current;
            Lookup(Replay(h[..j]), KeptEpochs(f), b) == Seen(HeldOf(h[..j], b), f)
  {
    var b, f := h[j].command.boxID, h[j].current;
    assert Latest(h[..j], b, f) by { assert OnBox(h[j], b); }
    HistoryHolds(h[..j], b);
    if HeldOf(h[..j], b).Last? { HeldLatest(h[..j], b, f); }
    HeldIsSeen(Replay(h[..j]), b, HeldOf(h[..j], b), f);
  }

  lemma RightlyAt(h: seq<Commit>, k: nat)
    requires Legal(h) && k < |h|
    ensures Rightly(Replay(h[..k]), h[k])
  {
    LegalAt(h, k);
  }

  /** This commit put its box: it found nothing of it in the epochs kept. */
  ghost predicate Puts(h: seq<Commit>, i: nat) {
    i < |h| && h[i].Stored? && Lookup(Replay(h[..i]), KeptEpochs(h[i].current), h[i].command.boxID) == Absent
  }

  /**
   Overlapping writers, tombstones and collections at any moment: in every interleaving a write finds the last thing
   stored of its box, if that is at most one epoch old and no collection has erased it. It puts its own box if and only if
   it finds nothing, and is answered accordingly.
   */
  lemma WritersSeeTheLast(actions: seq<Action>, j: nat)
    requires j < |RunFrom(START, actions).history| && RunFrom(START, actions).history[j].Stored?
    ensures var h := RunFrom(START, actions).history;
            var seen := Seen(HeldOf(h[..j], h[j].command.boxID), h[j].current);
            && (Puts(h, j) <==> seen == Absent)
            && h[j].result == if seen == Absent || seen == Box(h[j].command.payload, h[j].command.signature) then Accepted else AlreadyExists
  {
    Linearizable(actions);
    EpochsInOrder(actions, RunFrom(START, actions).history[j].command.boxID);
    SeenAt(RunFrom(START, actions).history, j);
    RightlyAt(RunFrom(START, actions).history, j);
  }

  // ---- When a second write of a box is stored ----

  /** The commit leaves the box in the database, as a box or as its tombstone. */
  ghost predicate Stores(h: seq<Commit>, i: nat, b: BoxID) {
    && i < |h| && OnBox(h[i], b)
    && (h[i].Stored? ==> Puts(h, i) && Fate(h[i].command.payload, h[i].command.signature) != Absent)
  }

  /** A collection after `i` and before `j` that reaches the epoch of `i`. */
  ghost predicate Erased(h: seq<Commit>, i: nat, j: nat) {
    exists k :: i < k < j <= |h| && h[k].Collected? && h[k].current >= h[i].current + 2
  }

  /** What the commit leaves of its box. */
  function Left(c: Commit): Stored
    requires !c.Collected?
  {
    if c.Buried? then Fate([], c.signature) else Fate(c.command.payload, c.command.signature)
  }

  lemma StoresHeld(h: seq<Commit>, i: nat, b: BoxID)
    requires Stores(h, i, b) && InOrder(h, b)
    ensures HeldOf(h[..i + 1], b) == Last(h[i].current, Left(h[i]))
  {
    assert h[..i + 1][..i] == h[..i];
    if h[i].Stored? { SeenAt(h, i); }
  }

  lemma {:induction false} HeldStays(h: seq<Commit>, i: nat, j: nat, b: BoxID)
    requires Stores(h, i, b) && i < j <= |h| && InOrder(h, b) && !Erased(h, i, j)
    ensures HeldOf(h[..j], b).Last? && HeldOf(h[..j], b).epoch >= h[i].current
    decreases j
  {
    if j == i + 1 {
      StoresHeld(h, i, b);
    } else {
      var c := h[j - 1];
      assert !Erased(h, i, j - 1);
      HeldStays(h, i, j - 1, b);
      assert h[..j][..j - 1] == h[..j - 1];
      assert c.Collected? ==> c.current < h[i].current + 2;
      assert OnBox(c, b) ==> h[i].current <= c.current;
    }
  }

  /** The last commit before `j` that leaves the box in the database. */
  ghost predicate LastStored(h: seq<Commit>, i: nat, j: nat, b: BoxID) {
    i < j <= |h| && Stores(h, i, b) && forall k :: i < k < j ==> !Stores(h, k, b)
  }

  /** What is held was stored by the last commit that stores the box, and not erased since. */
  lemma {:induction false} HeldFrom(h: seq<Commit>, j: nat, b: BoxID) returns (i: nat)
    requires j <= |h| && HeldOf(h[..j], b).Last? && InOrder(h, b)
    ensures LastStored(h, i, j, b) && HeldOf(h[..j], b) == Last(h[i].current, Left(h[i])) && !Erased(h, i, j)
    decreases j
  {
    assert h[..j][..j - 1] == h[..j - 1] && h[..j][j - 1] == h[j - 1];
    if Stores(h, j - 1, b) {
      i := j - 1;
      StoresHeld(h, i, b);
    } else {
      NotStored(h, j - 1, b);
      i := HeldFrom(h, j - 1, b);
      NotErasedBy(HeldOf(h[..j - 1], b), h[j - 1], b);
    }
  }

  lemma NotStored(h: seq<Commit>, i: nat, b: BoxID)
    requires i < |h| && InOrder(h, b) && !Stores(h, i, b)
    ensures HeldOf(h[..i + 1], b) == HeldOf(h[..i], b) || HeldOf(h[..i + 1], b) == Nothing
  {
    assert h[..i + 1][..i] == h[..i] && h[..i + 1][i] == h[i];
    if OnBox(h[i], b) && h[i].Stored? { SeenAt(h, i); }
  }

  lemma NotErasedBy(held: Held, c: Commit, b: BoxID)
    requires held.Last? && HeldAfter(held, c, b) == held
    ensures c.Collected? ==> c.current < held.epoch + 2
  {}

  /**
   In every interleaving a write is stored if and only if each thing stored of its box under its own or the epoch before
   has been erased in between, by a collection of an epoch two later. Otherwise no two writers of a box both store, and no
   write undoes a tombstone, whatever else goes on.
   */
  lemma PutsIff(actions: seq<Action>, j: nat)
    requires j < |RunFrom(START, actions).history| && RunFrom(START, actions).history[j].Stored?
    ensures var h := RunFrom(START, actions).history;
            Puts(h, j) <==> forall i :: 0 <= i < j && Stores(h, i, h[j].command.boxID) && h[i].current + 1 >= h[j].current ==>
                              Erased(h, i, j)
  {
    var h := RunFrom(START, actions).history;
    var b, f := h[j].command.boxID, h[j].current;
    WritersSeeTheLast(actions, j);
    EpochsInOrder(actions, b);
    forall i | 0 <= i < j && Stores(h, i, b) && h[i].current + 1 >= f && !Erased(h, i, j) ensures !Puts(h, j) {
      HeldStays(h, i, j, b);
      HeldBox(h[..j], b);
    }
    if Seen(HeldOf(h[..j], b), f) != Absent { var i := HeldFrom(h, j, b); }
  }

  lemma {:induction false} HeldBox(h: seq<Commit>, b: BoxID)
    requires HeldOf(h, b).Last?
    ensures HeldOf(h, b).box != Absent
    decreases |h|
  {
    if HeldOf(h[..|h| - 1], b).Last? { HeldBox(h[..|h| - 1], b); }
  }

  lemma {:induction false} TombstoneHeld(h: seq<Commit>, i: nat, j: nat, b: BoxID)
    requires i < j <= |h| && h[i].Buried? && h[i].boxID == b && InOrder(h, b) && !Erased(h, i, j)
    requires forall k :: i < k < j && OnBox(h[k], b) ==> h[k].current <= h[i].current + 1
    ensures var held := HeldOf(h[..j], b); held.Last? && held.box.Box? && held.box.payload == [] && held.epoch >= h[i].current
    decreases j
  {
    assert h[..j][..j - 1] == h[..j - 1] && h[..j][j - 1] == h[j - 1];
    if j > i + 1 {
      assert !Erased(h, i, j - 1);
      TombstoneHeld(h, i, j - 1, b);
      assert h[j - 1].Collected? ==> h[j - 1].current < h[i].current + 2;
      assert OnBox(h[j - 1], b) ==> h[i].current <= h[j - 1].current;
    }
  }

  /**
   In every interleaving a tombstone is not undone by a write of its own or the next epoch, unless a collection of an epoch
   two later came first: the write is not stored, and only an empty one is accepted.
   */
  lemma TombstoneStays(actions: seq<Action>, i: nat, j: nat)
    requires var h := RunFrom(START, actions).history;
             && i < j < |h| && h[i].Buried? && h[j].Stored? && h[j].command.boxID == h[i].boxID
             && h[j].current <= h[i].current + 1 && !Erased(h, i, j)
    ensures var h := RunFrom(START, actions).history;
            !Puts(h, j) && (h[j].result == Accepted ==> h[j].command.payload == []) && h[j].result in {Accepted, AlreadyExists}
  {
    var h := RunFrom(START, actions).history;
    EpochsInOrder(actions, h[i].boxID);
    assert OnBox(h[j], h[i].boxID);
    TombstoneHeld(h, i, j, h[i].boxID);
    WritersSeeTheLast(actions, j);
  }

  /**
   Two writes of one box with no other operation on it in between: both are stored exactly if a collection erased the
   first.
   */
  lemma BothStoredIff(actions: seq<Action>, i: nat, j: nat)
    requires var h := RunFrom(START, actions).history;
             && i < j < |h| && h[j].Stored? && Stores(h, i, h[j].command.boxID) && h[j].current <= h[i].current + 1
             && forall k :: i < k < j ==> !OnBox(h[k], h[j].command.boxID)
    ensures var h := RunFrom(START, actions).history; Puts(h, j) <==> Erased(h, i, j)
  {
    var h := RunFrom(START, actions).history;
    var b := h[j].command.boxID;
    PutsIff(actions, j);
    EpochsInOrder(actions, b);
    forall k | 0 <= k < j && Stores(h, k, b) && Erased(h, i, j) ensures Erased(h, k, j) {
      assert k <= i && h[k].current <= h[i].current;
      var g :| i < g < j <= |h| && h[g].Collected? && h[g].current >= h[i].current + 2;
      assert k < g && h[g].current >= h[k].current + 2;
    }
  }

  // ---- The answer to a write ----

  /** The commit left exactly what the write asks for, where it can be read back. */
  predicate LeftSame(c: Commit, w: Command)
    requires !c.Collected?
  {
    if c.Buried? then w.payload == [] && w.signature == c.signature
    else w.payload == c.command.payload && w.signature == c.command.signature && 100 + |w.payload| <= 16777216
  }

  lemma HeldIsLast(h: seq<Commit>, i: nat, j: nat, b: BoxID)
    requires LastStored(h, i, j, b) && InOrder(h, b) && !Erased(h, i, j)
    ensures HeldOf(h[..j], b) == Last(h[i].current, Left(h[i]))
  {
    HeldStays(h, i, j, b);
    var k := HeldFrom(h, j, b);
    assert k == i;
  }

  lemma LeftIff(h: seq<Commit>, i: nat, b: BoxID, w: Command)
    requires Stores(h, i, b)
    ensures Left(h[i]) != Absent && (Left(h[i]) == Box(w.payload, w.signature) <==> LeftSame(h[i], w))
  {}

  /**
   In every interleaving a write is either accepted or told that the box exists, and it is told so if and only if what was
   last stored of its box, at most one epoch ago and not erased since, is something else than what it brings.
   */
  lemma RefusedIff(actions: seq<Action>, j: nat)
    requires j < |RunFrom(START, actions).history| && RunFrom(START, actions).history[j].Stored?
    ensures var h := RunFrom(START, actions).history;
            && h[j].result in {Accepted, AlreadyExists}
            && (h[j].result == AlreadyExists <==>
                exists i: nat :: LastStored(h, i, j, h[j].command.boxID) && h[i].current + 1 >= h[j].current
                            && !Erased(h, i, j) && !LeftSame(h[i], h[j].command))
  {
    var h := RunFrom(START, actions).history;
    var b := h[j].command.boxID;
    WritersSeeTheLast(actions, j);
    EpochsInOrder(actions, b);
    forall i: nat | LastStored(h, i, j, b) && h[i].current + 1 >= h[j].current && !Erased(h, i, j)
      ensures Seen(HeldOf(h[..j], b), h[j].current) == Left(h[i]) && Left(h[i]) != Absent
      ensures Left(h[i]) == Box(h[j].command.payload, h[j].command.signature) <==> LeftSame(h[i], h[j].command)
    {
      HeldIsLast(h, i, j, b);
      LeftIff(h, i, b, h[j].command);
    }
    if Seen(HeldOf(h[..j], b), h[j].current) != Absent { var i := HeldFrom(h, j, b); }
  }

  /**
   Two writes of one box in every interleaving, the first of them put, the second in the same or the next epoch, with no
   tombstone and no erasing collection between them: the second is accepted exactly if it is the same.
   */
  lemma SecondWriteAnswered(actions: seq<Action>, i: nat, j: nat)
    requires var h := RunFrom(START, actions).history;
             && i < j < |h| && h[i].Stored? && h[j].Stored? && Stores(h, i, h[j].command.boxID)
             && h[j].current <= h[i].current + 1 && !Erased(h, i, j)
             && forall k :: i < k < j && h[k].Buried? ==> h[k].boxID != h[j].command.boxID
    ensures var h := RunFrom(START, actions).history;
            h[j].result == if h[j].command == h[i].command && 100 + |h[i].command.payload| <= 16777216 then Accepted
                           else AlreadyExists
  {
    var h := RunFrom(START, actions).history;
    var b := h[j].command.boxID;
    EpochsInOrder(actions, b);
    forall k | i < k < j && OnBox(h[k], b) ensures !Stores(h, k, b) {
      assert OnBox(h[j], b) && h[k].current <= h[j].current;
      assert !Erased(h, i, k);
      PutsIff(actions, k);
    }
    assert LastStored(h, i, j, b);
    RefusedIff(actions, j);
  }

  // ---- Two accepted writes ----

  /** No tombstone for the box, and no collection that reaches the epochs kept at `f`. */
  predicate Calm(c: Commit, b: BoxID, f: Epoch) {
    match c
    case Stored(_, _, _, _) => true
    case Buried(_, x, _, _) => x != b
    case Collected(e) => e <= f
  }

  lemma EpochsBetween(h: seq<Commit>, i: nat, j: nat, b: BoxID)
    requires i < j < |h| && InOrder(h, b) && OnBox(h[i], b) && OnBox(h[j], b)
    ensures h[i].current <= h[j].current
    ensures forall k :: i < k < j && OnBox(h[k], b) ==> h[i].current <= h[k].current <= h[j].current
  {}

  /** Two accepted writes of one box under one epoch agree, an idempotent first one included. */
  lemma SameEpochWritesAgree(actions: seq<Action>, i: nat, j: nat)
    requires var h := RunFrom(START, actions).history;
             && i < j < |h| && h[i].Stored? && h[j].Stored? && h[i].result == Accepted && h[j].result == Accepted
             && h[i].command.boxID == h[j].command.boxID && h[i].current == h[j].current
             && 100 + |h[i].command.payload| <= MAX_PARSE_SIZE
             && forall k :: i < k < j ==> Calm(h[k], h[i].command.boxID, h[i].current)
    ensures var h := RunFrom(START, actions).history; h[i].command == h[j].command
  {
    var h := RunFrom(START, actions).history;
    EpochsInOrder(actions, h[i].command.boxID);
    EpochsBetween(h, i, j, h[i].command.boxID);
    AcceptedWritesAgree(actions, i, j);
  }
}

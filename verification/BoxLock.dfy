/**
 The reference-counted lock table under every interleaving of any number of threads. Looking an entry up and
 counting oneself in are two steps, and so are counting oneself out and reclaiming the entry, so a thread may
 be overtaken anywhere; only locksMu and the entry's own mutex hold others back.
 */
module BoxLock {
  import opened Wrappers

  type Tid = nat
  type LockId = nat

  datatype Phase =
    | Idle       // before acquireBoxLock
    | Looked     // holds locksMu; has the entry, refCount not yet raised
    | Waiting    // counted; at bl.mu.Lock()
    | Critical   // holds bl.mu
    | Unlocked   // has released bl.mu; still counted
    | Dropped    // holds locksMu; refCount lowered, entry not yet reclaimed
    | Finished

  datatype Seat<B> = Seat(box: B, phase: Phase, lock: LockId)

  datatype Locks<!B> = Locks(
    seats: map<Tid, Seat<B>>,
    table: map<B, LockId>,        // boxLocks
    refs: map<LockId, int>,       // boxLock.refCount
    holder: map<LockId, Tid>,     // which thread holds boxLock.mu
    locksMu: Option<Tid>,
    nextLock: LockId)

  function NoLocks<B>(): Locks<B> { Locks(map[], map[], map[], map[], None, 0) }

  datatype Move = LookUp | Count | Acquire | Release | Uncount | Reclaim

  predicate In<B>(m: Locks<B>, t: Tid, p: Phase) { t in m.seats && m.seats[t].phase == p }

  predicate CanMove<B>(m: Locks<B>, t: Tid, a: Move) {
    match a
    case LookUp => In(m, t, Idle) && m.locksMu == None
    case Count => In(m, t, Looked) && m.seats[t].lock in m.refs
    case Acquire => In(m, t, Waiting) && m.seats[t].lock !in m.holder
    case Release => In(m, t, Critical)
    case Uncount => In(m, t, Unlocked) && m.locksMu == None && m.seats[t].lock in m.refs
    case Reclaim => In(m, t, Dropped) && m.seats[t].lock in m.refs
  }

  function Arrive<B>(m: Locks<B>, t: Tid, box: B): Locks<B> {
    m.(seats := m.seats[t := Seat(box, Idle, 0)])
  }

  function MoveTo<B>(m: Locks<B>, t: Tid, p: Phase): Locks<B>
    requires t in m.seats
  {
    m.(seats := m.seats[t := m.seats[t].(phase := p)])
  }

  function DoMove<B>(m: Locks<B>, t: Tid, a: Move): Locks<B>
    requires CanMove(m, t, a)
  {
    var s := m.seats[t];
    match a
    case LookUp =>
      if s.box in m.table
      then m.(seats := m.seats[t := Seat(s.box, Looked, m.table[s.box])], locksMu := Some(t))
      else m.(seats := m.seats[t := Seat(s.box, Looked, m.nextLock)], locksMu := Some(t),
              table := m.table[s.box := m.nextLock], refs := m.refs[m.nextLock := 0], nextLock := m.nextLock + 1)
    case Count => MoveTo(m, t, Waiting).(locksMu := None, refs := m.refs[s.lock := m.refs[s.lock] + 1])
    case Acquire => MoveTo(m, t, Critical).(holder := m.holder[s.lock := t])
    case Release => MoveTo(m, t, Unlocked).(holder := m.holder - {s.lock})
    case Uncount => MoveTo(m, t, Dropped).(locksMu := Some(t), refs := m.refs[s.lock := m.refs[s.lock] - 1])
    case Reclaim =>
      var m' := MoveTo(m, t, Finished).(locksMu := None);
      if m.refs[s.lock] == 0 then m'.(table := m.table - {s.box}) else m'
  }

  // ---- The invariant ----

  predicate InTable(p: Phase) { p == Looked || p == Dropped }
  predicate Counted(p: Phase) { p == Waiting || p == Critical || p == Unlocked }
  predicate Attached(p: Phase) { InTable(p) || Counted(p) }

  ghost function Users<B>(seats: map<Tid, Seat<B>>, l: LockId): set<Tid> {
    set t | t in seats && Counted(seats[t].phase) && seats[t].lock == l
  }

  /** locksMu is held by exactly the thread that stands inside one of its sections. */
  ghost predicate TableMutex<B>(m: Locks<B>) {
    && (forall t :: t in m.seats && InTable(m.seats[t].phase) ==> m.locksMu == Some(t))
    && (m.locksMu.Some? ==> m.locksMu.value in m.seats && InTable(m.seats[m.locksMu.value].phase))
  }

  /** Whoever is attached to a box uses the lock object the table has for it now. */
  ghost predicate OneLockPerBox<B(!new)>(m: Locks<B>) {
    && (forall t :: t in m.seats && Attached(m.seats[t].phase) ==>
          m.seats[t].box in m.table && m.table[m.seats[t].box] == m.seats[t].lock)
    && (forall b :: b in m.table ==> m.table[b] < m.nextLock)
    && (forall b, c :: b in m.table && c in m.table && m.table[b] == m.table[c] ==> b == c)
  }

  ghost predicate Live<B>(m: Locks<B>, b: B) {
    b in m.table && m.table[b] in m.refs && m.refs[m.table[b]] == |Users(m.seats, m.table[b])|
  }

  ghost predicate RefCounts<B(!new)>(m: Locks<B>) {
    && (forall b :: b in m.table ==> Live(m, b))
    && (forall b :: b in m.table && m.refs[m.table[b]] <= 0 ==> Passing(m, b))
  }

  /** The thread inside a locksMu section is dealing with this box. */
  ghost predicate Passing<B>(m: Locks<B>, b: B) {
    m.locksMu.Some? && m.locksMu.value in m.seats && m.seats[m.locksMu.value].box == b
  }

  ghost predicate Holders<B>(m: Locks<B>) {
    && (forall t :: In(m, t, Critical) ==> m.seats[t].lock in m.holder && m.holder[m.seats[t].lock] == t)
    && (forall l :: l in m.holder ==> In(m, m.holder[l], Critical) && m.seats[m.holder[l]].lock == l)
  }

  ghost predicate Inv<B(!new)>(m: Locks<B>) {
    TableMutex(m) && OneLockPerBox(m) && RefCounts(m) && Holders(m)
  }

  /** How one thread's move changes who is counted on a lock. */
  lemma UsersAfter<B>(seats: map<Tid, Seat<B>>, t: Tid, s: Seat<B>, l: LockId)
    ensures var was := t in seats && Counted(seats[t].phase) && seats[t].lock == l;
            var now := Counted(s.phase) && s.lock == l;
            |Users(seats[t := s], l)| == |Users(seats, l)| + (if now then 1 else 0) - (if was then 1 else 0)
  {
    var before, after := Users(seats, l), Users(seats[t := s], l);
    if Counted(s.phase) && s.lock == l {
      assert after == before + {t};
    } else {
      assert after == before - {t};
    }
  }

  lemma NoUsers<B>(seats: map<Tid, Seat<B>>, l: LockId)
    requires |Users(seats, l)| == 0
    ensures forall u :: u in seats && seats[u].lock == l ==> !Counted(seats[u].phase)
  {
    assert forall u :: u in seats && seats[u].lock == l && Counted(seats[u].phase) ==> u in Users(seats, l);
  }

  /** `m'` differs from `m` in the seat of `t` and in what the move did to the shared tables. */
  ghost predicate Moved<B>(m: Locks<B>, m': Locks<B>, t: Tid) {
    t in m'.seats && m'.seats == m.seats[t := m'.seats[t]]
  }

  lemma SameHolders<B>(m: Locks<B>, m': Locks<B>, t: Tid)
    requires Holders(m) && Moved(m, m', t) && m'.holder == m.holder && !In(m, t, Critical) && !In(m', t, Critical)
    ensures Holders(m')
  {}

  lemma AcquireHolders<B>(m: Locks<B>, t: Tid)
    requires Holders(m) && CanMove(m, t, Acquire)
    ensures Holders(DoMove(m, t, Acquire))
  {}

  lemma ReleaseHolders<B>(m: Locks<B>, t: Tid)
    requires Holders(m) && CanMove(m, t, Release)
    ensures Holders(DoMove(m, t, Release))
  {}

  lemma MoveKeepsHolders<B>(m: Locks<B>, t: Tid, a: Move)
    requires Holders(m) && CanMove(m, t, a)
    ensures Holders(DoMove(m, t, a))
  {
    if a == Acquire {
      AcquireHolders(m, t);
    } else if a == Release {
      ReleaseHolders(m, t);
    } else {
      SameHolders(m, DoMove(m, t, a), t);
    }
  }

  lemma MoveKeepsTableMutex<B>(m: Locks<B>, t: Tid, a: Move)
    requires TableMutex(m) && CanMove(m, t, a)
    ensures TableMutex(DoMove(m, t, a))
  {}

  lemma SameTable<B(!new)>(m: Locks<B>, m': Locks<B>, t: Tid)
    requires OneLockPerBox(m) && Moved(m, m', t) && m'.table == m.table && m'.nextLock == m.nextLock
    requires Attached(m'.seats[t].phase) ==> m'.seats[t].box in m.table && m.table[m'.seats[t].box] == m'.seats[t].lock
    ensures OneLockPerBox(m')
  {}

  lemma NewEntry<B(!new)>(m: Locks<B>, t: Tid)
    requires OneLockPerBox(m) && CanMove(m, t, LookUp) && m.seats[t].box !in m.table
    ensures OneLockPerBox(DoMove(m, t, LookUp))
  {}

  /** The entry may go: the only thread attached to it is the one that leaves. */
  lemma EntryReclaimed<B(!new)>(m: Locks<B>, t: Tid)
    requires TableMutex(m) && OneLockPerBox(m) && CanMove(m, t, Reclaim) && m.refs[m.seats[t].lock] == 0
    requires Live(m, m.seats[t].box)
    ensures OneLockPerBox(DoMove(m, t, Reclaim))
  {
    NoUsers(m.seats, m.seats[t].lock);
  }

  lemma MoveKeepsOneLock<B(!new)>(m: Locks<B>, t: Tid, a: Move)
    requires Inv(m) && CanMove(m, t, a)
    ensures OneLockPerBox(DoMove(m, t, a))
  {
    if a == LookUp && m.seats[t].box !in m.table {
      NewEntry(m, t);
    } else if a == Reclaim && m.refs[m.seats[t].lock] == 0 {
      EntryReclaimed(m, t);
    } else {
      SameTable(m, DoMove(m, t, a), t);
    }
  }

  lemma NewEntryLive<B(!new)>(m: Locks<B>, t: Tid)
    requires OneLockPerBox(m) && CanMove(m, t, LookUp) && m.seats[t].box !in m.table
    ensures Live(DoMove(m, t, LookUp), m.seats[t].box)
  {
    assert Users(m.seats, m.nextLock) == {};
    UsersAfter(m.seats, t, DoMove(m, t, LookUp).seats[t], m.nextLock);
  }

  lemma MoveKeepsLive<B(!new)>(m: Locks<B>, t: Tid, a: Move, b: B)
    requires OneLockPerBox(m) && CanMove(m, t, a) && b in DoMove(m, t, a).table
    requires b in m.table ==> Live(m, b)
    ensures Live(DoMove(m, t, a), b)
  {
    if b in m.table {
      UsersAfter(m.seats, t, DoMove(m, t, a).seats[t], m.table[b]);
    } else {
      NewEntryLive(m, t);
    }
  }

  lemma OtherBoxPositive<B(!new)>(m: Locks<B>, t: Tid, a: Move, b: B)
    requires TableMutex(m) && OneLockPerBox(m) && CanMove(m, t, a) && b in m.table && b != m.seats[t].box
    requires Live(m, b) && (m.refs[m.table[b]] > 0 || Passing(m, b))
    ensures var m' := DoMove(m, t, a);
            && b in m'.table && m'.table[b] in m'.refs && (m'.refs[m'.table[b]] > 0 || Passing(m', b))
  {
    assert Attached(m.seats[t].phase) ==> m.seats[t].lock != m.table[b];
    match a {
      case Acquire =>
      case Release =>
      case _ => assert m.locksMu == None || m.locksMu == Some(t);
    }
  }

  lemma OwnBoxPositive<B(!new)>(m: Locks<B>, t: Tid, a: Move)
    requires TableMutex(m) && OneLockPerBox(m) && CanMove(m, t, a)
    requires var b := m.seats[t].box; b in m.table ==> Live(m, b) && (m.refs[m.table[b]] > 0 || Passing(m, b))
    ensures var m', b := DoMove(m, t, a), m.seats[t].box;
            b in m'.table ==> m'.table[b] in m'.refs && (m'.refs[m'.table[b]] > 0 || Passing(m', b))
  {}

  /** A count can only be zero for the box of the thread inside a locksMu section. */
  lemma MoveKeepsPositive<B(!new)>(m: Locks<B>, t: Tid, a: Move, b: B)
    requires TableMutex(m) && OneLockPerBox(m) && RefCounts(m) && CanMove(m, t, a) && b in DoMove(m, t, a).table
    requires Live(DoMove(m, t, a), b)
    ensures DoMove(m, t, a).refs[DoMove(m, t, a).table[b]] > 0 || Passing(DoMove(m, t, a), b)
  {
    assert b in m.table ==> Live(m, b) && (m.refs[m.table[b]] > 0 || Passing(m, b));
    if b == m.seats[t].box {
      OwnBoxPositive(m, t, a);
    } else {
      OtherBoxPositive(m, t, a, b);
    }
  }

  lemma MoveKeepsRefCounts<B(!new)>(m: Locks<B>, t: Tid, a: Move)
    requires Inv(m) && CanMove(m, t, a)
    ensures RefCounts(DoMove(m, t, a))
  {
    var m' := DoMove(m, t, a);
    forall b | b in m'.table ensures Live(m', b) && (m'.refs[m'.table[b]] <= 0 ==> Passing(m', b)) {
      MoveKeepsLive(m, t, a, b);
      MoveKeepsPositive(m, t, a, b);
    }
  }

  lemma MoveKeepsInv<B(!new)>(m: Locks<B>, t: Tid, a: Move)
    requires Inv(m) && CanMove(m, t, a)
    ensures Inv(DoMove(m, t, a))
  {
    MoveKeepsTableMutex(m, t, a);
    MoveKeepsHolders(m, t, a);
    MoveKeepsOneLock(m, t, a);
    MoveKeepsRefCounts(m, t, a);
  }

  lemma ArriveKeepsInv<B(!new)>(m: Locks<B>, t: Tid, box: B)
    requires Inv(m) && t !in m.seats
    ensures Inv(Arrive(m, t, box))
  {
    var m' := Arrive(m, t, box);
    SameHolders(m, m', t);
    SameTable(m, m', t);
    forall b | b in m'.table ensures Live(m', b) {
      assert Live(m, b);
      UsersAfter(m.seats, t, m'.seats[t], m.table[b]);
    }
  }

  // ---- What the lock buys ----

  ghost predicate Contend<B>(m: Locks<B>, t: Tid, u: Tid) {
    && t in m.seats && u in m.seats && t != u && m.seats[t].box == m.seats[u].box
    && Attached(m.seats[t].phase) && Attached(m.seats[u].phase)
  }

  /**
   Per-box exclusion with a reclaimed table: threads contending for one box share one lock object, at most one
   of them is in the critical section, the reference count is the number of threads between acquire and
   release, and outside the locksMu sections an entry exists exactly while that number is positive.
   */
  ghost predicate Exclusive<B(!new)>(m: Locks<B>) {
    && (forall t, u | Contend(m, t, u) ::
          m.seats[t].lock == m.seats[u].lock && !(m.seats[t].phase == Critical && m.seats[u].phase == Critical))
    && (forall b :: b in m.table ==> Live(m, b))
    && (m.locksMu == None ==> forall b :: b in m.table <==> exists t :: Uses(m, t, b))
  }

  ghost predicate Uses<B>(m: Locks<B>, t: Tid, b: B) {
    t in m.seats && Counted(m.seats[t].phase) && m.seats[t].box == b
  }

  lemma InvExcludes<B(!new)>(m: Locks<B>)
    requires Inv(m)
    ensures Exclusive(m)
  {
    if m.locksMu == None {
      forall b | b in m.table ensures exists t :: Uses(m, t, b) {
        var l := m.table[b];
        assert Live(m, b) && |Users(m.seats, l)| > 0;
        var t :| t in Users(m.seats, l);
        assert m.table[m.seats[t].box] == l;
        assert Uses(m, t, b);
      }
      forall b, t | Uses(m, t, b) ensures b in m.table {
        assert Attached(m.seats[t].phase);
      }
    }
  }
}

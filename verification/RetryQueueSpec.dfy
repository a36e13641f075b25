/** The connector's queue of commands for peers without a connection, as a sequence. */
module RetryQueueSpec {
  import opened Wrappers

  type Peer = nat
  type Time = nat

  datatype Command = ReplicaWrite(boxID: nat, body: nat) | ReplicaMessage(envelopeHash: nat, body: nat) | Other(body: nat)

  /** What a command is known by; commands of other types are never merged. */
  function Identity(c: Command): Option<nat> {
    match c
    case ReplicaWrite(boxID, _) => Some(boxID)
    case ReplicaMessage(hash, _) => Some(hash)
    case Other(_) => None
  }

  datatype Entry = Entry(cmd: Command, peer: Peer, attempts: nat, firstSeen: Time, lastTry: Time)

  /** maxRetryQueuePerPeer and retryTTL */
  datatype Limits = Limits(perPeer: nat, ttl: nat)

  function Kept(q: seq<Entry>, f: Entry -> bool): seq<Entry> {
    if q == [] then [] else Kept(q[..|q| - 1], f) + (if f(q[|q| - 1]) then [q[|q| - 1]] else [])
  }

  predicate Alive(e: Entry, now: Time, l: Limits) { now - e.firstSeen <= l.ttl }

  function Prune(q: seq<Entry>, now: Time, l: Limits): seq<Entry> { Kept(q, (e: Entry) => Alive(e, now, l)) }

  function ForPeer(q: seq<Entry>, peer: Peer): seq<Entry> { Kept(q, (e: Entry) => e.peer == peer) }

  predicate Same(e: Entry, peer: Peer, cmd: Command) {
    e.peer == peer && Identity(cmd).Some? && Identity(e.cmd) == Identity(cmd)
  }

  function FirstSame(q: seq<Entry>, peer: Peer, cmd: Command): (i: nat)
    ensures i <= |q| && (i < |q| ==> Same(q[i], peer, cmd))
    ensures forall j :: 0 <= j < i ==> !Same(q[j], peer, cmd)
  {
    if q == [] || Same(q[0], peer, cmd) then 0 else 1 + FirstSame(q[1..], peer, cmd)
  }

  function FirstFor(q: seq<Entry>, peer: Peer): (i: nat)
    ensures i <= |q| && (i < |q| ==> q[i].peer == peer)
    ensures forall j :: 0 <= j < i ==> q[j].peer != peer
  {
    if q == [] || q[0].peer == peer then 0 else 1 + FirstFor(q[1..], peer)
  }

  function EvictOldest(q: seq<Entry>, peer: Peer): seq<Entry> {
    var i := FirstFor(q, peer);
    if i < |q| then q[..i] + q[i + 1..] else q
  }

  function Again(e: Entry, cmd: Command, now: Time): Entry { e.(cmd := cmd, lastTry := now, attempts := e.attempts + 1) }

  function Room(q: seq<Entry>, peer: Peer, l: Limits): seq<Entry> {
    if |ForPeer(q, peer)| >= l.perPeer then EvictOldest(q, peer) else q
  }

  function Added(q: seq<Entry>, cmd: Command, peer: Peer, now: Time, l: Limits): seq<Entry> {
    Room(q, peer, l) + [Entry(cmd, peer, 1, now, now)]
  }

  /** The clock is read once for pruning and again afterwards. */
  function QueueForRetry(q: seq<Entry>, cmd: Command, peer: Peer, now: Time, later: Time, l: Limits): seq<Entry> {
    var p := Prune(q, now, l);
    var i := FirstSame(p, peer, cmd);
    if i < |p| then p[i := Again(p[i], cmd, later)] else Added(p, cmd, peer, later, l)
  }

  /** The connections there are at the moment each entry is looked at, by its index; they may come and go in between. */
  type Lookups = seq<set<Peer>>

  predicate Up(lookups: Lookups, i: nat, e: Entry) { i < |lookups| && e.peer in lookups[i] }

  function Select(q: seq<Entry>, lookups: Lookups, up: bool): seq<Entry> {
    if q == [] then []
    else
      Select(q[..|q| - 1], lookups, up) + (if Up(lookups, |q| - 1, q[|q| - 1]) == up then [q[|q| - 1]] else [])
  }

  function Waiting(q: seq<Entry>, lookups: Lookups): seq<Entry> { Select(q, lookups, false) }

  function Sendable(q: seq<Entry>, lookups: Lookups): seq<Entry> { Select(q, lookups, true) }

  function Reversed(q: seq<Entry>): seq<Entry> { if q == [] then [] else [q[|q| - 1]] + Reversed(q[..|q| - 1]) }

  // ---- Laws of filtering ----

  lemma {:induction false} KeptConcat(a: seq<Entry>, b: seq<Entry>, f: Entry -> bool)
    ensures Kept(a + b, f) == Kept(a, f) + Kept(b, f)
    decreases |b|
  {
    if b == [] {
      assert a + b == a;
    } else {
      assert (a + b)[..|a + b| - 1] == a + b[..|b| - 1];
      KeptConcat(a, b[..|b| - 1], f);
    }
  }

  lemma {:induction false} KeptMember(q: seq<Entry>, f: Entry -> bool)
    ensures forall e :: e in Kept(q, f) <==> e in q && f(e)
    decreases |q|
  {
    if q != [] {
      assert q == q[..|q| - 1] + [q[|q| - 1]];
      KeptMember(q[..|q| - 1], f);
    }
  }

  lemma {:induction false} KeptNone(q: seq<Entry>, f: Entry -> bool)
    requires forall i :: 0 <= i < |q| ==> !f(q[i])
    ensures Kept(q, f) == []
    decreases |q|
  {
    if q != [] { KeptNone(q[..|q| - 1], f); }
  }

  lemma {:induction false} KeptCommute(q: seq<Entry>, f: Entry -> bool, g: Entry -> bool)
    ensures Kept(Kept(q, f), g) == Kept(Kept(q, g), f)
    decreases |q|
  {
    if q != [] {
      var e := q[|q| - 1];
      KeptCommute(q[..|q| - 1], f, g);
      KeptConcat(Kept(q[..|q| - 1], f), if f(e) then [e] else [], g);
      KeptConcat(Kept(q[..|q| - 1], g), if g(e) then [e] else [], f);
      KeptOne(e, f);
      KeptOne(e, g);
    }
  }

  lemma KeptOne(e: Entry, f: Entry -> bool)
    ensures Kept([e], f) == if f(e) then [e] else []
  {
    assert [e][..0] == [];
  }

  // ---- What every run keeps ----

  /** No peer has two entries with the same identity. */
  ghost predicate Distinct(q: seq<Entry>) {
    forall i, j :: 0 <= i < j < |q| && q[i].peer == q[j].peer && Identity(q[i].cmd).Some? ==>
      Identity(q[i].cmd) != Identity(q[j].cmd)
  }

  ghost predicate Ordered(q: seq<Entry>, now: Time) {
    && (forall i, j :: 0 <= i < j < |q| ==> q[i].firstSeen <= q[j].firstSeen)
    && (forall i :: 0 <= i < |q| ==> q[i].firstSeen <= now)
  }

  function Cap(l: Limits): nat { if l.perPeer == 0 then 1 else l.perPeer }

  predicate WithinShare(q: seq<Entry>, p: Peer, l: Limits) { |ForPeer(q, p)| <= Cap(l) }

  ghost predicate Bounded(q: seq<Entry>, l: Limits) { forall p :: WithinShare(q, p, l) }

  ghost predicate QueueOk(q: seq<Entry>, now: Time, l: Limits) { Distinct(q) && Ordered(q, now) && Bounded(q, l) }

  lemma {:induction false} KeptDistinct(q: seq<Entry>, f: Entry -> bool)
    requires Distinct(q)
    ensures Distinct(Kept(q, f))
    decreases |q|
  {
    if q != [] {
      KeptDistinct(q[..|q| - 1], f);
      KeptMember(q[..|q| - 1], f);
      var last := q[|q| - 1];
      forall e | e in Kept(q[..|q| - 1], f) && e.peer == last.peer && Identity(e.cmd).Some?
        ensures Identity(e.cmd) != Identity(last.cmd)
      {
        var i :| 0 <= i < |q| - 1 && q[..|q| - 1][i] == e;
        assert q[i] == e;
      }
    }
  }

  lemma {:induction false} KeptOrdered(q: seq<Entry>, f: Entry -> bool, now: Time)
    requires Ordered(q, now)
    ensures Ordered(Kept(q, f), now)
    decreases |q|
  {
    if q != [] {
      KeptOrdered(q[..|q| - 1], f, now);
      KeptMember(q[..|q| - 1], f);
      forall e | e in Kept(q[..|q| - 1], f) ensures e.firstSeen <= q[|q| - 1].firstSeen {
        var i :| 0 <= i < |q| - 1 && q[..|q| - 1][i] == e;
        assert q[i] == e;
      }
    }
  }

  lemma {:induction false} KeptShorter(q: seq<Entry>, f: Entry -> bool)
    ensures |Kept(q, f)| <= |q|
    decreases |q|
  {
    if q != [] { KeptShorter(q[..|q| - 1], f); }
  }

  lemma KeptBounded(q: seq<Entry>, f: Entry -> bool, l: Limits)
    requires Bounded(q, l)
    ensures Bounded(Kept(q, f), l)
  {
    forall p ensures WithinShare(Kept(q, f), p, l) {
      assert WithinShare(q, p, l);
      KeptCommute(q, f, (e: Entry) => e.peer == p);
      KeptShorter(ForPeer(q, p), f);
    }
  }

  lemma KeptOk(q: seq<Entry>, f: Entry -> bool, now: Time, l: Limits)
    requires QueueOk(q, now, l)
    ensures QueueOk(Kept(q, f), now, l)
  {
    KeptDistinct(q, f);
    KeptOrdered(q, f, now);
    KeptBounded(q, f, l);
  }

  lemma {:induction false} SelectedFrom(q: seq<Entry>, lookups: Lookups, up: bool)
    ensures forall e :: e in Select(q, lookups, up) ==> exists i :: 0 <= i < |q| && q[i] == e && Up(lookups, i, e) == up
    decreases |q|
  {
    if q != [] {
      var before := q[..|q| - 1];
      SelectedFrom(before, lookups, up);
      forall e | e in Select(q, lookups, up) ensures exists i :: 0 <= i < |q| && q[i] == e && Up(lookups, i, e) == up {
        if e in Select(before, lookups, up) {
          var i :| 0 <= i < |before| && before[i] == e && Up(lookups, i, e) == up;
          assert q[i] == e;
        } else {
          assert q[|q| - 1] == e;
        }
      }
    }
  }

  lemma SelectLast(q: seq<Entry>, lookups: Lookups, up: bool)
    requires q != []
    ensures var before, last := Select(q[..|q| - 1], lookups, up), q[|q| - 1];
            Select(q, lookups, up) == if Up(lookups, |q| - 1, last) == up then before + [last] else before
  {}

  lemma {:induction false} SelectKeys(q: seq<Entry>, lookups: Lookups, up: bool, now: Time)
    requires Distinct(q) && Ordered(q, now)
    ensures Distinct(Select(q, lookups, up)) && Ordered(Select(q, lookups, up), now)
    decreases |q|
  {
    if q != [] {
      var some := Select(q[..|q| - 1], lookups, up);
      SelectLast(q, lookups, up);
      SelectKeys(q[..|q| - 1], lookups, up, now);
      SelectedFrom(q[..|q| - 1], lookups, up);
      LastApart(q, q[..|q| - 1], some);
      LaterAppended(some, q[|q| - 1], now);
    }
  }

  lemma LaterAppended(some: seq<Entry>, last: Entry, now: Time)
    requires Distinct(some) && Ordered(some, now) && last.firstSeen <= now
    requires forall e :: e in some ==> e.firstSeen <= last.firstSeen
    requires forall e :: e in some && e.peer == last.peer && Identity(e.cmd).Some? ==> Identity(e.cmd) != Identity(last.cmd)
    ensures Distinct(some + [last]) && Ordered(some + [last], now)
  {}

  /** What comes from before the last entry is older than it and has another identity. */
  lemma LastApart(q: seq<Entry>, before: seq<Entry>, some: seq<Entry>)
    requires q != [] && before == q[..|q| - 1] && forall e :: e in some ==> exists i :: 0 <= i < |before| && before[i] == e
    ensures (forall i, j :: 0 <= i < j < |q| ==> q[i].firstSeen <= q[j].firstSeen) ==>
              forall e :: e in some ==> e.firstSeen <= q[|q| - 1].firstSeen
    ensures var last := q[|q| - 1];
            Distinct(q) ==> forall e :: e in some && e.peer == last.peer && Identity(e.cmd).Some? ==> Identity(e.cmd) != Identity(last.cmd)
  {
    forall e | e in some ensures exists i :: 0 <= i < |q| - 1 && q[i] == e {
      var i :| 0 <= i < |before| && before[i] == e;
      assert q[i] == e;
    }
  }

  lemma {:induction false} SelectShorter(q: seq<Entry>, lookups: Lookups, up: bool, p: Peer)
    ensures |ForPeer(Select(q, lookups, up), p)| <= |ForPeer(q, p)|
    decreases |q|
  {
    if q != [] {
      var before, last := q[..|q| - 1], q[|q| - 1];
      SelectShorter(before, lookups, up, p);
      AddedForPeer(Select(before, lookups, up), last, p);
      assert Select(before, lookups, up) + [] == Select(before, lookups, up);
    }
  }

  lemma SelectOk(q: seq<Entry>, lookups: Lookups, up: bool, now: Time, l: Limits)
    requires QueueOk(q, now, l)
    ensures QueueOk(Select(q, lookups, up), now, l)
  {
    SelectKeys(q, lookups, up, now);
    forall p ensures WithinShare(Select(q, lookups, up), p, l) {
      assert WithinShare(q, p, l);
      SelectShorter(q, lookups, up, p);
    }
  }

  lemma {:induction false} ForPeerAt(q: seq<Entry>, i: nat, e: Entry, peer: Peer)
    requires i < |q| && q[i].peer == e.peer
    ensures |ForPeer(q[i := e], peer)| == |ForPeer(q, peer)|
    decreases |q|
  {
    if i < |q| - 1 {
      assert q[i := e][..|q| - 1] == q[..|q| - 1][i := e];
      ForPeerAt(q[..|q| - 1], i, e, peer);
    } else {
      assert q[i := e][..|q| - 1] == q[..|q| - 1];
    }
  }

  lemma AgainOk(q: seq<Entry>, i: nat, peer: Peer, cmd: Command, now: Time, later: Time, l: Limits)
    requires QueueOk(q, now, l) && now <= later && i < |q| && Same(q[i], peer, cmd)
    ensures QueueOk(q[i := Again(q[i], cmd, later)], later, l)
  {
    var q' := q[i := Again(q[i], cmd, later)];
    forall p ensures WithinShare(q', p, l) {
      assert WithinShare(q, p, l);
      ForPeerAt(q, i, Again(q[i], cmd, later), p);
    }
  }

  lemma RemovedAt(q: seq<Entry>, i: nat)
    requires i < |q|
    ensures var r := q[..i] + q[i + 1..];
            |r| == |q| - 1 && forall j :: 0 <= j < |r| ==> r[j] == q[if j < i then j else j + 1]
  {}

  lemma EvictionSpares(q: seq<Entry>, peer: Peer, p: Peer)
    ensures ForPeer(EvictOldest(q, peer), p)
            == if p == peer && ForPeer(q, p) != [] then ForPeer(q, p)[1..] else ForPeer(q, p)
  {
    var i, f := FirstFor(q, peer), (e: Entry) => e.peer == p;
    if i < |q| {
      ForPeerSplit(q, i, p);
      KeptConcat(q[..i], q[i + 1..], f);
      if p == peer { KeptNone(q[..i], f); }
    } else if p == peer {
      KeptNone(q, f);
    }
  }

  /** Eviction takes the oldest entry of the peer and nothing of anybody else's. */
  lemma EvictionIsFair(q: seq<Entry>, peer: Peer, other: Peer, now: Time)
    requires Ordered(q, now)
    ensures var mine := ForPeer(q, peer);
            && ForPeer(EvictOldest(q, peer), peer) == (if mine == [] then [] else mine[1..])
            && (forall i :: 0 <= i < |mine| ==> mine[0].firstSeen <= mine[i].firstSeen)
    ensures other != peer ==> ForPeer(EvictOldest(q, peer), other) == ForPeer(q, other)
  {
    EvictionSpares(q, peer, peer);
    EvictionSpares(q, peer, other);
    KeptOrdered(q, (e: Entry) => e.peer == peer, now);
  }

  lemma ForPeerSplit(q: seq<Entry>, i: nat, peer: Peer)
    requires i < |q|
    ensures ForPeer(q, peer) == ForPeer(q[..i], peer) + (if q[i].peer == peer then [q[i]] else []) + ForPeer(q[i + 1..], peer)
  {
    var f := (e: Entry) => e.peer == peer;
    assert q == q[..i] + ([q[i]] + q[i + 1..]);
    KeptConcat(q[..i], [q[i]] + q[i + 1..], f);
    KeptConcat([q[i]], q[i + 1..], f);
    KeptOne(q[i], f);
  }

  lemma RemovedDistinct(q: seq<Entry>, i: nat, now: Time)
    requires i < |q| && Distinct(q) && Ordered(q, now)
    ensures Distinct(q[..i] + q[i + 1..]) && Ordered(q[..i] + q[i + 1..], now)
  {
    RemovedAt(q, i);
  }

  lemma EvictKeys(q: seq<Entry>, peer: Peer, now: Time)
    requires Distinct(q) && Ordered(q, now)
    ensures Distinct(EvictOldest(q, peer)) && Ordered(EvictOldest(q, peer), now)
    ensures forall e :: e in EvictOldest(q, peer) ==> e in q
  {
    if FirstFor(q, peer) < |q| { RemovedDistinct(q, FirstFor(q, peer), now); }
  }

  lemma EvictOk(q: seq<Entry>, peer: Peer, now: Time, l: Limits)
    requires QueueOk(q, now, l)
    ensures QueueOk(EvictOldest(q, peer), now, l)
  {
    EvictKeys(q, peer, now);
    forall p ensures WithinShare(EvictOldest(q, peer), p, l) {
      assert WithinShare(q, p, l);
      EvictionSpares(q, peer, p);
    }
  }

  lemma AddedForPeer(q: seq<Entry>, e: Entry, p: Peer)
    ensures ForPeer(q + [e], p) == ForPeer(q, p) + (if e.peer == p then [e] else [])
  {
    KeptConcat(q, [e], (x: Entry) => x.peer == p);
    KeptOne(e, (x: Entry) => x.peer == p);
  }

  lemma AppendKeys(q: seq<Entry>, e: Entry, now: Time)
    requires Distinct(q) && Ordered(q, now) && now <= e.firstSeen
    requires forall x :: x in q ==> !Same(x, e.peer, e.cmd)
    ensures Distinct(q + [e]) && Ordered(q + [e], e.firstSeen)
  {
    forall i | 0 <= i < |q| ensures !Same(q[i], e.peer, e.cmd) {
      assert q[i] in q;
    }
  }

  lemma RoomOk(q: seq<Entry>, peer: Peer, now: Time, l: Limits)
    requires QueueOk(q, now, l)
    ensures QueueOk(Room(q, peer, l), now, l) && |ForPeer(Room(q, peer, l), peer)| < Cap(l)
    ensures forall e :: e in Room(q, peer, l) ==> e in q
  {
    assert WithinShare(q, peer, l);
    EvictOk(q, peer, now, l);
    EvictKeys(q, peer, now);
    EvictionSpares(q, peer, peer);
  }

  lemma AppendBounded(q: seq<Entry>, e: Entry, l: Limits)
    requires Bounded(q, l) && |ForPeer(q, e.peer)| < Cap(l)
    ensures Bounded(q + [e], l)
  {
    forall p ensures WithinShare(q + [e], p, l) {
      assert WithinShare(q, p, l);
      AddedForPeer(q, e, p);
    }
  }

  lemma AddedOk(q: seq<Entry>, cmd: Command, peer: Peer, now: Time, later: Time, l: Limits)
    requires QueueOk(q, now, l) && now <= later && FirstSame(q, peer, cmd) == |q|
    ensures QueueOk(Added(q, cmd, peer, later, l), later, l)
  {
    RoomOk(q, peer, now, l);
    AppendKeys(Room(q, peer, l), Entry(cmd, peer, 1, later, later), now);
    AppendBounded(Room(q, peer, l), Entry(cmd, peer, 1, later, later), l);
  }

  lemma QueueForRetryOk(q: seq<Entry>, cmd: Command, peer: Peer, now: Time, later: Time, l: Limits)
    requires QueueOk(q, now, l) && now <= later
    ensures QueueOk(QueueForRetry(q, cmd, peer, now, later, l), later, l)
  {
    var p := Prune(q, now, l);
    KeptOk(q, (e: Entry) => Alive(e, now, l), now, l);
    var i := FirstSame(p, peer, cmd);
    if i < |p| { AgainOk(p, i, peer, cmd, now, later, l); } else { AddedOk(p, cmd, peer, now, later, l); }
  }

  // ---- Runs ----

  datatype Step =
    | Retry(cmd: Command, peer: Peer, pause: nat)
    | Process(lookups: Lookups)
    | Tick(elapsed: nat)

  datatype State = State(queue: seq<Entry>, clock: Time)

  function Next(s: State, step: Step, l: Limits): State {
    match step
    case Retry(cmd, peer, pause) => State(QueueForRetry(s.queue, cmd, peer, s.clock, s.clock + pause, l), s.clock + pause)
    case Process(lookups) => State(Waiting(Prune(s.queue, s.clock, l), lookups), s.clock)
    case Tick(elapsed) => State(s.queue, s.clock + elapsed)
  }

  function Run(s: State, steps: seq<Step>, l: Limits): State
    decreases |steps|
  {
    if steps == [] then s else Run(Next(s, steps[0], l), steps[1..], l)
  }

  lemma {:induction false} RunOk(s: State, steps: seq<Step>, l: Limits)
    requires QueueOk(s.queue, s.clock, l)
    ensures QueueOk(Run(s, steps, l).queue, Run(s, steps, l).clock, l)
    decreases |steps|
  {
    if steps != [] {
      NextOk(s, steps[0], l);
      RunOk(Next(s, steps[0], l), steps[1..], l);
    }
  }

  lemma NextOk(s: State, step: Step, l: Limits)
    requires QueueOk(s.queue, s.clock, l)
    ensures QueueOk(Next(s, step, l).queue, Next(s, step, l).clock, l)
  {
    match step
    case Retry(cmd, peer, pause) => QueueForRetryOk(s.queue, cmd, peer, s.clock, s.clock + pause, l);
    case Process(lookups) =>
      KeptOk(s.queue, (e: Entry) => Alive(e, s.clock, l), s.clock, l);
      SelectOk(Prune(s.queue, s.clock, l), lookups, false, s.clock, l);
    case Tick(elapsed) =>
  }

  /** After every run from the empty queue: no duplicates, oldest first, and no peer over its share. */
  lemma EveryRunOk(steps: seq<Step>, l: Limits)
    ensures var s := Run(State([], 0), steps, l);
            Distinct(s.queue) && Ordered(s.queue, s.clock) && (forall p :: WithinShare(s.queue, p, l))
  {
    assert forall p :: WithinShare([], p, l);
    RunOk(State([], 0), steps, l);
  }

  // ---- What one call does ----

  /** Queueing a command for one peer leaves the live entries of every other peer as they were. */
  lemma OthersUntouched(q: seq<Entry>, cmd: Command, peer: Peer, now: Time, later: Time, l: Limits, other: Peer)
    requires other != peer
    ensures ForPeer(QueueForRetry(q, cmd, peer, now, later, l), other) == ForPeer(Prune(q, now, l), other)
  {
    var p := Prune(q, now, l);
    var i := FirstSame(p, peer, cmd);
    if i < |p| {
      var p' := p[i := Again(p[i], cmd, later)];
      ForPeerSplit(p, i, other);
      ForPeerSplit(p', i, other);
      assert p'[..i] == p[..i] && p'[i + 1..] == p[i + 1..];
    } else {
      EvictionSpares(p, peer, other);
      AddedForPeer(Room(p, peer, l), Entry(cmd, peer, 1, later, later), other);
    }
  }

  /** Writes are told apart by their box and messages by their hash, which share one space of names; others never match. */
  predicate SameNamed(c: Command, d: Command) {
    match (c, d)
    case (ReplicaWrite(b, _), ReplicaWrite(b', _)) => b == b'
    case (ReplicaWrite(b, _), ReplicaMessage(h, _)) => b == h
    case (ReplicaMessage(h, _), ReplicaWrite(b, _)) => h == b
    case (ReplicaMessage(h, _), ReplicaMessage(h', _)) => h == h'
    case _ => false
  }

  lemma SameIsNamed(e: Entry, peer: Peer, cmd: Command)
    ensures Same(e, peer, cmd) <==> e.peer == peer && SameNamed(e.cmd, cmd)
  {}

  /** The entry at `i` is the peer's only one for the command: as old as the live entry it replaces, or new. */
  ghost predicate LatestAt(live: seq<Entry>, q: seq<Entry>, i: nat, cmd: Command, peer: Peer, now: Time) {
    && i < |q| && q[i].peer == peer && q[i].cmd == cmd && q[i].lastTry == now
    && (forall j :: 0 <= j < |q| && j != i ==> !(q[j].peer == peer && SameNamed(q[j].cmd, cmd)))
    && (forall e :: e in live && e.peer == peer && SameNamed(e.cmd, cmd) ==>
          q[i].firstSeen == e.firstSeen && q[i].attempts == e.attempts + 1)
    && ((forall e :: e in live ==> !(e.peer == peer && SameNamed(e.cmd, cmd))) ==> q[i].firstSeen == now && q[i].attempts == 1)
  }

  /**
   A write or a message is in the queue exactly once afterwards, in its latest form: it keeps the age of the live entry it
   replaces and counts one more attempt, and if there is none it starts with the first.
   */
  lemma LatestCommandQueued(q: seq<Entry>, cmd: Command, peer: Peer, now: Time, later: Time, l: Limits)
    requires QueueOk(q, now, l) && now <= later && !cmd.Other?
    ensures exists i :: LatestAt(Prune(q, now, l), QueueForRetry(q, cmd, peer, now, later, l), i, cmd, peer, later)
  {
    var p, q' := Prune(q, now, l), QueueForRetry(q, cmd, peer, now, later, l);
    KeptOk(q, (e: Entry) => Alive(e, now, l), now, l);
    QueueForRetryOk(q, cmd, peer, now, later, l);
    var k := FirstSame(p, peer, cmd);
    if k < |p| { ReplacedIsLatest(p, q', k, cmd, peer, later); } else { AddedIsLatest(p, q', cmd, peer, later); }
  }

  lemma NoOtherSame(q: seq<Entry>, i: nat)
    requires Distinct(q) && i < |q|
    ensures forall j :: 0 <= j < |q| && j != i ==> !(q[j].peer == q[i].peer && SameNamed(q[j].cmd, q[i].cmd))
  {
    forall j | 0 <= j < |q| && j != i ensures !(q[j].peer == q[i].peer && SameNamed(q[j].cmd, q[i].cmd)) {
      SameIsNamed(q[j], q[i].peer, q[i].cmd);
      assert j < i || i < j;
    }
  }

  lemma ReplacedIsLatest(p: seq<Entry>, q: seq<Entry>, k: nat, cmd: Command, peer: Peer, now: Time)
    requires Distinct(p) && Distinct(q) && k < |p| && Same(p[k], peer, cmd) && q == p[k := Again(p[k], cmd, now)]
    ensures LatestAt(p, q, k, cmd, peer, now)
  {
    NoOtherSame(q, k);
    SameIsNamed(p[k], peer, cmd);
    forall e | e in p && e.peer == peer && SameNamed(e.cmd, cmd) ensures e == p[k] {
      SameIsNamed(e, peer, cmd);
      var j :| 0 <= j < |p| && p[j] == e;
      assert j == k;
    }
  }

  lemma AddedIsLatest(p: seq<Entry>, q: seq<Entry>, cmd: Command, peer: Peer, now: Time)
    requires Distinct(q) && FirstSame(p, peer, cmd) == |p| && q != [] && q[|q| - 1] == Entry(cmd, peer, 1, now, now)
    ensures LatestAt(p, q, |q| - 1, cmd, peer, now)
  {
    NoOtherSame(q, |q| - 1);
    forall e | e in p ensures !(e.peer == peer && SameNamed(e.cmd, cmd)) {
      SameIsNamed(e, peer, cmd);
    }
  }

  lemma {:induction false} ReversedSame(q: seq<Entry>)
    ensures multiset(Reversed(q)) == multiset(q)
    decreases |q|
  {
    if q != [] {
      assert q == q[..|q| - 1] + [q[|q| - 1]];
      ReversedSame(q[..|q| - 1]);
    }
  }

  lemma {:induction false} SelectedAll(q: seq<Entry>, lookups: Lookups)
    ensures multiset(Select(q, lookups, false)) + multiset(Select(q, lookups, true)) == multiset(q)
    decreases |q|
  {
    if q != [] {
      assert q == q[..|q| - 1] + [q[|q| - 1]];
      SelectedAll(q[..|q| - 1], lookups);
    }
  }

  /**
   Processing splits what is still alive: each entry is either sent or kept, once, and it is sent if and only if its peer
   was connected at the moment it was looked at, whatever connections came and went meanwhile.
   */
  lemma ProcessSplits(q: seq<Entry>, lookups: Lookups)
    ensures multiset(Waiting(q, lookups)) + multiset(Reversed(Sendable(q, lookups))) == multiset(q)
    ensures forall e :: e in Waiting(q, lookups) ==>
              exists i :: 0 <= i < |q| && q[i] == e && !(i < |lookups| && e.peer in lookups[i])
    ensures forall e :: e in Reversed(Sendable(q, lookups)) ==>
              exists i :: 0 <= i < |q| && q[i] == e && i < |lookups| && e.peer in lookups[i]
  {
    SelectedAll(q, lookups);
    ReversedSame(Sendable(q, lookups));
    SelectedFrom(q, lookups, false);
    SelectedFrom(q, lookups, true);
    forall e | e in Reversed(Sendable(q, lookups)) ensures e in Sendable(q, lookups) {
      assert e in multiset(Reversed(Sendable(q, lookups)));
    }
  }

  // ---- No command is lost ----

  /** A command for a peer. */
  datatype Item = Item(peer: Peer, cmd: Command)

  function One(e: Entry, x: Item): nat { if Item(e.peer, e.cmd) == x then 1 else 0 }

  function Count(q: seq<Entry>, x: Item): nat { if q == [] then 0 else Count(q[..|q| - 1], x) + One(q[|q| - 1], x) }

  /** Where one command for one peer has gone, counting each time it was given to the queue. */
  datatype Ledger = Ledger(
    queued: nat,        // given to QueueForRetry
    sent: nat,          // dispatched by ProcessRetryQueue
    expired: nat,       // past the time to live
    evicted: nat,       // the peer's oldest entry, at a time when its share was full
    superseded: nat)    // replaced by a later command with the same identity

  /** The entries that are older than the time to live. */
  function Dead(q: seq<Entry>, now: Time, l: Limits): seq<Entry> { Kept(q, (e: Entry) => now > e.firstSeen + l.ttl) }

  function Expire(b: Ledger, q: seq<Entry>, now: Time, l: Limits, x: Item): Ledger {
    b.(expired := b.expired + Count(Dead(q, now, l), x))
  }

  function BookRetry(b: Ledger, p: seq<Entry>, cmd: Command, peer: Peer, l: Limits, x: Item): Ledger {
    var given := b.(queued := b.queued + if Item(peer, cmd) == x then 1 else 0);
    var i, oldest := FirstSame(p, peer, cmd), FirstFor(p, peer);
    if i < |p| then given.(superseded := b.superseded + One(p[i], x))
    else if |ForPeer(p, peer)| >= l.perPeer && oldest < |p| then given.(evicted := b.evicted + One(p[oldest], x))
    else given
  }

  function Book(b: Ledger, s: State, step: Step, l: Limits, x: Item): Ledger {
    var p := Prune(s.queue, s.clock, l);
    match step
    case Retry(cmd, peer, _) => BookRetry(Expire(b, s.queue, s.clock, l, x), p, cmd, peer, l, x)
    case Process(lookups) => Expire(b, s.queue, s.clock, l, x).(sent := b.sent + Count(Reversed(Sendable(p, lookups)), x))
    case Tick(_) => b
  }

  function Booked(b: Ledger, s: State, steps: seq<Step>, l: Limits, x: Item): Ledger
    decreases |steps|
  {
    if steps == [] then b else Booked(Book(b, s, steps[0], l, x), Next(s, steps[0], l), steps[1..], l, x)
  }

  predicate Balanced(q: seq<Entry>, b: Ledger, x: Item) {
    Count(q, x) + b.sent + b.expired + b.evicted + b.superseded == b.queued
  }

  lemma {:induction false} CountConcat(a: seq<Entry>, b: seq<Entry>, x: Item)
    ensures Count(a + b, x) == Count(a, x) + Count(b, x)
    decreases |b|
  {
    if b == [] {
      assert a + b == a;
    } else {
      assert (a + b)[..|a + b| - 1] == a + b[..|b| - 1];
      CountConcat(a, b[..|b| - 1], x);
    }
  }

  lemma CountOne(e: Entry, x: Item)
    ensures Count([e], x) == One(e, x)
  {
    assert [e][..0] == [];
  }

  lemma CountAt(q: seq<Entry>, i: nat, x: Item)
    requires i < |q|
    ensures Count(q, x) == Count(q[..i], x) + One(q[i], x) + Count(q[i + 1..], x)
  {
    assert q == q[..i + 1] + q[i + 1..] && q[..i + 1][..i] == q[..i];
    CountConcat(q[..i + 1], q[i + 1..], x);
  }

  lemma CountUpdated(q: seq<Entry>, i: nat, e: Entry, x: Item)
    requires i < |q|
    ensures Count(q[i := e], x) == Count(q, x) - One(q[i], x) + One(e, x)
  {
    var q' := q[i := e];
    CountAt(q, i, x);
    CountAt(q', i, x);
    assert q'[..i] == q[..i] && q'[i + 1..] == q[i + 1..];
  }

  lemma CountRemoved(q: seq<Entry>, i: nat, x: Item)
    requires i < |q|
    ensures Count(q[..i] + q[i + 1..], x) == Count(q, x) - One(q[i], x)
  {
    CountAt(q, i, x);
    CountConcat(q[..i], q[i + 1..], x);
  }

  lemma {:induction false} CountSplit(q: seq<Entry>, f: Entry -> bool, g: Entry -> bool, x: Item)
    requires forall e :: f(e) != g(e)
    ensures Count(Kept(q, f), x) + Count(Kept(q, g), x) == Count(q, x)
    decreases |q|
  {
    if q != [] {
      var last := q[|q| - 1];
      CountSplit(q[..|q| - 1], f, g, x);
      CountConcat(Kept(q[..|q| - 1], f), if f(last) then [last] else [], x);
      CountConcat(Kept(q[..|q| - 1], g), if g(last) then [last] else [], x);
      CountOne(last, x);
    }
  }

  lemma {:induction false} SelectSplits(q: seq<Entry>, lookups: Lookups, x: Item)
    ensures Count(Waiting(q, lookups), x) + Count(Sendable(q, lookups), x) == Count(q, x)
    decreases |q|
  {
    if q != [] {
      var before, last := q[..|q| - 1], q[|q| - 1];
      SelectSplits(before, lookups, x);
      SelectLast(q, lookups, false);
      SelectLast(q, lookups, true);
      CountConcat(Select(before, lookups, Up(lookups, |q| - 1, last)), [last], x);
      CountOne(last, x);
    }
  }

  lemma {:induction false} CountReversed(q: seq<Entry>, x: Item)
    ensures Count(Reversed(q), x) == Count(q, x)
    decreases |q|
  {
    if q != [] {
      CountReversed(q[..|q| - 1], x);
      CountConcat([q[|q| - 1]], Reversed(q[..|q| - 1]), x);
      CountOne(q[|q| - 1], x);
    }
  }

  lemma PruneCounts(q: seq<Entry>, now: Time, l: Limits, x: Item)
    ensures Count(Prune(q, now, l), x) + Count(Dead(q, now, l), x) == Count(q, x)
  {
    CountSplit(q, (e: Entry) => Alive(e, now, l), (e: Entry) => now > e.firstSeen + l.ttl, x);
  }

  lemma RoomCounts(p: seq<Entry>, peer: Peer, l: Limits, x: Item)
    ensures Count(Room(p, peer, l), x)
            + (if |ForPeer(p, peer)| >= l.perPeer && FirstFor(p, peer) < |p| then One(p[FirstFor(p, peer)], x) else 0)
            == Count(p, x)
  {
    if FirstFor(p, peer) < |p| { CountRemoved(p, FirstFor(p, peer), x); }
  }

  lemma AddedCounts(p: seq<Entry>, cmd: Command, peer: Peer, later: Time, l: Limits, x: Item)
    ensures Count(Added(p, cmd, peer, later, l), x) == Count(Room(p, peer, l), x) + (if Item(peer, cmd) == x then 1 else 0)
  {
    var e := Entry(cmd, peer, 1, later, later);
    CountConcat(Room(p, peer, l), [e], x);
    CountOne(e, x);
  }

  lemma RetryBalanced(b: Ledger, p: seq<Entry>, cmd: Command, peer: Peer, later: Time, l: Limits, x: Item)
    requires Balanced(p, b, x)
    ensures var i := FirstSame(p, peer, cmd);
            Balanced(if i < |p| then p[i := Again(p[i], cmd, later)] else Added(p, cmd, peer, later, l),
                     BookRetry(b, p, cmd, peer, l, x), x)
  {
    var i := FirstSame(p, peer, cmd);
    if i < |p| {
      CountUpdated(p, i, Again(p[i], cmd, later), x);
    } else {
      RoomCounts(p, peer, l, x);
      AddedCounts(p, cmd, peer, later, l, x);
    }
  }

  lemma StepBalanced(b: Ledger, s: State, step: Step, l: Limits, x: Item)
    requires Balanced(s.queue, b, x)
    ensures Balanced(Next(s, step, l).queue, Book(b, s, step, l, x), x)
  {
    var p := Prune(s.queue, s.clock, l);
    PruneCounts(s.queue, s.clock, l, x);
    match step
    case Retry(cmd, peer, pause) =>
      RetryBalanced(Expire(b, s.queue, s.clock, l, x), p, cmd, peer, s.clock + pause, l, x);
    case Process(lookups) =>
      SelectSplits(p, lookups, x);
      CountReversed(Sendable(p, lookups), x);
    case Tick(_) =>
  }

  lemma {:induction false} RunBalanced(b: Ledger, s: State, steps: seq<Step>, l: Limits, x: Item)
    requires Balanced(s.queue, b, x)
    ensures Balanced(Run(s, steps, l).queue, Booked(b, s, steps, l, x), x)
    decreases |steps|
  {
    if steps != [] {
      StepBalanced(b, s, steps[0], l, x);
      RunBalanced(Book(b, s, steps[0], l, x), Next(s, steps[0], l), steps[1..], l, x);
    }
  }

  /**
   After every run each command ever given to the queue is accounted for exactly once: it is still queued, or was sent,
   has expired, was evicted, or was superseded.
   */
  lemma NothingLost(steps: seq<Step>, l: Limits, x: Item)
    ensures var s, b := Run(State([], 0), steps, l), Booked(Ledger(0, 0, 0, 0, 0), State([], 0), steps, l, x);
            Count(s.queue, x) + b.sent + b.expired + b.evicted + b.superseded == b.queued
  {
    RunBalanced(Ledger(0, 0, 0, 0, 0), State([], 0), steps, l, x);
  }
}

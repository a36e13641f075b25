/** When an entry leaves the retry queue, and when it is sent, in terms of its age and of the connections alone. */
module RetryQueueLaws {
  import opened RetryQueueSpec

  // ---- Expiry ----

  /**
   Pruning takes out the entries older than the time to live, and changes neither the order nor the number of the
   others.
   */
  lemma PruneIff(a: seq<Entry>, e: Entry, b: seq<Entry>, now: Time, l: Limits)
    ensures Prune([], now, l) == []
    ensures Prune(a + [e] + b, now, l) == Prune(a, now, l) + (if now <= e.firstSeen + l.ttl then [e] else []) + Prune(b, now, l)
  {
    var f := (x: Entry) => Alive(x, now, l);
    KeptConcat(a + [e], b, f);
    KeptConcat(a, [e], f);
    KeptOne(e, f);
  }

  lemma LiveIff(q: seq<Entry>, now: Time, l: Limits)
    ensures forall e :: e in Prune(q, now, l) <==> e in q && now <= e.firstSeen + l.ttl
  {
    KeptMember(q, (e: Entry) => Alive(e, now, l));
  }

  /** The ledger's expired commands are those older than the time to live at a moment of pruning, and no others. */
  lemma ExpiredIff(b: Ledger, s: State, step: Step, l: Limits, x: Item)
    ensures Book(b, s, step, l, x).expired > b.expired <==>
            !step.Tick? && exists e :: e in s.queue && Item(e.peer, e.cmd) == x && s.clock > e.firstSeen + l.ttl
  {
    KeptMember(s.queue, (e: Entry) => s.clock > e.firstSeen + l.ttl);
    CountIff(Dead(s.queue, s.clock, l), x);
  }

  lemma {:induction false} CountIff(q: seq<Entry>, x: Item)
    ensures Count(q, x) > 0 <==> exists e :: e in q && Item(e.peer, e.cmd) == x
    decreases |q|
  {
    if q != [] {
      CountIff(q[..|q| - 1], x);
      assert q == q[..|q| - 1] + [q[|q| - 1]];
    }
  }

  // ---- When an entry leaves the queue ----

  /** The entry's peer was connected at the moment the entry was looked at. */
  ghost predicate SentAt(live: seq<Entry>, e: Entry, lookups: Lookups) {
    exists i :: 0 <= i < |live| && live[i] == e && i < |lookups| && e.peer in lookups[i]
  }

  /** The command takes the place of the entry. */
  predicate Supersedes(cmd: Command, peer: Peer, e: Entry) { e.peer == peer && SameNamed(e.cmd, cmd) }

  /** A command that is new to a peer with a full share displaces the peer's oldest entry. */
  ghost predicate Displaces(live: seq<Entry>, cmd: Command, peer: Peer, e: Entry, l: Limits) {
    && (forall x :: x in live ==> !Supersedes(cmd, peer, x))
    && |ForPeer(live, peer)| >= l.perPeer && ForPeer(live, peer) != [] && ForPeer(live, peer)[0] == e
  }

  lemma OncePlaced(q: seq<Entry>, i: nat, j: nat)
    requires Distinct(q) && i < |q| && j < |q| && q[i] == q[j] && !q[i].cmd.Other?
    ensures i == j
  {}

  lemma WaitingIff(live: seq<Entry>, e: Entry, lookups: Lookups)
    requires Distinct(live) && !e.cmd.Other?
    ensures e in Waiting(live, lookups) <==> e in live && !SentAt(live, e, lookups)
  {
    ProcessSplits(live, lookups);
    assert multiset(Waiting(live, lookups))[e] + multiset(Reversed(Sendable(live, lookups)))[e] == multiset(live)[e];
    if e in Waiting(live, lookups) {
      var i :| 0 <= i < |live| && live[i] == e && !(i < |lookups| && e.peer in lookups[i]);
      forall j | 0 <= j < |live| && live[j] == e ensures j == i { OncePlaced(live, i, j); }
    } else if e in live {
      assert e in multiset(live);
      assert e in Reversed(Sendable(live, lookups));
    }
  }

  lemma {:induction false} FirstOf(q: seq<Entry>, peer: Peer)
    ensures FirstFor(q, peer) < |q| <==> ForPeer(q, peer) != []
    ensures FirstFor(q, peer) < |q| ==> ForPeer(q, peer)[0] == q[FirstFor(q, peer)]
  {
    var i := FirstFor(q, peer);
    if i < |q| { ForPeerSplit(q, i, peer); }
    KeptNone(q[..i], (e: Entry) => e.peer == peer);
    assert i == |q| ==> q[..i] == q;
  }

  lemma EvictedIff(live: seq<Entry>, e: Entry, peer: Peer, l: Limits)
    requires Distinct(live) && e in live && !e.cmd.Other?
    ensures e !in Room(live, peer, l) <==> |ForPeer(live, peer)| >= l.perPeer && ForPeer(live, peer) != [] && ForPeer(live, peer)[0] == e
  {
    FirstOf(live, peer);
    var k, i :| 0 <= k < |live| && live[k] == e && i == FirstFor(live, peer);
    if i < |live| {
      RemovedAt(live, i);
      if k != i {
        assert (live[..i] + live[i + 1..])[if k < i then k else k - 1] == e;
        if live[i] == e { OncePlaced(live, i, k); }
      }
      forall j | 0 <= j < |live| && live[j] == e ensures j == k { OncePlaced(live, j, k); }
    }
  }

  lemma ReplacedIff(live: seq<Entry>, e: Entry, k: nat, cmd: Command, peer: Peer, now: Time)
    requires Distinct(live) && e in live && !e.cmd.Other? && k < |live| && Same(live[k], peer, cmd)
    ensures e !in live[k := Again(live[k], cmd, now)] <==> Supersedes(cmd, peer, e)
  {
    var q := live[k := Again(live[k], cmd, now)];
    SameIsNamed(e, peer, cmd);
    SameIsNamed(live[k], peer, cmd);
    var j :| 0 <= j < |live| && live[j] == e;
    if j != k {
      assert q[j] == e;
    } else {
      forall i | 0 <= i < |q| ensures q[i] != e {
        assert i != k ==> live[i] != e;
      }
    }
  }

  lemma RetryIff(live: seq<Entry>, e: Entry, cmd: Command, peer: Peer, now: Time, l: Limits)
    requires Distinct(live) && e in live && !e.cmd.Other?
    ensures var k := FirstSame(live, peer, cmd);
            e !in (if k < |live| then live[k := Again(live[k], cmd, now)] else Added(live, cmd, peer, now, l))
            <==> Supersedes(cmd, peer, e) || Displaces(live, cmd, peer, e, l)
  {
    var k := FirstSame(live, peer, cmd);
    if k < |live| {
      ReplacedIff(live, e, k, cmd, peer, now);
      SameIsNamed(live[k], peer, cmd);
      assert live[k] in live && Supersedes(cmd, peer, live[k]);
    } else {
      EvictedIff(live, e, peer, l);
      forall x | x in live ensures !Supersedes(cmd, peer, x) { SameIsNamed(x, peer, cmd); }
      assert e.cmd == cmd ==> SameNamed(e.cmd, cmd);
    }
  }

  lemma OldStaysOut(q: seq<Entry>, e: Entry, cmd: Command, peer: Peer, now: Time, later: Time, l: Limits)
    requires e in q && now > e.firstSeen + l.ttl && now <= later
    ensures e !in QueueForRetry(q, cmd, peer, now, later, l)
  {
    LiveIff(q, now, l);
    var p := Prune(q, now, l);
    var k := FirstSame(p, peer, cmd);
    if k < |p| {
      assert p[k] in p;
    } else if FirstFor(p, peer) < |p| {
      RemovedAt(p, FirstFor(p, peer));
    }
  }

  lemma ProcessedIff(q: seq<Entry>, e: Entry, now: Time, lookups: Lookups, l: Limits)
    requires Distinct(q) && e in q && !e.cmd.Other?
    ensures var live := Prune(q, now, l);
            e !in Waiting(live, lookups) <==> now > e.firstSeen + l.ttl || SentAt(live, e, lookups)
  {
    KeptDistinct(q, (x: Entry) => Alive(x, now, l));
    LiveIff(q, now, l);
    WaitingIff(Prune(q, now, l), e, lookups);
  }

  lemma RetriedIff(q: seq<Entry>, e: Entry, now: Time, cmd: Command, peer: Peer, later: Time, l: Limits)
    requires Distinct(q) && e in q && !e.cmd.Other? && now <= later
    ensures e !in QueueForRetry(q, cmd, peer, now, later, l) <==>
            now > e.firstSeen + l.ttl || Supersedes(cmd, peer, e) || Displaces(Prune(q, now, l), cmd, peer, e, l)
  {
    KeptDistinct(q, (x: Entry) => Alive(x, now, l));
    LiveIff(q, now, l);
    if e in Prune(q, now, l) { RetryIff(Prune(q, now, l), e, cmd, peer, later, l); } else { OldStaysOut(q, e, cmd, peer, now, later, l); }
  }

  /**
   A write or a message leaves the queue in exactly these ways: it has become older than the time to live, it is sent, a
   later command of the same name takes its place, or it is the oldest of a peer whose share is full when a new one comes.
   */
  lemma LeavesIff(s: State, step: Step, e: Entry, l: Limits)
    requires QueueOk(s.queue, s.clock, l) && e in s.queue && !e.cmd.Other?
    ensures var live := Prune(s.queue, s.clock, l);
            e !in Next(s, step, l).queue <==>
            match step
            case Tick(_) => false
            case Process(lookups) => s.clock > e.firstSeen + l.ttl || SentAt(live, e, lookups)
            case Retry(cmd, peer, _) =>
              s.clock > e.firstSeen + l.ttl || Supersedes(cmd, peer, e) || Displaces(live, cmd, peer, e, l)
  {
    match step
    case Tick(_) =>
    case Process(lookups) => ProcessedIff(s.queue, e, s.clock, lookups, l);
    case Retry(cmd, peer, pause) => RetriedIff(s.queue, e, s.clock, cmd, peer, s.clock + pause, l);
  }

  /** A live entry whose peer is connected throughout the processing is sent, whatever its kind. */
  lemma ConnectedIsSent(s: State, lookups: Lookups, e: Entry, l: Limits)
    requires e in s.queue && s.clock <= e.firstSeen + l.ttl
    requires |s.queue| <= |lookups| && forall i :: 0 <= i < |lookups| ==> e.peer in lookups[i]
    ensures e in Reversed(Sendable(Prune(s.queue, s.clock, l), lookups)) && e !in Next(s, Process(lookups), l).queue
  {
    var live := Prune(s.queue, s.clock, l);
    LiveIff(s.queue, s.clock, l);
    KeptShorter(s.queue, (x: Entry) => Alive(x, s.clock, l));
    ProcessSplits(live, lookups);
    assert e in multiset(live);
  }

  /** No entry is left in the queue that was older than the time to live when the queue was last pruned. */
  lemma NoneTooOld(s: State, step: Step, l: Limits)
    requires !step.Tick?
    ensures forall e :: e in Next(s, step, l).queue ==> s.clock <= e.firstSeen + l.ttl
  {
    var live := Prune(s.queue, s.clock, l);
    LiveIff(s.queue, s.clock, l);
    match step
    case Process(lookups) => SelectedFrom(live, lookups, false);
    case Retry(cmd, peer, _) =>
      if FirstSame(live, peer, cmd) == |live| && FirstFor(live, peer) < |live| { RemovedAt(live, FirstFor(live, peer)); }
  }

  // ---- Runs ----

  ghost predicate SentIn(s: State, steps: seq<Step>, e: Entry, l: Limits)
    decreases |steps|
  {
    steps != [] && ((steps[0].Process? && SentAt(Prune(s.queue, s.clock, l), e, steps[0].lookups))
                    || SentIn(Next(s, steps[0], l), steps[1..], e, l))
  }

  ghost predicate ReplacedIn(s: State, steps: seq<Step>, e: Entry, l: Limits)
    decreases |steps|
  {
    steps != [] && ((steps[0].Retry? && (Supersedes(steps[0].cmd, steps[0].peer, e)
                                         || Displaces(Prune(s.queue, s.clock, l), steps[0].cmd, steps[0].peer, e, l)))
                    || ReplacedIn(Next(s, steps[0], l), steps[1..], e, l))
  }

  lemma {:induction false} ClockRises(s: State, steps: seq<Step>, l: Limits)
    ensures s.clock <= Run(s, steps, l).clock
    decreases |steps|
  {
    if steps != [] { ClockRises(Next(s, steps[0], l), steps[1..], l); }
  }

  /**
   Over every run: until its time to live is over, a queued write or message is sent, or replaced, or still queued as
   it was.
   */
  lemma {:induction false} SentOrStillQueued(s: State, steps: seq<Step>, e: Entry, l: Limits)
    requires QueueOk(s.queue, s.clock, l) && e in s.queue && !e.cmd.Other?
    requires Run(s, steps, l).clock <= e.firstSeen + l.ttl
    ensures e in Run(s, steps, l).queue || SentIn(s, steps, e, l) || ReplacedIn(s, steps, e, l)
    decreases |steps|
  {
    if steps != [] {
      var s1 := Next(s, steps[0], l);
      ClockRises(s1, steps[1..], l);
      StepRises(s, steps[0], l);
      LeavesIff(s, steps[0], e, l);
      if e in s1.queue {
        NextOk(s, steps[0], l);
        SentOrStillQueued(s1, steps[1..], e, l);
      }
    }
  }

  lemma StepRises(s: State, step: Step, l: Limits)
    ensures s.clock <= Next(s, step, l).clock
  {}

  /**
   What is queued for one peer after a new command: at the end the command, and before it what was live, less the
   oldest if the share was full.
   */
  lemma NewCommandQueued(q: seq<Entry>, cmd: Command, peer: Peer, now: Time, later: Time, l: Limits)
    requires forall x :: x in Prune(q, now, l) ==> !Supersedes(cmd, peer, x)
    ensures var q', mine := QueueForRetry(q, cmd, peer, now, later, l), ForPeer(Prune(q, now, l), peer);
            && q' != [] && q'[|q'| - 1] == Entry(cmd, peer, 1, later, later)
            && ForPeer(q', peer) == (if |mine| >= l.perPeer && mine != [] then mine[1..] else mine) + [Entry(cmd, peer, 1, later, later)]
  {
    var p := Prune(q, now, l);
    var k := FirstSame(p, peer, cmd);
    assert k < |p| ==> p[k] in p;
    if k < |p| { SameIsNamed(p[k], peer, cmd); }
    EvictionSpares(p, peer, peer);
    AddedForPeer(Room(p, peer, l), Entry(cmd, peer, 1, later, later), peer);
  }
}

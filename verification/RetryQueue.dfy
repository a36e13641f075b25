/** The connector's retry queue, compacted, spliced, updated and extended in place. */
module RetryQueue {
  import opened RetryQueueSpec

  class Connector {
    var retryQueue: seq<Entry>
    var conns: set<Peer>
    const limits: Limits

    /** Every command handed to a connection so far, in order. */
    var dispatched: seq<Command>

    constructor (limits: Limits)
      ensures retryQueue == [] && conns == {} && dispatched == [] && this.limits == limits
    {
      retryQueue, conns, dispatched, this.limits := [], {}, [], limits;
    }

    /** Moves the live entries to the front one by one and cuts off the rest. */
    method PruneRetryQueueLocked(now: Time)
      modifies this`retryQueue
      ensures retryQueue == Prune(old(retryQueue), now, limits)
    {
      if |retryQueue| == 0 { return; }
      ghost var q, f := retryQueue, (e: Entry) => Alive(e, now, limits);
      var j := 0;
      for i := 0 to |retryQueue|
        invariant |retryQueue| == |q| && j <= i
        invariant retryQueue[..j] == Kept(q[..i], f) && retryQueue[i..] == q[i..]
      {
        var rc := retryQueue[i];
        KeptMore(q, i, f);
        if now - rc.firstSeen <= limits.ttl {
          if i != j {
            retryQueue := retryQueue[j := rc];
          }
          assert retryQueue[..j + 1] == retryQueue[..j] + [rc];
          j := j + 1;
        }
      }
      assert q[..|q|] == q;
      retryQueue := retryQueue[..j];
    }

    static lemma KeptMore(q: seq<Entry>, i: nat, f: Entry -> bool)
      requires i < |q|
      ensures Kept(q[..i + 1], f) == Kept(q[..i], f) + (if f(q[i]) then [q[i]] else [])
      ensures q[i..][0] == q[i] && q[i..][1..] == q[i + 1..]
    {
      assert q[..i + 1][..i] == q[..i] && q[..i + 1][i] == q[i];
    }

    method QueueForRetry(cmd: Command, peer: Peer, now: Time, later: Time)
      modifies this`retryQueue
      ensures retryQueue == RetryQueueSpec.QueueForRetry(old(retryQueue), cmd, peer, now, later, limits)
    {
      PruneRetryQueueLocked(now);
      var ident := Identity(cmd);
      var peerCount := 0;
      ghost var p := retryQueue;
      for i := 0 to |retryQueue|
        invariant retryQueue == p && peerCount == |ForPeer(p[..i], peer)|
        invariant forall j :: 0 <= j < i ==> !Same(p[j], peer, cmd)
      {
        var rc := retryQueue[i];
        assert p[..i + 1][..i] == p[..i] && p[..i + 1][i] == rc;
        if rc.peer == peer {
          peerCount := peerCount + 1;
          if ident.Some? && Identity(rc.cmd) == ident {
            FirstSameIs(p, peer, cmd, i);
            retryQueue := retryQueue[i := rc.(cmd := cmd, lastTry := later, attempts := rc.attempts + 1)];
            return;
          }
        }
      }
      assert p[..|p|] == p;
      if peerCount >= limits.perPeer { EvictOldestOf(peer); }
      retryQueue := retryQueue + [Entry(cmd, peer, 1, later, later)];
    }

    /** A command for a peer without a connection waits instead of being dropped. */
    method DispatchCommand(cmd: Command, peer: Peer, now: Time, later: Time)
      modifies this`retryQueue, this`dispatched
      ensures peer in conns ==> dispatched == old(dispatched) + [cmd] && retryQueue == old(retryQueue)
      ensures peer !in conns ==>
                && dispatched == old(dispatched)
                && retryQueue == RetryQueueSpec.QueueForRetry(old(retryQueue), cmd, peer, now, later, limits)
    {
      if peer in conns {
        dispatched := dispatched + [cmd];
      } else {
        QueueForRetry(cmd, peer, now, later);
      }
    }

    lemma FirstSameIs(q: seq<Entry>, peer: Peer, cmd: Command, i: nat)
      requires i < |q| && Same(q[i], peer, cmd) && forall j :: 0 <= j < i ==> !Same(q[j], peer, cmd)
      ensures FirstSame(q, peer, cmd) == i
    {}

    method EvictOldestOf(peer: Peer)
      modifies this`retryQueue
      ensures retryQueue == EvictOldest(old(retryQueue), peer)
    {
      for i := 0 to |retryQueue|
        invariant retryQueue == old(retryQueue) && forall j :: 0 <= j < i ==> retryQueue[j].peer != peer
      {
        if retryQueue[i].peer == peer {
          retryQueue := retryQueue[..i] + retryQueue[i + 1..];
          return;
        }
      }
    }

    /**
     From the last entry to the first, so that a removal does not move what is still to be looked at. The connections are
     looked up afresh for each entry: `lookups` has them by the entry's index.
     */
    method ProcessRetryQueue(now: Time, lookups: Lookups)
      modifies this`retryQueue, this`dispatched
      ensures var alive := Prune(old(retryQueue), now, limits);
              && retryQueue == Waiting(alive, lookups)
              && dispatched == old(dispatched) + Commands(Reversed(Sendable(alive, lookups)))
    {
      PruneRetryQueueLocked(now);
      ghost var q, kept, sent := retryQueue, [], [];
      var i := |retryQueue|;
      assert q[..i] == q;
      while i > 0
        invariant 0 <= i <= |q| && retryQueue == q[..i] + kept && dispatched == old(dispatched) + Commands(sent)
        invariant Swept(q, i, kept, sent, lookups)
      {
        i := i - 1;
        var rc := retryQueue[i];
        SweptMore(q, i, kept, sent, lookups);
        if i < |lookups| && rc.peer in lookups[i] {
          dispatched := dispatched + [rc.cmd];
          retryQueue := retryQueue[..i] + retryQueue[i + 1..];
          CommandsSnoc(sent, rc);
          sent := sent + [rc];
        } else {
          kept := [rc] + kept;
        }
      }
    }

    /** From `i` on, `kept` is what waits and `sent` is what was sent, last first. */
    static ghost predicate Swept(q: seq<Entry>, i: nat, kept: seq<Entry>, sent: seq<Entry>, lookups: Lookups)
      requires i <= |q|
    {
      && Waiting(q, lookups) == Waiting(q[..i], lookups) + kept
      && Reversed(Sendable(q, lookups)) == sent + Reversed(Sendable(q[..i], lookups))
    }

    static lemma SweptMore(q: seq<Entry>, i: nat, kept: seq<Entry>, sent: seq<Entry>, lookups: Lookups)
      requires i < |q| && Swept(q, i + 1, kept, sent, lookups)
      ensures if Up(lookups, i, q[i]) then Swept(q, i, kept, sent + [q[i]], lookups) else Swept(q, i, [q[i]] + kept, sent, lookups)
    {
      var s := Sendable(q[..i], lookups);
      assert q[..i + 1][..i] == q[..i];
      if Up(lookups, i, q[i]) {
        assert Sendable(q[..i + 1], lookups) == s + [q[i]] && (s + [q[i]])[..|s|] == s;
      } else {
        assert Sendable(q[..i + 1], lookups) == s + [] == s;
      }
    }

    static function Commands(q: seq<Entry>): seq<Command> { seq(|q|, i requires 0 <= i < |q| => q[i].cmd) }

    static lemma CommandsSnoc(q: seq<Entry>, e: Entry)
      ensures Commands(q + [e]) == Commands(q) + [e.cmd]
    {}
  }
}

/** The guarantees of the retransmission engine over all its runs, and exactly where they end. */
module ArqTheorems {
  import opened Wrappers
  import opened ArqSpec
  import opened ArqProofs
  import Padding

  ghost function After(capacity: nat, steps: seq<Step>): World { Run(Init(capacity), steps) }

  lemma AfterGood(capacity: nat, steps: seq<Step>)
    ensures Good(After(capacity, steps))
  {
    InitGood(capacity);
    RunGood(Init(capacity), steps);
  }

  lemma {:induction false} RunSplits(w: World, a: seq<Step>, b: seq<Step>)
    ensures Run(w, a + b) == Run(Run(w, a), b)
    decreases |a|
  {
    if a == [] {
      assert a + b == b;
    } else {
      assert (a + b)[1..] == a[1..] + b;
      RunSplits(Next(w, a[0]), a[1..], b);
    }
  }

  lemma RunCons(w: World, s: Step, rest: seq<Step>)
    ensures Run(w, [s] + rest) == Run(Next(w, s), rest)
  {
    assert ([s] + rest)[1..] == rest;
  }

  lemma RunThree(w: World, s1: Step, s2: Step, s3: Step)
    ensures Run(w, [s1, s2, s3]) == Next(Next(Next(w, s1), s2), s3)
  {
    assert [s1, s2, s3] == [s1] + [s2, s3] && [s2, s3] == [s2] + [s3] && [s3] == [s3] + [];
    RunCons(w, s1, [s2, s3]);
    RunCons(Next(w, s1), s2, [s3]);
    RunCons(Next(Next(w, s1), s2), s3, []);
  }

  /** A client connects and starts an operation. */
  function OneStart(app: AppId): seq<Step> { [DoConnect(app), DoStart(Envelope, app, 0, true, false, false, true)] }

  lemma AfterOneStart(capacity: nat, app: AppId)
    ensures var w := After(capacity, OneStart(app));
            && w.net.surbs == map[0 := Msg(Operation(0, Envelope, app, 0, true, false, false), 0, WaitingForAck, 0)]
            && w.net.queues == map[app := []] && w.past.failing == None && w.past.handling == None && w.past.revivals == 0
            && w.net.timers == multiset{0} && w.net.egress == multiset{} && w.past.seen == {app}
            && w.net.hashes == map[0 := 0] && w.net.nextSurb == 1 && w.past.nextOp == 1 && w.capacity == capacity
  {
    var w, s := Init(capacity), OneStart(app);
    assert s == [s[0]] + [s[1]] && [s[1]] == [s[1]] + [];
    RunCons(w, s[0], [s[1]]);
    RunCons(Next(w, s[0]), s[1], []);
    assert Next(w, s[0]) == Connected(w, app);
  }

  // ---- What every run keeps ----

  /** After every run a tracked message is on its way exactly when its operation is not on record as silent. */
  lemma NeverGoesSilent(capacity: nat, steps: seq<Step>, x: SurbId)
    requires x in After(capacity, steps).net.surbs
    ensures var w := After(capacity, steps);
            && w.net.surbs[x].surb == x
            && (w.net.surbs[x].op.id !in w.past.silent <==>
                  || x in w.net.timers || x in w.net.egress
                  || (w.net.surbs[x].op.app in w.net.queues && x in w.net.queues[w.net.surbs[x].op.app]))
  {
    AfterGood(capacity, steps);
  }

  /** Unless a start reused a hash in flight, or an ended operation was filed again, the two maps are inverse to each other after every run. */
  lemma MapsAgree(capacity: nat, steps: seq<Step>)
    ensures var w := After(capacity, steps);
            !w.past.hashReused && w.past.revivals == 0 ==> Agree(w.net) && |w.net.hashes| == |w.net.surbs|
  {
    AfterGood(capacity, steps);
    var n := After(capacity, steps).net;
    if Agree(n) { AgreeSameSize(n.hashes, n.surbs, n); }
  }

  lemma {:induction false} AgreeSameSize(hashes: map<Hash, SurbId>, surbs: map<SurbId, Msg>, n: Net)
    requires Agree(n.(hashes := hashes, surbs := surbs))
    ensures |hashes| == |surbs|
    decreases |hashes|
  {
    if hashes == map[] {
      assert surbs.Keys == {};
      assert surbs == map[];
    } else {
      var h :| h in hashes;
      SizeWithout(hashes, h);
      SizeWithout(surbs, hashes[h]);
      AgreeSameSize(hashes - {h}, surbs - {hashes[h]}, n);
    }
  }

  /** No operation gets two replies, and none is answered while it is still tracked. */
  lemma AtMostOneReply(capacity: nat, steps: seq<Step>, i: nat, j: nat)
    requires i < j < |After(capacity, steps).past.log|
    requires After(capacity, steps).past.log[i].Replied? && After(capacity, steps).past.log[j].Replied?
    requires After(capacity, steps).past.revivals == 0
    ensures After(capacity, steps).past.log[i].op.id != After(capacity, steps).past.log[j].op.id
    ensures !TracksOp(After(capacity, steps).net, After(capacity, steps).past.log[i].op.id)
  {
    AfterGood(capacity, steps);
    var w := After(capacity, steps);
    assert IsReply(w.past.log[i], w.past.log[i].op.id);
  }

  /**
   A reported success has its evidence just before it in the log: for a read, or a write that does not accept an
   existing box, a payload that decrypted without error, and the read is told exactly what the padding held.
   */
  lemma SuccessNeedsEvidence(capacity: nat, steps: seq<Step>, i: nat)
    requires i < |After(capacity, steps).past.log|
    requires var e := After(capacity, steps).past.log[i]; e.Replied? && e.code == Success
    ensures var log := After(capacity, steps).past.log;
            && i > 0 && !log[i - 1].Replied? && log[i - 1].op == log[i].op
            && log[i].to == log[i].op.app && log[i].form == log[i].op.kind
            && (log[i - 1].Acked? ==> DefaultWrite(log[i].op))
            && (log[i].op.kind == Envelope && (log[i].op.isRead || log[i].op.noIdempotent) ==>
                  && log[i - 1].GotPlaintext?
                  && (log[i].op.isRead ==> Padding.Extract(log[i - 1].plaintext) == Padding.Extracted(log[i].plaintext)))
            && (log[i].op.kind == CopyCommand ==> log[i - 1].CopyDone?)
  {
    AfterGood(capacity, steps);
    var log := After(capacity, steps).past.log;
    assert Justifies(log[i - 1], log[i].op, log[i].plaintext);
  }

  /** The state machine never meets a tracked message in its terminal state, so no reply is ever ignored. */
  lemma NoReplyIgnored(capacity: nat, steps: seq<Step>, x: SurbId, replyType: nat, errorCode: Code)
    requires x in After(capacity, steps).net.surbs && After(capacity, steps).past.revivals == 0
    ensures var m := After(capacity, steps).net.surbs[x];
            && m.state != PayloadReceived
            && ComputeTransition(m.state, replyType, errorCode, m.op.isRead, m.op.noIdempotent).action != Ignore
  {
    AfterGood(capacity, steps);
  }

  /**
   The tracked SURB IDs are those created less those rotated, delivered, collected or dropped uncounted; a revival
   counts one SURB ID as rotated out that was not tracked.
   */
  lemma SurbsConserved(capacity: nat, steps: seq<Step>)
    ensures var w := After(capacity, steps);
            |w.net.surbs| == w.past.counters.created - w.past.counters.rotated - w.past.counters.delivered
                             - w.past.counters.collected - w.past.counters.uncounted + w.past.revivals
  {
    AfterGood(capacity, steps);
  }

  /**
   Once an operation is no longer tracked, no step tracks it again or adds a reply for it, a copy poll included, in
   every continuation in which no ended operation is filed again.
   */
  lemma NothingRevived(capacity: nat, before: seq<Step>, after: seq<Step>, id: OpId)
    requires id < After(capacity, before).past.nextOp && !TracksOp(After(capacity, before).net, id)
    requires After(capacity, before + after).past.revivals == After(capacity, before).past.revivals
    ensures !TracksOp(After(capacity, before + after).net, id)
    ensures HasReply(After(capacity, before + after).past.log, id) ==> HasReply(After(capacity, before).past.log, id)
  {
    AfterGood(capacity, before);
    RunGood(After(capacity, before), after);
    RunSplits(Init(capacity), before, after);
  }

  // ---- Cancelling ----

  lemma CancelLogged(w: World, handler: Kind, hash: Hash, requester: AppId)
    requires Keyed(w.net) && requester in w.net.queues && hash in w.net.hashes && w.net.hashes[hash] in w.net.surbs
    ensures var x, w' := w.net.hashes[hash], Cancel(w, handler, hash, requester);
            && w'.past.log == w.past.log + [Replied(w.net.surbs[x].op, handler, requester, Cancelled, [])]
            && HasReply(w'.past.log, w.net.surbs[x].op.id)
  {
    var x, w' := w.net.hashes[hash], Cancel(w, handler, hash, requester);
    assert IsReply(w'.past.log[|w.past.log|], w.net.surbs[x].op.id);
  }

  lemma CancelUntracks(w: World, handler: Kind, hash: Hash, requester: AppId)
    requires NetOk(w.net) && requester in w.net.queues && hash in w.net.hashes && w.net.hashes[hash] in w.net.surbs
    ensures var x, w' := w.net.hashes[hash], Cancel(w, handler, hash, requester);
            && !TracksOp(w'.net, w.net.surbs[x].op.id) && x !in w'.net.surbs && x !in w'.net.timers && hash !in w'.net.hashes
            && (forall y :: y in w.net.surbs && y != x ==> y in w'.net.surbs && w'.net.surbs[y] == w.net.surbs[y])
  {
    var x, w' := w.net.hashes[hash], Cancel(w, handler, hash, requester);
    CancelChanges(w, handler, hash, requester);
    TouchedOps(w, w', CancelTimer(w.net, x), x, Ends);
  }

  /** A cancel by hash finds the live message, stops its timer and ends its operation with one reply. */
  lemma CancelFindsLiveMessage(w: World, handler: Kind, x: SurbId, requester: AppId)
    requires Good(w) && !w.past.hashReused && w.past.revivals == 0 && x in w.net.surbs && requester in w.net.queues
    ensures var op, w' := w.net.surbs[x].op, Cancel(w, handler, w.net.surbs[x].op.hash, requester);
            && w'.past.log == w.past.log + [Replied(op, handler, requester, Cancelled, [])] && HasReply(w'.past.log, op.id)
            && !TracksOp(w'.net, op.id) && x !in w'.net.surbs && x !in w'.net.timers && op.hash !in w'.net.hashes
            && (forall y :: y in w.net.surbs && y != x ==> y in w'.net.surbs && w'.net.surbs[y] == w.net.surbs[y])
  {
    CancelLogged(w, handler, w.net.surbs[x].op.hash, requester);
    CancelUntracks(w, handler, w.net.surbs[x].op.hash, requester);
  }

  /** The operation's own client has been sent a reply of the operation's own type. */
  ghost predicate Told(log: seq<Event>, op: Operation) {
    exists i :: 0 <= i < |log| && IsReply(log[i], op.id) && log[i].to == op.app && log[i].form == op.kind
  }

  /**
   Whatever follows a cancel, the operation stays untracked and that reply is its only one, so its client is ever told
   if and only if the client itself cancelled, through the handler for its kind of operation.
   */
  lemma CancelIsFinal(capacity: nat, before: seq<Step>, after: seq<Step>, handler: Kind, x: SurbId, requester: AppId)
    requires x in After(capacity, before).net.surbs && !After(capacity, before).past.hashReused
    requires requester in After(capacity, before).net.queues
    requires var op := After(capacity, before).net.surbs[x].op;
             After(capacity, before + ([DoCancel(handler, op.hash, requester)] + after)).past.revivals == 0
    ensures var op := After(capacity, before).net.surbs[x].op;
            var w := After(capacity, before + ([DoCancel(handler, op.hash, requester)] + after));
            && !TracksOp(w.net, op.id) && x !in w.net.surbs && HasReply(w.past.log, op.id)
            && (Told(w.past.log, op) <==> requester == op.app && handler == op.kind)
  {
    var w0 := After(capacity, before);
    var op := w0.net.surbs[x].op;
    AfterGood(capacity, before);
    RunSplits(Init(capacity), before, [DoCancel(handler, op.hash, requester)] + after);
    RunGood(w0, [DoCancel(handler, op.hash, requester)] + after);
    CancelThenRun(w0, after, handler, x, requester);
  }

  lemma CancelNext(w: World, handler: Kind, hash: Hash, requester: AppId)
    ensures var s := DoCancel(handler, hash, requester);
            && Next(w, s).net == Cancel(w, handler, hash, requester).net
            && Next(w, s).past.log == Cancel(w, handler, hash, requester).past.log
            && Next(w, s).past.revivals == w.past.revivals && Next(w, s).past.nextOp == w.past.nextOp
  {}

  lemma CancelThenRun(w: World, after: seq<Step>, handler: Kind, x: SurbId, requester: AppId)
    requires Good(w) && x in w.net.surbs && !w.past.hashReused && requester in w.net.queues
    requires Run(w, [DoCancel(handler, w.net.surbs[x].op.hash, requester)] + after).past.revivals == 0
    ensures var op := w.net.surbs[x].op;
            var w' := Run(w, [DoCancel(handler, op.hash, requester)] + after);
            && !TracksOp(w'.net, op.id) && x !in w'.net.surbs && HasReply(w'.past.log, op.id)
            && (Told(w'.past.log, op) <==> requester == op.app && handler == op.kind)
  {
    var op := w.net.surbs[x].op;
    var s := DoCancel(handler, op.hash, requester);
    var w1 := Next(w, s);
    RunCons(w, s, after);
    NextGood(w, s);
    RunGood(w1, after);
    CancelNext(w, handler, op.hash, requester);
    CancelFindsLiveMessage(w, handler, x, requester);
    var w' := Run(w1, after);
    OnlyReply(w, w1, w', op, Replied(op, handler, requester, Cancelled, []));
  }

  lemma OnlyReply(w: World, w1: World, w': World, op: Operation, e: Event)
    requires Base(w') && Strict(w') && Unanswered(w) && TracksOp(w.net, op.id) && IsReply(e, op.id)
    requires w1.past.log == w.past.log + [e] && w1.past.log <= w'.past.log
    ensures HasReply(w'.past.log, op.id)
    ensures Told(w'.past.log, op) <==> e.to == op.app && e.form == op.kind
  {
    var k := |w.past.log|;
    assert w'.past.log[k] == e by { assert w1.past.log[k] == e; }
    assert IsReply(w'.past.log[k], op.id);
    forall i | 0 <= i < |w'.past.log| && IsReply(w'.past.log[i], op.id) ensures i == k {
      assert i < k || i == k || k < i;
    }
  }
}

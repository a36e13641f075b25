/** What every run of the retransmission engine keeps. */
module ArqProofs {
  import opened Bytes
  import opened Wrappers
  import opened ArqSpec
  import Padding

  // ---- The invariants ----

  /** Each message is filed under its own current SURB ID. */
  ghost predicate Keyed(n: Net) {
    forall x :: x in n.surbs ==> n.surbs[x].surb == x && x < n.nextSurb
  }

  /** No message is left in the terminal state. */
  ghost predicate NoneTerminal(n: Net) { forall x :: x in n.surbs ==> n.surbs[x].state != PayloadReceived }

  ghost predicate Distinct(n: Net) {
    forall x, y :: x in n.surbs && y in n.surbs && n.surbs[x].op.id == n.surbs[y].op.id ==> x == y
  }

  /** An entry of the hash map that leads to a message leads to one with that hash. */
  ghost predicate Indexed(n: Net) {
    forall h :: h in n.hashes && n.hashes[h] in n.surbs ==> n.surbs[n.hashes[h]].op.hash == h
  }

  /** A fresh SURB ID occurs nowhere, and no SURB ID is in the timer queue twice. */
  ghost predicate Names(n: Net) {
    && (forall x :: x in n.timers ==> x < n.nextSurb && n.timers[x] == 1)
    && (forall x :: x in n.egress ==> x < n.nextSurb)
    && (forall a, i :: a in n.queues && 0 <= i < |n.queues[a]| ==> n.queues[a][i] < n.nextSurb)
    && (forall h :: h in n.hashes ==> n.hashes[h] < n.nextSurb)
  }

  /** A resend queue holds its own client's messages only. */
  ghost predicate Owned(n: Net) {
    forall a, i :: a in n.queues && 0 <= i < |n.queues[a]| && n.queues[a][i] in n.surbs ==>
      n.surbs[n.queues[a][i]].op.app == a
  }

  ghost predicate NetOk(n: Net) { Keyed(n) && Distinct(n) && Indexed(n) && Names(n) && Owned(n) }

  ghost predicate Known(w: World) {
    && (forall x :: x in w.net.surbs ==> w.net.surbs[x].op.id < w.past.nextOp && w.net.surbs[x].op.app in w.past.seen)
    && w.net.queues.Keys <= w.past.seen
    && (w.past.handling.Some? ==> w.past.handling.value < w.past.nextOp)
    && (forall id :: id in w.past.silent ==> id < w.past.nextOp)
  }

  /** The message whose compose failed: if its SURB ID is in use, it is by its own operation. */
  ghost predicate FailingKnown(w: World, m: Msg) {
    && m.op.id < w.past.nextOp && m.op.app in w.past.seen && m.surb < w.net.nextSurb
    && (m.surb in w.net.surbs ==> w.net.surbs[m.surb].op.id == m.op.id)
  }

  ghost predicate FailingOk(w: World) { w.past.failing.Some? ==> FailingKnown(w, w.past.failing.value) }

  /** The silent operations are exactly those whose message waits nowhere. */
  ghost predicate SilentExact(w: World) {
    forall x :: x in w.net.surbs ==> (Waiting(w.net, w.net.surbs[x]) <==> w.net.surbs[x].op.id !in w.past.silent)
  }

  /** arqEnvelopeHashMap is exactly the inverse index of arqSurbIDMap. */
  ghost predicate Agree(n: Net) {
    && (forall h :: h in n.hashes ==> n.hashes[h] in n.surbs && n.surbs[n.hashes[h]].op.hash == h)
    && (forall x :: x in n.surbs ==> n.surbs[x].op.hash in n.hashes && n.hashes[n.surbs[x].op.hash] == x)
  }

  ghost predicate IsReply(e: Event, id: OpId) { e.Replied? && e.op.id == id }

  ghost predicate HasReply(log: seq<Event>, id: OpId) { exists i :: 0 <= i < |log| && IsReply(log[i], id) }

  /** No operation is answered twice. */
  ghost predicate AnsweredOnce(log: seq<Event>) {
    forall i, j :: 0 <= i < j < |log| && log[i].Replied? && log[j].Replied? ==> log[i].op.id != log[j].op.id
  }

  predicate DefaultWrite(op: Operation) { op.kind == Envelope && !op.isRead && !op.noIdempotent }

  /** What the step that reports success must just have seen. */
  predicate Justifies(e: Event, op: Operation, plaintext: Bytes) {
    match e
    case GotPlaintext(o, p) => o == op && op.kind == Envelope && (op.isRead ==> p != [] && Padding.Extract(p) == Padding.Extracted(plaintext))
    case Acked(o) => o == op && DefaultWrite(op)
    case AlreadyThere(o) => o == op && DefaultWrite(op)
    case CopyDone(o) => o == op && op.kind == CopyCommand
    case _ => false
  }

  ghost predicate SuccessJustified(log: seq<Event>) {
    forall i :: 0 <= i < |log| && log[i].Replied? && log[i].code == Success ==>
      i > 0 && Justifies(log[i - 1], log[i].op, log[i].plaintext)
  }

  /** Only a cancellation goes to another client, or in another form, than the operation's own. */
  ghost predicate Addressed(log: seq<Event>) {
    forall i :: 0 <= i < |log| && log[i].Replied? && log[i].code != Cancelled ==>
      log[i].to == log[i].op.app && log[i].form == log[i].op.kind
  }

  ghost predicate Unanswered(w: World) {
    && (forall x :: x in w.net.surbs ==> !HasReply(w.past.log, w.net.surbs[x].op.id))
    && (forall i :: 0 <= i < |w.past.log| && w.past.log[i].Replied? ==> w.past.log[i].op.id < w.past.nextOp)
  }

  ghost predicate Honest(log: seq<Event>) { SuccessJustified(log) && Addressed(log) }

  ghost predicate AnswersOnce(w: World) { AnsweredOnce(w.past.log) && Unanswered(w) }

  function Gone(c: Counters): nat { c.rotated + c.delivered + c.collected + c.uncounted }

  /** Every SURB ID ever created is tracked or has been counted out; a revival counts one out that was not in. */
  ghost predicate Conserved(w: World) {
    |w.net.surbs| + Gone(w.past.counters) == w.past.counters.created + w.past.revivals
  }

  // ---- What a step can do to the message it touches ----

  datatype Change = Stays(why: Silence) | Ends | Requeues(state: ArqState) | Moves(retransmissions: nat)

  /** `n` is `n0`, except that `x` may have left the timer queue or the egress queue. */
  ghost predicate Loosened(n0: Net, n: Net, x: SurbId) {
    && n == n0.(timers := n.timers, egress := n.egress)
    && n.timers <= n0.timers && n.egress <= n0.egress
    && (forall y :: y != x && y in n0.timers ==> y in n.timers)
    && (forall y :: y != x && y in n0.egress ==> y in n.egress)
  }

  /** What one step may write to the log about the one operation it ends. */
  ghost predicate Verdict(evs: seq<Event>, op: Operation) {
    && |evs| <= 2 && (|evs| == 2 ==> !evs[0].Replied?)
    && (evs != [] && evs[|evs| - 1].Replied? ==>
          && evs[|evs| - 1].op == op
          && (evs[|evs| - 1].code != Cancelled ==> evs[|evs| - 1].to == op.app && evs[|evs| - 1].form == op.kind)
          && (evs[|evs| - 1].code == Success ==> |evs| == 2 && Justifies(evs[0], op, evs[1].plaintext)))
  }

  ghost predicate Appends(w: World, w': World, evs: seq<Event>) {
    && w'.past == w.past.(counters := w'.past.counters, log := w.past.log + evs)
    && w'.capacity == w.capacity
  }

  ghost predicate Ended(w: World, w': World, n: Net, m: Msg) {
    && w'.net == Untrack(n, m) && w.past.log <= w'.past.log
    && Appends(w, w', w'.past.log[|w.past.log|..]) && Verdict(w'.past.log[|w.past.log|..], m.op)
    && w'.past.counters.created == w.past.counters.created && Gone(w'.past.counters) == Gone(w.past.counters) + 1
  }

  ghost predicate Touched(w: World, w': World, n: Net, x: SurbId, c: Change) {
    && x in w.net.surbs && Loosened(w.net, n, x)
    && match c
       case Stays(why) => w' == Stayed(w, n, w.net.surbs[x], why)
       case Ends => Ended(w, w', n, w.net.surbs[x])
       case Requeues(s) =>
         && w' == Requeued(w, n, w.net.surbs[x], s)
         && w.net.surbs[x].op.app in n.queues && x !in n.timers
       case Moves(r) => w' == Moved(w, n, w.net.surbs[x], r)
  }

  // ---- Every handler is one of these changes ----

  function PayloadChange(m: Msg, d: Decrypted): Change {
    if d.Plain? || DeterminePayloadErrorAction(d, m.op.isRead, m.op.noRetry, m.op.noIdempotent) != Retry then Ends
    else Requeues(WaitingForAck)
  }

  lemma FailsChange(w: World, n: Net, x: SurbId, code: Code)
    requires x in w.net.surbs && Loosened(w.net, n, x) && code != Success && code != Cancelled
    ensures Touched(w, Fails(w, n, w.net.surbs[x], code), n, x, Ends)
  {
    var w' := Fails(w, n, w.net.surbs[x], code);
    assert w'.past.log[|w.past.log|..] == [Answer(w.net.surbs[x].op, code, [])];
  }

  lemma SucceedsChange(w: World, n: Net, x: SurbId, e: Event, p: Bytes)
    requires x in w.net.surbs && Loosened(w.net, n, x) && Justifies(e, w.net.surbs[x].op, p)
    ensures Touched(w, Succeeds(w, n, w.net.surbs[x], e, p), n, x, Ends)
  {
    var w' := Succeeds(w, n, w.net.surbs[x], e, p);
    assert w'.past.log[|w.past.log|..] == [e, Answer(w.net.surbs[x].op, Success, p)];
  }

  lemma ReadChange(w: World, n: Net, x: SurbId, p: Bytes)
    requires x in w.net.surbs && Loosened(w.net, n, x)
    requires w.net.surbs[x].op.kind == Envelope && w.net.surbs[x].op.isRead
    ensures Touched(w, PayloadArrives(w, n, w.net.surbs[x], Plain(p)), n, x, Ends)
  {
    var m, w' := w.net.surbs[x], PayloadArrives(w, n, w.net.surbs[x], Plain(p));
    if p != [] && Padding.Extract(p).Extracted? {
      SucceedsChange(w, n, x, GotPlaintext(m.op, p), Padding.Extract(p).message);
    } else {
      var got := GotPlaintext(m.op, p);
      assert w'.past.log[|w.past.log|..] ==
             if p == [] then [got, Answer(m.op, Replica(REPLICA_TOMBSTONE), [])]
             else if Padding.Extract(p).Rejected? then [got, Answer(m.op, InternalError, [])] else [got];
    }
  }

  lemma PayloadArrivesChange(w: World, n: Net, x: SurbId, d: Decrypted)
    requires Keyed(w.net) && x in w.net.surbs && Loosened(w.net, n, x) && x !in n.timers
    requires w.net.surbs[x].op.app in n.queues && w.net.surbs[x].op.kind == Envelope
    ensures Touched(w, PayloadArrives(w, n, w.net.surbs[x], d), n, x, PayloadChange(w.net.surbs[x], d))
  {
    var m := w.net.surbs[x];
    if d.Plain? && m.op.isRead {
      ReadChange(w, n, x, d.plaintext);
    } else if d.Plain? {
      SucceedsChange(w, n, x, GotPlaintext(m.op, d.plaintext), []);
    } else {
      match DeterminePayloadErrorAction(d, m.op.isRead, m.op.noRetry, m.op.noIdempotent)
      case Retry =>
      case IdempotentSuccess => SucceedsChange(w, n, x, AlreadyThere(m.op), []);
      case ReturnError => FailsChange(w, n, x, MapDecryptionError(d));
    }
  }

  function EnvelopeChange(m: Msg, replyType: nat, courierCode: nat, d: Decrypted): Change {
    var t := ComputeTransition(m.state, replyType, CourierErrorToThin(courierCode), m.op.isRead, m.op.noIdempotent);
    match t.action
    case SendNewSurb => Requeues(t.newState)
    case HandlePayload => PayloadChange(m, d)
    case Ignore => Stays(ForeignReply)
    case _ => Ends
  }

  lemma EnvelopeChanges(w: World, n: Net, x: SurbId, replyType: nat, courierCode: nat, d: Decrypted)
    requires Keyed(w.net) && x in w.net.surbs && Loosened(w.net, n, x) && x !in n.timers
    requires w.net.surbs[x].op.app in n.queues && w.net.surbs[x].op.kind == Envelope
    ensures Touched(w, EnvelopeAnswered(w, n, w.net.surbs[x], replyType, courierCode, d), n, x,
                    EnvelopeChange(w.net.surbs[x], replyType, courierCode, d))
  {
    var m := w.net.surbs[x];
    var t := ComputeTransition(m.state, replyType, CourierErrorToThin(courierCode), m.op.isRead, m.op.noIdempotent);
    match t.action
    case Fail => FailsChange(w, n, x, t.errorCode);
    case Complete => SucceedsChange(w, n, x, Acked(m.op), []);
    case HandlePayload => PayloadArrivesChange(w, n, x, d);
    case SendNewSurb =>
    case Ignore =>
  }

  function CopyChange(m: Msg, status: nat): Change {
    if status == COPY_IN_PROGRESS then Moves(m.retransmissions) else Ends
  }

  lemma CopyChanges(w: World, n: Net, x: SurbId, status: nat, replicaCode: nat)
    requires Keyed(w.net) && x in w.net.surbs && Loosened(w.net, n, x) && w.net.surbs[x].op.kind == CopyCommand
    ensures Touched(w, CopyAnswered(w, n, w.net.surbs[x], status, replicaCode), n, x, CopyChange(w.net.surbs[x], status))
  {
    var m := w.net.surbs[x];
    if status == COPY_SUCCEEDED {
      SucceedsChange(w, n, x, CopyDone(m.op), []);
    } else if status != COPY_IN_PROGRESS {
      FailsChange(w, n, x, if status == COPY_FAILED then CopyCommandFailed(replicaCode) else InternalError);
    }
  }

  function ReplyChange(w: World, x: SurbId, r: Incoming): Change
    requires x in w.net.surbs
  {
    var m := w.net.surbs[x];
    if m.op.app !in w.net.queues then Stays(WhileAway)
    else
      match r
      case EnvelopeReply(replyType, courierCode, d) =>
        if m.op.kind == CopyCommand then Stays(ForeignReply) else EnvelopeChange(m, replyType, courierCode, d)
      case CopyReply(status, _) => if m.op.kind == CopyCommand then CopyChange(m, status) else Ends
      case _ => Ends
  }

  lemma DropsChange(w: World, n: Net, x: SurbId)
    requires x in w.net.surbs && Loosened(w.net, n, x)
    ensures Touched(w, With(w, Untrack(n, w.net.surbs[x]), Collected(w.past.counters, 1), []), n, x, Ends)
    ensures Touched(w, With(w, Untrack(n, w.net.surbs[x]), Uncounted(w.past.counters), []), n, x, Ends)
  {
    assert (w.past.log + [])[|w.past.log|..] == [];
  }

  lemma ReplyChanges(w: World, x: SurbId, r: Incoming)
    requires NetOk(w.net) && x in w.net.surbs
    ensures x !in CancelTimer(w.net, x).timers
    ensures Touched(w, Reply(w, x, r), CancelTimer(w.net, x), x, ReplyChange(w, x, r))
  {
    var m, n := w.net.surbs[x], CancelTimer(w.net, x);
    if m.op.app in n.queues {
      match r
      case EnvelopeReply(replyType, courierCode, d) =>
        if m.op.kind == Envelope { EnvelopeChanges(w, n, x, replyType, courierCode, d); }
      case CopyReply(status, replicaCode) =>
        if m.op.kind == CopyCommand { CopyChanges(w, n, x, status, replicaCode); } else { DropsChange(w, n, x); }
      case _ => DropsChange(w, n, x);
    }
  }

  function FireChange(w: World, x: SurbId): Change
    requires x in w.net.surbs
  {
    if w.net.surbs[x].op.app !in w.net.queues then Stays(WhileAway) else Requeues(w.net.surbs[x].state)
  }

  lemma FireChanges(w: World, x: SurbId)
    requires NetOk(w.net) && x in w.net.surbs
    ensures Touched(w, TimerFires(w, x), CancelTimer(w.net, x), x, FireChange(w, x))
  {}

  function FromEgress(n: Net, x: SurbId): Net { n.(egress := n.egress - multiset{x}) }

  function ResendChange(w: World, x: SurbId, composed: bool): Change
    requires x in w.net.surbs
  {
    var m := w.net.surbs[x];
    if m.op.app !in w.net.queues then Ends
    else Moves(if composed then m.retransmissions + 1 else m.retransmissions)
  }

  lemma ResendChanges(w: World, x: SurbId, composed: bool)
    requires NetOk(w.net) && x in w.net.surbs
    ensures Touched(w, Resend(w, x, composed), FromEgress(w.net, x), x, ResendChange(w, x, composed))
  {
    DropsChange(w, FromEgress(w.net, x), x);
  }

  lemma CancelChanges(w: World, handler: Kind, hash: Hash, requester: AppId)
    requires NetOk(w.net) && requester in w.net.queues && hash in w.net.hashes && w.net.hashes[hash] in w.net.surbs
    ensures Touched(w, Cancel(w, handler, hash, requester), CancelTimer(w.net, w.net.hashes[hash]), w.net.hashes[hash], Ends)
  {
    var m, w' := w.net.surbs[w.net.hashes[hash]], Cancel(w, handler, hash, requester);
    assert w'.past.log[|w.past.log|..] == [Replied(m.op, handler, requester, Cancelled, [])];
  }

  // ---- Every change keeps the names ----

  lemma UntrackOk(n: Net, m: Msg)
    requires NetOk(n)
    ensures NetOk(Untrack(n, m))
  {}

  lemma RekeyOk(n: Net, m: Msg, r: nat)
    requires NetOk(n) && m.surb in n.surbs && n.surbs[m.surb] == m
    ensures NetOk(Rekey(n, m, r))
  {
    assert n.nextSurb !in n.timers;
  }

  lemma EnqueueOk(n: Net, x: SurbId, capacity: nat)
    requires NetOk(n) && x !in n.timers
    ensures NetOk(EnqueueResend(n, x, capacity))
  {}

  lemma LoosenedOk(n0: Net, n: Net, x: SurbId)
    requires NetOk(n0) && Loosened(n0, n, x)
    ensures NetOk(n)
  {
    forall y | y in n.timers ensures y < n.nextSurb && n.timers[y] == 1 {
      assert n.timers[y] <= n0.timers[y];
    }
    forall y | y in n.egress ensures y < n.nextSurb {
      assert n.egress[y] <= n0.egress[y];
    }
  }

  lemma TouchedOk(w: World, w': World, n: Net, x: SurbId, c: Change)
    requires NetOk(w.net) && Touched(w, w', n, x, c)
    ensures NetOk(w'.net)
  {
    var m := w.net.surbs[x];
    LoosenedOk(w.net, n, x);
    match c
    case Stays(why) =>
    case Ends => UntrackOk(n, m);
    case Requeues(s) =>
      assert NetOk(SetState(n, m, s));
      EnqueueOk(SetState(n, m, s), x, w.capacity);
    case Moves(r) => RekeyOk(n, m, r);
  }

  lemma TouchedNoneTerminal(w: World, w': World, n: Net, x: SurbId, c: Change)
    requires NetOk(w.net) && NoneTerminal(w.net) && Touched(w, w', n, x, c) && c != Requeues(PayloadReceived)
    ensures NoneTerminal(w'.net)
  {}

  lemma TouchedKnown(w: World, w': World, n: Net, x: SurbId, c: Change)
    requires NetOk(w.net) && Known(w) && Touched(w, w', n, x, c)
    ensures Known(w')
  {}

  // ---- Every change keeps account of who is silent ----

  lemma LoosenedWaits(n0: Net, n: Net, x: SurbId, y: SurbId)
    requires NetOk(n0) && Loosened(n0, n, x) && y in n0.surbs
    ensures y != x ==> (Waiting(n0, n0.surbs[y]) <==> Waiting(n, n.surbs[y]))
    ensures Waiting(n, n.surbs[y]) ==> Waiting(n0, n0.surbs[y])
  {
    assert n.timers[y] <= n0.timers[y] && n.egress[y] <= n0.egress[y];
  }

  lemma StayedSilent(w: World, w': World, n: Net, x: SurbId, why: Silence)
    requires NetOk(w.net) && SilentExact(w) && Touched(w, w', n, x, Stays(why))
    ensures SilentExact(w')
  {
    forall y | y in w'.net.surbs ensures Waiting(w'.net, w'.net.surbs[y]) <==> w'.net.surbs[y].op.id !in w'.past.silent {
      LoosenedWaits(w.net, n, x, y);
    }
  }

  lemma EndedSilent(w: World, w': World, n: Net, x: SurbId)
    requires NetOk(w.net) && SilentExact(w) && Touched(w, w', n, x, Ends)
    ensures SilentExact(w')
  {
    forall y | y in w'.net.surbs ensures Waiting(w'.net, w'.net.surbs[y]) <==> w'.net.surbs[y].op.id !in w'.past.silent {
      LoosenedWaits(w.net, n, x, y);
    }
  }

  lemma EnqueueWaits(n: Net, x: SurbId, capacity: nat, y: SurbId)
    requires Keyed(n) && x in n.surbs && n.surbs[x].op.app in n.queues && y in n.surbs
    ensures var n' := EnqueueResend(n, x, capacity);
            Waiting(n', n'.surbs[y]) <==> y == x || Waiting(n, n.surbs[y])
  {
    var n', app := EnqueueResend(n, x, capacity), n.surbs[x].op.app;
    if |n.queues[app]| < capacity {
      assert n'.queues[app][|n.queues[app]|] == x;
      assert forall z :: z in n'.queues[app] <==> z in n.queues[app] || z == x;
    }
  }

  lemma RequeuedSilent(w: World, w': World, n: Net, x: SurbId, s: ArqState)
    requires NetOk(w.net) && SilentExact(w) && Touched(w, w', n, x, Requeues(s))
    ensures SilentExact(w')
  {
    var m := w.net.surbs[x];
    forall y | y in w'.net.surbs ensures Waiting(w'.net, w'.net.surbs[y]) <==> w'.net.surbs[y].op.id !in w'.past.silent {
      LoosenedWaits(w.net, n, x, y);
      EnqueueWaits(SetState(n, m, s), x, w.capacity, y);
    }
  }

  lemma MovedSilent(w: World, w': World, n: Net, x: SurbId, r: nat)
    requires NetOk(w.net) && SilentExact(w) && Touched(w, w', n, x, Moves(r))
    ensures SilentExact(w')
  {
    forall y | y in w'.net.surbs ensures Waiting(w'.net, w'.net.surbs[y]) <==> w'.net.surbs[y].op.id !in w'.past.silent {
      if y != n.nextSurb { LoosenedWaits(w.net, n, x, y); }
    }
  }

  lemma TouchedSilent(w: World, w': World, n: Net, x: SurbId, c: Change)
    requires NetOk(w.net) && SilentExact(w) && Touched(w, w', n, x, c)
    ensures SilentExact(w')
  {
    match c
    case Stays(why) => StayedSilent(w, w', n, x, why);
    case Ends => EndedSilent(w, w', n, x);
    case Requeues(s) => RequeuedSilent(w, w', n, x, s);
    case Moves(r) => MovedSilent(w, w', n, x, r);
  }

  // ---- Every change keeps the two maps in agreement ----

  lemma TouchedAgrees(w: World, w': World, n: Net, x: SurbId, c: Change)
    requires NetOk(w.net) && Agree(w.net) && Touched(w, w', n, x, c)
    ensures Agree(w'.net)
  {
    var m := w.net.surbs[x];
    match c
    case Stays(why) =>
    case Ends => assert Agree(Untrack(n, m));
    case Requeues(s) => assert Agree(SetState(n, m, s));
    case Moves(r) => assert Agree(Rekey(n, m, r));
  }

  // ---- Every change keeps the log honest ----

  ghost predicate SameOps(n: Net, n': Net) {
    forall x :: x in n'.surbs ==> TracksOp(n, n'.surbs[x].op.id)
  }

  lemma TouchedOps(w: World, w': World, n: Net, x: SurbId, c: Change)
    requires NetOk(w.net) && Touched(w, w', n, x, c)
    ensures SameOps(w.net, w'.net) && (c == Ends ==> !TracksOp(w'.net, w.net.surbs[x].op.id))
    ensures c != Ends ==> w'.past.log == w.past.log
  {
    forall y | y in w'.net.surbs ensures TracksOp(w.net, w'.net.surbs[y].op.id) {
      if y in w.net.surbs {
        assert w.net.surbs[y].op.id == w'.net.surbs[y].op.id;
      } else {
        assert w.net.surbs[x].op.id == w'.net.surbs[y].op.id;
      }
    }
  }

  lemma ReplyAppended(log: seq<Event>, evs: seq<Event>, op: Operation, id: OpId)
    requires Verdict(evs, op)
    ensures HasReply(log + evs, id) <==>
            HasReply(log, id) || (evs != [] && evs[|evs| - 1].Replied? && id == op.id)
  {
    if HasReply(log, id) {
      var i :| 0 <= i < |log| && IsReply(log[i], id);
      assert IsReply((log + evs)[i], id);
    }
    if evs != [] && evs[|evs| - 1].Replied? && id == op.id {
      assert IsReply((log + evs)[|log| + |evs| - 1], id);
    }
  }

  lemma VerdictKeepsHonest(log: seq<Event>, evs: seq<Event>, op: Operation)
    requires Honest(log) && Verdict(evs, op)
    ensures Honest(log + evs)
  {
    var all := log + evs;
    forall i | 0 <= i < |all| && all[i].Replied? && all[i].code == Success
      ensures i > 0 && Justifies(all[i - 1], all[i].op, all[i].plaintext)
    {
      if i >= |log| {
        assert all[i] == evs[i - |log|];
      }
    }
  }

  lemma VerdictKeepsOnce(log: seq<Event>, evs: seq<Event>, op: Operation)
    requires AnsweredOnce(log) && Verdict(evs, op) && !HasReply(log, op.id)
    ensures AnsweredOnce(log + evs)
  {
    var all := log + evs;
    forall i, j | 0 <= i < j < |all| && all[i].Replied? && all[j].Replied? ensures all[i].op.id != all[j].op.id {
      if j >= |log| && i < |log| {
        assert !IsReply(log[i], op.id);
      }
    }
  }

  lemma TouchedHonest(w: World, w': World, n: Net, x: SurbId, c: Change)
    requires Honest(w.past.log) && Touched(w, w', n, x, c)
    ensures Honest(w'.past.log)
  {
    if c == Ends {
      VerdictKeepsHonest(w.past.log, w'.past.log[|w.past.log|..], w.net.surbs[x].op);
    } else {
      assert w'.past.log == w.past.log;
    }
  }

  lemma TouchedOnce(w: World, w': World, n: Net, x: SurbId, c: Change)
    requires NetOk(w.net) && Known(w) && AnswersOnce(w) && Touched(w, w', n, x, c)
    ensures AnswersOnce(w')
  {
    TouchedOps(w, w', n, x, c);
    if c == Ends {
      var op, evs := w.net.surbs[x].op, w'.past.log[|w.past.log|..];
      VerdictKeepsOnce(w.past.log, evs, op);
      forall y | y in w'.net.surbs ensures !HasReply(w'.past.log, w'.net.surbs[y].op.id) {
        ReplyAppended(w.past.log, evs, op, w'.net.surbs[y].op.id);
      }
    }
  }

  // ---- Every change conserves SURB IDs ----

  lemma SizeWithout<K, V>(m: map<K, V>, k: K)
    requires k in m
    ensures |m - {k}| == |m| - 1
  {
    assert (m - {k}).Keys == m.Keys - {k};
  }

  lemma SizeWith<K, V>(m: map<K, V>, k: K, v: V)
    ensures |m[k := v]| == |m| + (if k in m then 0 else 1)
  {
    assert m[k := v].Keys == m.Keys + {k};
  }

  lemma TouchedConserves(w: World, w': World, n: Net, x: SurbId, c: Change)
    requires NetOk(w.net) && Conserved(w) && Touched(w, w', n, x, c)
    ensures Conserved(w')
  {
    var m := w.net.surbs[x];
    match c
    case Stays(why) =>
    case Ends => SizeWithout(n.surbs, x);
    case Requeues(s) => SizeWith(n.surbs, x, m.(state := s));
    case Moves(r) =>
      SizeWithout(n.surbs, x);
      SizeWith(n.surbs - {x}, n.nextSurb, m.(surb := n.nextSurb, retransmissions := r));
  }


  // ---- Every step keeps everything ----

  /** What every run keeps. */
  ghost predicate Base(w: World) {
    NetOk(w.net) && Known(w) && FailingOk(w) && SilentExact(w) && Honest(w.past.log) && Conserved(w)
  }

  /** What every run keeps that does not file an operation again after its end. */
  ghost predicate Strict(w: World) {
    NoneTerminal(w.net) && AnswersOnce(w) && (!w.past.hashReused ==> Agree(w.net))
  }

  ghost predicate Good(w: World) { Base(w) && (w.past.revivals == 0 ==> Strict(w)) }

  /** A SURB ID drawn before is used afterwards only by a message that had it, for the same operation. */
  ghost predicate SameMessages(n: Net, n': Net) {
    && n.nextSurb <= n'.nextSurb
    && (forall x :: x in n'.surbs && x < n.nextSurb ==> x in n.surbs && n'.surbs[x].op == n.surbs[x].op)
  }

  /** No operation that had ended is tracked or answered again. */
  ghost predicate EndedStays(w: World, w': World) {
    forall id: OpId :: id < w.past.nextOp && !TracksOp(w.net, id) ==>
      !TracksOp(w'.net, id) && (HasReply(w'.past.log, id) ==> HasReply(w.past.log, id))
  }

  /** Between `w` and `w'` nothing is forgotten, and unless something was revived, what had ended stays ended. */
  ghost predicate Follows(w: World, w': World) {
    && w.past.nextOp <= w'.past.nextOp && w.past.log <= w'.past.log && w.past.seen <= w'.past.seen
    && (w.past.hashReused ==> w'.past.hashReused) && w.past.revivals <= w'.past.revivals
    && SameMessages(w.net, w'.net) && w'.capacity == w.capacity
    && (w'.past.revivals == w.past.revivals ==> EndedStays(w, w'))
  }

  lemma FollowsTrans(w1: World, w2: World, w3: World)
    requires Follows(w1, w2) && Follows(w2, w3)
    ensures Follows(w1, w3)
  {
    assert w1.past.log <= w3.past.log;
  }

  lemma TouchedFollows(w: World, w': World, n: Net, x: SurbId, c: Change)
    requires NetOk(w.net) && Touched(w, w', n, x, c)
    ensures Follows(w, w') && w'.past.revivals == w.past.revivals && w'.past.failing == w.past.failing
  {
    TouchedOps(w, w', n, x, c);
    forall id: OpId | id < w.past.nextOp && !TracksOp(w.net, id)
      ensures !TracksOp(w'.net, id) && (HasReply(w'.past.log, id) ==> HasReply(w.past.log, id))
    {
      if c == Ends {
        assert w.net.surbs[x].op.id != id;
        ReplyAppended(w.past.log, w'.past.log[|w.past.log|..], w.net.surbs[x].op, id);
      }
    }
  }

  lemma FollowsFailing(w: World, w': World)
    requires FailingOk(w) && Follows(w, w') && w'.past.failing == w.past.failing
    ensures FailingOk(w')
  {}

  lemma TouchedStrict(w: World, w': World, n: Net, x: SurbId, c: Change)
    requires Base(w) && Strict(w) && Touched(w, w', n, x, c) && c != Requeues(PayloadReceived)
    ensures Strict(w')
  {
    TouchedNoneTerminal(w, w', n, x, c);
    TouchedOnce(w, w', n, x, c);
    if !w.past.hashReused { TouchedAgrees(w, w', n, x, c); }
  }

  lemma TouchedGood(w: World, w': World, n: Net, x: SurbId, c: Change)
    requires Good(w) && Touched(w, w', n, x, c) && (w.past.revivals == 0 ==> c != Requeues(PayloadReceived))
    ensures Good(w') && Follows(w, w')
  {
    TouchedFollows(w, w', n, x, c);
    FollowsFailing(w, w');
    TouchedOk(w, w', n, x, c);
    TouchedKnown(w, w', n, x, c);
    TouchedSilent(w, w', n, x, c);
    TouchedHonest(w, w', n, x, c);
    TouchedConserves(w, w', n, x, c);
    if w.past.revivals == 0 { TouchedStrict(w, w', n, x, c); }
  }

  /** Nothing that concerns tracked messages, the log or the counters has changed. */
  ghost predicate Idle(w: World, w': World) {
    && w'.net.surbs == w.net.surbs && w'.net.nextSurb == w.net.nextSurb && w'.capacity == w.capacity
    && w'.past == w.past.(handling := w'.past.handling, failing := w'.past.failing, seen := w'.past.seen, silent := w'.past.silent)
    && w.past.seen <= w'.past.seen
  }

  lemma IdleGood(w: World, w': World)
    requires Good(w) && Idle(w, w') && NetOk(w'.net) && Known(w') && SilentExact(w') && FailingOk(w')
    requires !w.past.hashReused && w.past.revivals == 0 ==> Agree(w'.net)
    ensures Good(w') && Follows(w, w')
  {}

  /** A handler that is half done, or no longer so, changes nothing else. */
  lemma HalfwayGood(w: World, v: World)
    requires Good(w) && v == w.(past := w.past.(handling := v.past.handling, failing := v.past.failing))
    requires FailingOk(v) && (v.past.handling.Some? ==> v.past.handling.value < w.past.nextOp)
    ensures Good(v) && Follows(w, v)
  {
    IdleGood(w, v);
  }

  /** Taking an unknown SURB ID off a queue. */
  lemma LoosenedGood(w: World, n: Net, x: SurbId)
    requires Good(w) && Loosened(w.net, n, x) && x !in w.net.surbs
    ensures Good(w.(net := n)) && Follows(w, w.(net := n))
  {
    LoosenedOk(w.net, n, x);
    forall y | y in n.surbs ensures Waiting(n, n.surbs[y]) <==> Waiting(w.net, w.net.surbs[y]) {
      LoosenedWaits(w.net, n, x, y);
    }
    IdleGood(w, w.(net := n));
  }

  lemma FireGood(w: World, x: SurbId)
    requires Good(w)
    ensures Good(TimerFires(w, x)) && Follows(w, TimerFires(w, x))
  {
    if x in w.net.surbs {
      FireChanges(w, x);
      TouchedGood(w, TimerFires(w, x), CancelTimer(w.net, x), x, FireChange(w, x));
    } else {
      LoosenedGood(w, CancelTimer(w.net, x), x);
    }
  }

  lemma ResendGood(w: World, x: SurbId, composed: bool)
    requires Good(w)
    ensures Good(Resend(w, x, composed)) && Follows(w, Resend(w, x, composed))
  {
    if x in w.net.surbs {
      ResendChanges(w, x, composed);
      TouchedGood(w, Resend(w, x, composed), FromEgress(w.net, x), x, ResendChange(w, x, composed));
    } else {
      LoosenedGood(w, FromEgress(w.net, x), x);
    }
  }

  lemma ComposeFailedGood(w: World, x: SurbId)
    requires Good(w)
    ensures Good(ComposeFailed(w, x)) && Follows(w, ComposeFailed(w, x))
  {
    if x in w.net.surbs && w.net.surbs[x].op.app in w.net.queues {
      var v := w.(past := w.past.(failing := Some(w.net.surbs[x])));
      HalfwayGood(w, v);
      TouchedGood(v, ComposeFailed(w, x), FromEgress(w.net, x), x, Stays(BetweenHalves));
      FollowsTrans(w, v, ComposeFailed(w, x));
    } else {
      ResendGood(w, x, false);
    }
  }

  lemma PickedGood(w: World, app: AppId)
    requires Good(w) && app in w.net.queues && w.net.queues[app] != []
    ensures Good(Picked(w, app)) && Follows(w, Picked(w, app))
  {
    var w', q := Picked(w, app), w.net.queues[app];
    assert q == [q[0]] + q[1..];
    forall x | x in w.net.surbs ensures Waiting(w'.net, w.net.surbs[x]) <==> Waiting(w.net, w.net.surbs[x]) {
      PickedWaits(w, app, x);
    }
    IdleGood(w, w');
  }

  lemma PickedWaits(w: World, app: AppId, x: SurbId)
    requires NetOk(w.net) && app in w.net.queues && w.net.queues[app] != [] && x in w.net.surbs
    requires x in w.net.queues[app] ==> w.net.surbs[x].op.app == app
    ensures Waiting(Picked(w, app).net, w.net.surbs[x]) <==> Waiting(w.net, w.net.surbs[x])
  {
    var q := w.net.queues[app];
    assert x in q <==> x == q[0] || x in q[1..];
  }

  lemma ReplyNotTerminal(w: World, x: SurbId, r: Incoming)
    requires x in w.net.surbs
    ensures ReplyChange(w, x, r) != Requeues(PayloadReceived)
  {}

  lemma ReplyGood(w: World, x: SurbId, r: Incoming)
    requires Good(w)
    ensures Good(Reply(w, x, r)) && Follows(w, Reply(w, x, r))
  {
    if x in w.net.surbs {
      ReplyChanges(w, x, r);
      ReplyNotTerminal(w, x, r);
      TouchedGood(w, Reply(w, x, r), CancelTimer(w.net, x), x, ReplyChange(w, x, r));
    }
  }

  lemma HandOverGood(w: World, x: SurbId)
    requires Good(w) && x in w.net.surbs
    ensures Good(CopyHandedOver(w, x)) && Follows(w, CopyHandedOver(w, x))
  {
    var v := w.(past := w.past.(handling := Some(w.net.surbs[x].op.id)));
    HalfwayGood(w, v);
    TouchedGood(v, CopyHandedOver(w, x), CancelTimer(w.net, x), x, Stays(BetweenHalves));
    FollowsTrans(w, v, CopyHandedOver(w, x));
  }

  lemma CancelGood(w: World, handler: Kind, hash: Hash, requester: AppId)
    requires Good(w)
    ensures Good(Cancel(w, handler, hash, requester)) && Follows(w, Cancel(w, handler, hash, requester))
  {
    if requester in w.net.queues && hash in w.net.hashes {
      var x, w' := w.net.hashes[hash], Cancel(w, handler, hash, requester);
      if x in w.net.surbs {
        CancelChanges(w, handler, hash, requester);
        TouchedGood(w, w', CancelTimer(w.net, x), x, Ends);
      } else {
        IdleGood(w, w');
      }
    }
  }

  lemma TrackedIsFiled(n: Net, id: OpId) returns (y: SurbId)
    requires Keyed(n) && TracksOp(n, id)
    ensures y in n.surbs && n.surbs[y] == Tracked(n, id) && n.surbs[y].op.id == id && y == Tracked(n, id).surb
  {
    y :| y in n.surbs && n.surbs[y] == Tracked(n, id) && n.surbs[y].op.id == id;
  }

  lemma PollGood(w: World)
    requires Good(w)
    ensures Good(CopyPolled(w)) && Follows(w, CopyPolled(w))
  {
    if w.past.handling.Some? {
      var idle, w' := w.(past := w.past.(handling := None)), CopyPolled(w);
      HalfwayGood(w, idle);
      if TracksOp(w.net, w.past.handling.value) {
        var y := TrackedIsFiled(w.net, w.past.handling.value);
        TouchedGood(idle, w', w.net, y, Moves(w.net.surbs[y].retransmissions));
        FollowsTrans(w, idle, w');
      }
    }
  }

  // ---- A message that is filed again after its end ----

  lemma RevivedOk(n: Net, m: Msg, r: nat)
    requires NetOk(n) && !TracksOp(n, m.op.id) && m.surb !in n.surbs
    ensures NetOk(Rekey(n, m, r))
  {
    var n' := Rekey(n, m, r);
    assert n.nextSurb !in n.timers;
    assert n.surbs - {m.surb} == n.surbs;
    forall x, y | x in n'.surbs && y in n'.surbs && n'.surbs[x].op.id == n'.surbs[y].op.id ensures x == y {
      assert x != n.nextSurb ==> n.surbs[x].op.id != m.op.id;
      assert y != n.nextSurb ==> n.surbs[y].op.id != m.op.id;
    }
  }

  lemma RevivedSilent(w: World, m: Msg, r: nat)
    requires NetOk(w.net) && SilentExact(w) && !TracksOp(w.net, m.op.id) && m.surb !in w.net.surbs
    ensures SilentExact(Moved(w, w.net, m, r))
  {
    var w' := Moved(w, w.net, m, r);
    forall y | y in w'.net.surbs ensures Waiting(w'.net, w'.net.surbs[y]) <==> w'.net.surbs[y].op.id !in w'.past.silent {
      if y != w.net.nextSurb { assert w.net.surbs[y].op.id != m.op.id; }
    }
  }

  lemma RevivedKnown(w: World, m: Msg, r: nat)
    requires NetOk(w.net) && Known(w) && m.op.id < w.past.nextOp && m.op.app in w.past.seen
    ensures Known(Moved(w, w.net, m, r))
  {}

  lemma RevivedConserves(v: World, m: Msg, r: nat)
    requires NetOk(v.net) && m.surb !in v.net.surbs
    requires |v.net.surbs| + Gone(v.past.counters) + 1 == v.past.counters.created + v.past.revivals
    ensures Conserved(Moved(v, v.net, m, r))
  {
    assert v.net.surbs - {m.surb} == v.net.surbs;
    SizeWith(v.net.surbs, v.net.nextSurb, m.(surb := v.net.nextSurb, retransmissions := r));
  }

  lemma RevivedFollows(w: World, v: World, m: Msg, r: nat)
    requires v.net == w.net && v.capacity == w.capacity
    requires v.past == w.past.(failing := None, revivals := w.past.revivals + 1)
    ensures Follows(w, Moved(v, w.net, m, r)) && Moved(v, w.net, m, r).past.log == w.past.log
  {}

  lemma RevivedGood(w: World, v: World, m: Msg)
    requires Good(w) && FailingKnown(w, m) && !TracksOp(w.net, m.op.id)
    requires v == w.(past := w.past.(failing := None, revivals := w.past.revivals + 1))
    ensures Good(Moved(v, w.net, m, m.retransmissions)) && Follows(w, Moved(v, w.net, m, m.retransmissions))
  {
    var r := m.retransmissions;
    assert m.surb !in w.net.surbs by { assert m.surb in w.net.surbs ==> TracksOp(w.net, m.op.id); }
    RevivedOk(w.net, m, r);
    RevivedSilent(v, m, r);
    RevivedKnown(v, m, r);
    RevivedConserves(v, m, r);
    RevivedFollows(w, v, m, r);
  }

  lemma RescheduledGood(w: World)
    requires Good(w)
    ensures Good(Rescheduled(w)) && Follows(w, Rescheduled(w))
  {
    if w.past.failing.Some? {
      var m, idle, w' := w.past.failing.value, w.(past := w.past.(failing := None)), Rescheduled(w);
      if TracksOp(w.net, m.op.id) {
        HalfwayGood(w, idle);
        var y := TrackedIsFiled(w.net, m.op.id);
        TouchedGood(idle, w', w.net, y, Moves(w.net.surbs[y].retransmissions));
        FollowsTrans(w, idle, w');
      } else {
        RevivedGood(w, idle.(past := idle.past.(revivals := idle.past.revivals + 1)), m);
      }
    }
  }

  // ---- Starts ----

  lemma StartOnce(w: World, w': World, op: Operation, evs: seq<Event>)
    requires NetOk(w.net) && Known(w) && AnswersOnce(w) && op.id == w.past.nextOp && w'.past.nextOp == w.past.nextOp + 1
    requires Verdict(evs, op) && w'.past.log == w.past.log + evs
    requires w'.net.surbs == w.net.surbs || (!HasReply(w'.past.log, op.id)
               && w'.net.surbs == w.net.surbs[w.net.nextSurb := Msg(op, w.net.nextSurb, WaitingForAck, 0)])
    ensures AnswersOnce(w')
  {
    assert !HasReply(w.past.log, op.id);
    VerdictKeepsOnce(w.past.log, evs, op);
    forall y | y in w'.net.surbs ensures !HasReply(w'.past.log, w'.net.surbs[y].op.id) {
      ReplyAppended(w.past.log, evs, op, w'.net.surbs[y].op.id);
    }
  }

  lemma StartFollows(w: World, w': World, op: Operation, evs: seq<Event>)
    requires op.id == w.past.nextOp && w'.past.nextOp == w.past.nextOp + 1 && w'.past.log == w.past.log + evs
    requires Verdict(evs, op) && w.past.seen <= w'.past.seen && w'.capacity == w.capacity
    requires w.past.hashReused ==> w'.past.hashReused
    requires w.past.revivals == w'.past.revivals && w.net.nextSurb <= w'.net.nextSurb
    requires w'.net.surbs == w.net.surbs
             || w'.net.surbs == w.net.surbs[w.net.nextSurb := Msg(op, w.net.nextSurb, WaitingForAck, 0)]
    ensures Follows(w, w')
  {
    forall id: OpId | id < w.past.nextOp ensures HasReply(w'.past.log, id) ==> HasReply(w.past.log, id) {
      ReplyAppended(w.past.log, evs, op, id);
    }
    forall id: OpId | id < w.past.nextOp && TracksOp(w'.net, id) ensures TracksOp(w.net, id) {
      var y :| y in w'.net.surbs && w'.net.surbs[y].op.id == id;
      assert y in w.net.surbs;
    }
  }

  lemma RefusedStartGood(w: World, kind: Kind, app: AppId, hash: Hash, isRead: bool, noRetry: bool, noIdempotent: bool)
    requires Good(w)
    ensures var w' := Start(w, kind, app, hash, isRead, noRetry, noIdempotent, false); Good(w') && Follows(w, w')
  {
    var w' := Start(w, kind, app, hash, isRead, noRetry, noIdempotent, false);
    var op := Operation(w.past.nextOp, kind, app, hash, isRead, noRetry, noIdempotent);
    var evs := Refusal(w.net, op);
    VerdictKeepsHonest(w.past.log, evs, op);
    if w.past.revivals == 0 { StartOnce(w, w', op, evs); }
    StartFollows(w, w', op, evs);
  }

  lemma StartOk(w: World, kind: Kind, app: AppId, hash: Hash, isRead: bool, noRetry: bool, noIdempotent: bool)
    requires NetOk(w.net) && Known(w)
    ensures var w' := Start(w, kind, app, hash, isRead, noRetry, noIdempotent, true); NetOk(w'.net) && Known(w')
  {
    assert w.net.nextSurb !in w.net.timers;
  }

  lemma StartSilent(w: World, kind: Kind, app: AppId, hash: Hash, isRead: bool, noRetry: bool, noIdempotent: bool)
    requires NetOk(w.net) && Known(w) && SilentExact(w)
    ensures SilentExact(Start(w, kind, app, hash, isRead, noRetry, noIdempotent, true))
  {
    var w' := Start(w, kind, app, hash, isRead, noRetry, noIdempotent, true);
    forall y | y in w'.net.surbs ensures Waiting(w'.net, w'.net.surbs[y]) <==> w'.net.surbs[y].op.id !in w'.past.silent {
      assert y != w.net.nextSurb ==> y in w.net.surbs && w'.net.surbs[y] == w.net.surbs[y];
    }
  }

  lemma StartStrict(w: World, kind: Kind, app: AppId, hash: Hash, isRead: bool, noRetry: bool, noIdempotent: bool)
    requires Base(w) && Strict(w)
    ensures Strict(Start(w, kind, app, hash, isRead, noRetry, noIdempotent, true))
  {
    var w' := Start(w, kind, app, hash, isRead, noRetry, noIdempotent, true);
    var op := Operation(w.past.nextOp, kind, app, hash, isRead, noRetry, noIdempotent);
    assert !HasReply(w.past.log, op.id);
    ReplyAppended(w.past.log, [Started(op)], op, op.id);
    StartOnce(w, w', op, [Started(op)]);
    if !w'.past.hashReused { StartAgreesIff(w, kind, app, hash, isRead, noRetry, noIdempotent); }
  }

  lemma StartGood(w: World, kind: Kind, app: AppId, hash: Hash, isRead: bool, noRetry: bool, noIdempotent: bool)
    requires Good(w)
    ensures var w' := Start(w, kind, app, hash, isRead, noRetry, noIdempotent, true); Good(w') && Follows(w, w')
  {
    var w' := Start(w, kind, app, hash, isRead, noRetry, noIdempotent, true);
    var op := Operation(w.past.nextOp, kind, app, hash, isRead, noRetry, noIdempotent);
    StartOk(w, kind, app, hash, isRead, noRetry, noIdempotent);
    StartSilent(w, kind, app, hash, isRead, noRetry, noIdempotent);
    VerdictKeepsHonest(w.past.log, [Started(op)], op);
    SizeWith(w.net.surbs, w.net.nextSurb, Msg(op, w.net.nextSurb, WaitingForAck, 0));
    StartFollows(w, w', op, [Started(op)]);
    FollowsFailing(w, w');
    if w.past.revivals == 0 { StartStrict(w, kind, app, hash, isRead, noRetry, noIdempotent); }
  }

  /** A start keeps the maps in agreement exactly when its hash is not in flight. */
  lemma StartAgreesIff(w: World, kind: Kind, app: AppId, hash: Hash, isRead: bool, noRetry: bool, noIdempotent: bool)
    requires NetOk(w.net) && Agree(w.net)
    ensures Agree(Start(w, kind, app, hash, isRead, noRetry, noIdempotent, true).net) <==> hash !in w.net.hashes
  {
    var n' := Start(w, kind, app, hash, isRead, noRetry, noIdempotent, true).net;
    if hash in w.net.hashes {
      var y := w.net.hashes[hash];
      assert y in n'.surbs && n'.surbs[y].op.hash == hash && n'.hashes[hash] != y;
    }
  }

  // ---- Connections and cleanup ----

  lemma CleanupNet(w: World, app: AppId)
    requires NetOk(w.net) && Known(w) && SilentExact(w)
    ensures NetOk(Cleanup(w, app).net) && Known(Cleanup(w, app)) && SilentExact(Cleanup(w, app))
  {
    assert Surbs(w.net, OwnedBy(w.net, app)) == OwnedBy(w.net, app);
  }

  lemma CleanupAgrees(n: Net, app: AppId)
    requires NetOk(n) && Agree(n)
    ensures var mine := OwnedBy(n, app); Agree(n.(surbs := n.surbs - mine, hashes := n.hashes - Hashes(n, mine)))
  {
    var mine := OwnedBy(n, app);
    forall h | h in n.hashes ensures h in Hashes(n, mine) <==> n.hashes[h] in mine {
      if n.hashes[h] in mine { assert n.surbs[n.hashes[h]].op.hash == h; }
    }
  }

  lemma CleanupGood(w: World, app: AppId)
    requires Good(w)
    ensures Good(Cleanup(w, app)) && Follows(w, Cleanup(w, app))
  {
    var w', mine := Cleanup(w, app), OwnedBy(w.net, app);
    CleanupNet(w, app);
    if w.past.revivals == 0 && !w.past.hashReused { CleanupAgrees(w.net, app); }
    assert w'.net.surbs.Keys == w.net.surbs.Keys - mine;
    assert w'.past.log == w.past.log;
  }

  lemma ConnectedGood(w: World, app: AppId)
    requires Good(w) && app !in w.net.queues
    ensures Good(Connected(w, app)) && Follows(w, Connected(w, app))
  {
    IdleGood(w, Connected(w, app));
  }

  lemma DisconnectedSilent(w: World, app: AppId)
    requires NetOk(w.net) && SilentExact(w)
    ensures SilentExact(Disconnected(w, app))
  {
    var w' := Disconnected(w, app);
    forall y | y in w'.net.surbs ensures Waiting(w'.net, w'.net.surbs[y]) <==> w'.net.surbs[y].op.id !in w'.past.silent {
      if w.net.surbs[y].op.id in Stranded(w'.net, app) {
        var z :| z in w.net.surbs && w.net.surbs[z].op.app == app && !Waiting(w'.net, w'.net.surbs[z])
                 && w.net.surbs[z].op.id == w.net.surbs[y].op.id;
        assert z == y;
      }
    }
  }

  lemma DisconnectedGood(w: World, app: AppId)
    requires Good(w)
    ensures Good(Disconnected(w, app)) && Follows(w, Disconnected(w, app))
  {
    DisconnectedSilent(w, app);
    IdleGood(w, Disconnected(w, app));
  }

  // ---- Runs ----

  lemma TrackedKnown(w: World, id: OpId)
    requires NetOk(w.net) && Known(w) && TracksOp(w.net, id)
    ensures FailingKnown(w, Tracked(w.net, id)) && Tracked(w.net, id).op.id == id
  {
    var y := TrackedIsFiled(w.net, id);
  }

  /** What is known of a message of the step before still holds after it. */
  lemma StillKnown(w: World, w': World, m: Msg)
    requires FailingKnown(w, m) && Follows(w, w')
    ensures FailingKnown(w', m)
  {}

  lemma ObservedKnown(w: World, s: Step, w': World)
    requires NetOk(w.net) && Known(w) && FailingOk(w) && NetOk(w'.net) && Known(w') && FailingOk(w') && Follows(w, w')
    ensures FailingOk(Observed(w, s, w'))
  {
    if w.past.failing.Some? && w'.past.failing.Some? {
      var id := w.past.failing.value.op.id;
      if TracksOp(w'.net, id) {
        TrackedKnown(w', id);
      } else if TracksOp(w.net, id) {
        TrackedKnown(w, id);
        StillKnown(w, w', LeftBehind(Tracked(w.net, id), s));
      } else {
        StillKnown(w, w', w.past.failing.value);
      }
    }
  }

  lemma ObservedGood(w: World, s: Step, w': World)
    requires Good(w) && Good(w') && Follows(w, w')
    ensures Good(Observed(w, s, w')) && Follows(w, Observed(w, s, w'))
  {
    ObservedKnown(w, s, w');
    HalfwayGood(w', Observed(w, s, w'));
    FollowsTrans(w, w', Observed(w, s, w'));
  }

  lemma ConnectionGood(w: World, s: Step)
    requires Good(w) && Enabled(w, s) && Known(w) && (s.DoConnect? || s.DoDisconnect? || s.DoResume?)
    ensures Good(Do(w, s)) && Follows(w, Do(w, s))
  {
    match s
    case DoConnect(app) => ConnectedGood(w, app);
    case DoDisconnect(app) => DisconnectedGood(w, app);
    case DoResume(app) => ConnectedGood(w, app);
  }

  lemma HalfGood(w: World, s: Step)
    requires Good(w) && Enabled(w, s) && (s.DoComposeFails? || s.DoReschedule? || s.DoHandOver? || s.DoPoll?)
    ensures Good(Do(w, s)) && Follows(w, Do(w, s))
  {
    match s
    case DoComposeFails(x) => ComposeFailedGood(w, x);
    case DoReschedule => RescheduledGood(w);
    case DoHandOver(x) => HandOverGood(w, x);
    case DoPoll => PollGood(w);
  }

  lemma AnyStartGood(w: World, s: Step)
    requires Good(w) && s.DoStart? && Enabled(w, s)
    ensures Good(Do(w, s)) && Follows(w, Do(w, s))
  {
    if s.composed {
      StartGood(w, s.kind, s.app, s.hash, s.isRead, s.noRetry, s.noIdempotent);
    } else {
      RefusedStartGood(w, s.kind, s.app, s.hash, s.isRead, s.noRetry, s.noIdempotent);
    }
  }

  lemma DoGood(w: World, s: Step)
    requires Good(w) && Enabled(w, s)
    ensures Good(Do(w, s)) && Follows(w, Do(w, s))
  {
    match s
    case DoStart(_, _, _, _, _, _, _) => AnyStartGood(w, s);
    case DoFire(x) => FireGood(w, x);
    case DoPick(app) => PickedGood(w, app);
    case DoResend(x) => ResendGood(w, x, true);
    case DoReply(x, r) => ReplyGood(w, x, r);
    case DoComposeFails(_) => HalfGood(w, s);
    case DoReschedule => HalfGood(w, s);
    case DoHandOver(_) => HalfGood(w, s);
    case DoPoll => HalfGood(w, s);
    case DoCancel(handler, hash, requester) => CancelGood(w, handler, hash, requester);
    case DoCleanup(app) => CleanupGood(w, app);
    case _ => ConnectionGood(w, s);
  }

  lemma NextGood(w: World, s: Step)
    requires Good(w)
    ensures Good(Next(w, s)) && Follows(w, Next(w, s))
  {
    if Enabled(w, s) {
      DoGood(w, s);
      ObservedGood(w, s, Do(w, s));
    } else {
      IdleGood(w, w);
    }
  }

  lemma {:induction false} RunGood(w: World, steps: seq<Step>)
    requires Good(w)
    ensures Good(Run(w, steps)) && Follows(w, Run(w, steps))
    decreases |steps|
  {
    if steps != [] {
      NextGood(w, steps[0]);
      RunGood(Next(w, steps[0]), steps[1..]);
      FollowsTrans(w, Next(w, steps[0]), Run(w, steps));
    } else {
      IdleGood(w, w);
    }
  }

  lemma InitGood(capacity: nat)
    ensures Good(Init(capacity))
  {}
}

/**
 What every reply to a tracked message comes to while its client is connected, in terms of what was sent, the state the
 message is in and the numbers in the reply: a report to the client, another round trip, or nothing.
 */
module ArqReplies {
  import opened Bytes
  import opened Wrappers
  import opened ArqSpec
  import opened ArqProofs
  import opened ArqTheorems
  import Padding

  // ---- Outcomes ----

  /**
   Only this message is forgotten, the log ends with the one reply to its client, and its SURB counts as delivered or
   not at all.
   */
  ghost predicate Answers(w: World, w': World, x: SurbId, code: Code, plaintext: Bytes, delivered: bool)
    requires x in w.net.surbs
  {
    var op, log, log' := w.net.surbs[x].op, w.past.log, w'.past.log;
    && w'.net.surbs == w.net.surbs - {x} && !TracksOp(w'.net, op.id)
    && log < log' && log'[|log'| - 1] == Replied(op, op.kind, op.app, code, plaintext)
    && (forall i :: |log| <= i < |log'| - 1 ==> !log'[i].Replied?)
    && w'.past.counters == Tallied(w.past.counters, delivered)
  }

  function Tallied(c: Counters, delivered: bool): Counters {
    if delivered then c.(delivered := c.delivered + 1) else c.(uncounted := c.uncounted + 1)
  }

  /**
   Only the state of this message changes, nobody is told anything, and it is last in the resend queue, or on the timer
   if that is full.
   */
  ghost predicate AsksAgain(w: World, w': World, x: SurbId, s: ArqState)
    requires x in w.net.surbs && w.net.surbs[x].op.app in w.net.queues
  {
    var m, q := w.net.surbs[x], w.net.queues[w.net.surbs[x].op.app];
    && w'.net.surbs == w.net.surbs[x := m.(state := s)] && w'.past.log == w.past.log
    && m.op.id !in w'.past.silent
    && (if |q| < w.capacity then w'.net.queues == w.net.queues[m.op.app := q + [x]]
        else w'.net.queues == w.net.queues && x in w'.net.timers)
  }

  /** The message is tracked, the step is possible, and the client is there. */
  ghost predicate Reaches(w: World, x: SurbId, kind: Kind) {
    && Good(w) && w.past.handling == None && x in w.net.surbs
    && w.net.surbs[x].op.kind == kind && w.net.surbs[x].op.app in w.net.queues
  }

  /** As far as outcomes go, the step leaves what the handler leaves. */
  ghost predicate SameOutcome(a: World, b: World) {
    && a.net == b.net && a.past.log == b.past.log
    && a.past.counters == b.past.counters && a.past.silent == b.past.silent
  }

  lemma ObservedSame(w: World, s: Step, a: World)
    ensures SameOutcome(Observed(w, s, a), a)
  {}

  lemma NextIsReply(w: World, x: SurbId, r: Incoming, a: World)
    requires w.past.handling == None && Reply(w, x, r) == a
    ensures SameOutcome(Next(w, DoReply(x, r)), a)
  {
    ObservedSame(w, DoReply(x, r), a);
  }

  /** With the client there, a reply to a read or a write goes to the state machine. */
  lemma EnvelopeReplied(w: World, x: SurbId, replyType: nat, courierCode: nat, d: Decrypted)
    requires Reaches(w, x, Envelope)
    ensures SameOutcome(Next(w, DoReply(x, EnvelopeReply(replyType, courierCode, d))),
                        EnvelopeAnswered(w, CancelTimer(w.net, x), w.net.surbs[x], replyType, courierCode, d))
  {
    NextIsReply(w, x, EnvelopeReply(replyType, courierCode, d),
                EnvelopeAnswered(w, CancelTimer(w.net, x), w.net.surbs[x], replyType, courierCode, d));
  }

  lemma CopyReplied(w: World, x: SurbId, status: nat, replicaCode: nat)
    requires Reaches(w, x, CopyCommand)
    ensures SameOutcome(Next(w, DoReply(x, CopyReply(status, replicaCode))),
                        CopyAnswered(w, CancelTimer(w.net, x), w.net.surbs[x], status, replicaCode))
  {
    NextIsReply(w, x, CopyReply(status, replicaCode), CopyAnswered(w, CancelTimer(w.net, x), w.net.surbs[x], status, replicaCode));
  }

  lemma Untracks(w: World, w': World, n: Net, x: SurbId)
    requires NetOk(w.net) && x in w.net.surbs && n.surbs == w.net.surbs && w'.net == Untrack(n, w.net.surbs[x])
    ensures w'.net.surbs == w.net.surbs - {x} && !TracksOp(w'.net, w.net.surbs[x].op.id)
  {
    forall y | y in w'.net.surbs ensures w'.net.surbs[y].op.id != w.net.surbs[x].op.id {
      assert y in w.net.surbs && y != x;
    }
  }

  lemma FailsAnswers(w: World, w': World, n: Net, x: SurbId, code: Code)
    requires NetOk(w.net) && x in w.net.surbs && n.surbs == w.net.surbs && SameOutcome(w', Fails(w, n, w.net.surbs[x], code))
    ensures Answers(w, w', x, code, [], false)
  {
    Untracks(w, w', n, x);
  }

  lemma SucceedsAnswers(w: World, w': World, n: Net, x: SurbId, e: Event, q: Bytes)
    requires NetOk(w.net) && x in w.net.surbs && n.surbs == w.net.surbs && !e.Replied?
    requires SameOutcome(w', Succeeds(w, n, w.net.surbs[x], e, q))
    ensures Answers(w, w', x, Success, q, true)
  {
    Untracks(w, w', n, x);
  }

  lemma RequeuedAsks(w: World, w': World, n: Net, x: SurbId, s: ArqState)
    requires NetOk(w.net) && x in w.net.surbs && w.net.surbs[x].op.app in w.net.queues && n == CancelTimer(w.net, x)
    requires SameOutcome(w', Requeued(w, n, w.net.surbs[x], s))
    ensures AsksAgain(w, w', x, s)
  {}

  // ---- Replies to reads and writes ----

  /** The thin client's name for a courier's error. */
  function CourierError(code: nat): Code {
    if code == 2 then CourierCacheCorruption
    else if code == 3 then CourierPropagation
    else if code == 4 then CourierInvalidEpoch
    else CourierInvalidEnvelope
  }

  lemma CourierErrorActs(w: World, n: Net, m: Msg, replyType: nat, courierCode: nat, d: Decrypted)
    requires courierCode != 0
    ensures EnvelopeAnswered(w, n, m, replyType, courierCode, d) == Fails(w, n, m, CourierError(courierCode))
  {}

  /** A courier that reports an error ends the operation with that error, whatever else the reply holds. */
  lemma CourierErrorEnds(w: World, x: SurbId, replyType: nat, courierCode: nat, d: Decrypted)
    requires Reaches(w, x, Envelope) && courierCode != 0
    ensures Answers(w, Next(w, DoReply(x, EnvelopeReply(replyType, courierCode, d))), x, CourierError(courierCode), [], false)
  {
    var n, w' := CancelTimer(w.net, x), Next(w, DoReply(x, EnvelopeReply(replyType, courierCode, d)));
    EnvelopeReplied(w, x, replyType, courierCode, d);
    CourierErrorActs(w, n, w.net.surbs[x], replyType, courierCode, d);
    FailsAnswers(w, w', n, x, CourierError(courierCode));
  }

  /** Before the acknowledgement anything else is taken for the payload, after it only a payload is. */
  predicate CarriesPayload(state: ArqState, replyType: nat) {
    (state == WaitingForAck && replyType != 0) || (state == AckReceived && replyType == 1)
  }

  lemma AckActs(w: World, n: Net, m: Msg, replyType: nat, d: Decrypted)
    requires m.state != PayloadReceived && !CarriesPayload(m.state, replyType)
    ensures EnvelopeAnswered(w, n, m, replyType, 0, d) ==
            if m.state == WaitingForAck && !m.op.isRead && !m.op.noIdempotent then Succeeds(w, n, m, Acked(m.op), [])
            else Requeued(w, n, m, AckReceived)
  {}

  /** An acknowledgement completes a write that accepts an existing box; any other operation asks again, for the payload. */
  lemma AckSettles(w: World, x: SurbId, replyType: nat, d: Decrypted)
    requires Reaches(w, x, Envelope) && w.net.surbs[x].state != PayloadReceived
    requires !CarriesPayload(w.net.surbs[x].state, replyType)
    ensures var m, w' := w.net.surbs[x], Next(w, DoReply(x, EnvelopeReply(replyType, 0, d)));
            if m.state == WaitingForAck && !m.op.isRead && !m.op.noIdempotent then Answers(w, w', x, Success, [], true)
            else AsksAgain(w, w', x, AckReceived)
  {
    var m, n, w' := w.net.surbs[x], CancelTimer(w.net, x), Next(w, DoReply(x, EnvelopeReply(replyType, 0, d)));
    EnvelopeReplied(w, x, replyType, 0, d);
    AckActs(w, n, m, replyType, d);
    if m.state == WaitingForAck && !m.op.isRead && !m.op.noIdempotent { SucceedsAnswers(w, w', n, x, Acked(m.op), []); }
    else { RequeuedAsks(w, w', n, x, AckReceived); }
  }

  /** What a decrypted payload comes to: a write has succeeded, a read gets what the padding holds. */
  ghost predicate PlainSettles(w: World, w': World, x: SurbId, p: Bytes)
    requires x in w.net.surbs
  {
    if !w.net.surbs[x].op.isRead then Answers(w, w', x, Success, [], true)
    else if p == [] then Answers(w, w', x, Replica(11), [], true)
    else
      match Padding.Extract(p)
      case Extracted(q) => Answers(w, w', x, Success, q, true)
      case Rejected => Answers(w, w', x, InternalError, [], true)
      case SlicePanics =>
        && w'.net.surbs == w.net.surbs - {x} && w'.past.counters == Tallied(w.past.counters, true)
        && forall i :: |w.past.log| <= i < |w'.past.log| ==> !w'.past.log[i].Replied?
  }

  /**
   What a payload without plaintext comes to: a missing box is asked for again, an existing one is what the writer
   wanted.
   */
  ghost predicate FailureSettles(w: World, w': World, x: SurbId, d: Decrypted)
    requires x in w.net.surbs && w.net.surbs[x].op.app in w.net.queues
  {
    var op := w.net.surbs[x].op;
    if d == ReplicaFailure(1) && op.isRead && !op.noRetry then AsksAgain(w, w', x, WaitingForAck)
    else if d == ReplicaFailure(10) && !op.isRead && !op.noIdempotent then Answers(w, w', x, Success, [], true)
    else
      match d
      case ReplicaFailure(code) => Answers(w, w', x, Replica(code), [], false)
      case MkemFailure => Answers(w, w', x, MkemDecryptionFailed, [], false)
      case BacapFailure => Answers(w, w', x, BacapDecryptionFailed, [], false)
      case _ => Answers(w, w', x, InternalError, [], false)
  }

  lemma PlainArrives(w: World, w': World, n: Net, x: SurbId, p: Bytes)
    requires NetOk(w.net) && x in w.net.surbs && n == CancelTimer(w.net, x)
    requires SameOutcome(w', PayloadArrives(w, n, w.net.surbs[x], Plain(p)))
    ensures PlainSettles(w, w', x, p)
  {
    var m, got := w.net.surbs[x], GotPlaintext(w.net.surbs[x].op, p);
    Untracks(w, w', n, x);
    if m.op.isRead && (p == [] || Padding.Extract(p).Rejected?) {
      assert w'.past.log == w.past.log + ([got] + [w'.past.log[|w.past.log| + 1]]);
    }
  }

  lemma FailureArrives(w: World, w': World, n: Net, x: SurbId, d: Decrypted)
    requires NetOk(w.net) && x in w.net.surbs && w.net.surbs[x].op.app in w.net.queues && n == CancelTimer(w.net, x) && !d.Plain?
    requires SameOutcome(w', PayloadArrives(w, n, w.net.surbs[x], d))
    ensures FailureSettles(w, w', x, d)
  {
    var op := w.net.surbs[x].op;
    if d == ReplicaFailure(1) && op.isRead && !op.noRetry { RequeuedAsks(w, w', n, x, WaitingForAck); }
    else if d == ReplicaFailure(10) && !op.isRead && !op.noIdempotent { SucceedsAnswers(w, w', n, x, AlreadyThere(op), []); }
    else { FailsAnswers(w, w', n, x, MapDecryptionError(d)); }
  }

  lemma PayloadActs(w: World, n: Net, m: Msg, replyType: nat, d: Decrypted)
    requires CarriesPayload(m.state, replyType)
    ensures EnvelopeAnswered(w, n, m, replyType, 0, d) == PayloadArrives(w, n, m, d)
  {}

  /** A payload settles a read or a write, in either live state, as its decryption turns out. */
  lemma PayloadSettles(w: World, x: SurbId, replyType: nat, d: Decrypted)
    requires Reaches(w, x, Envelope) && CarriesPayload(w.net.surbs[x].state, replyType)
    ensures var w' := Next(w, DoReply(x, EnvelopeReply(replyType, 0, d)));
            if d.Plain? then PlainSettles(w, w', x, d.plaintext) else FailureSettles(w, w', x, d)
  {
    var n, w' := CancelTimer(w.net, x), Next(w, DoReply(x, EnvelopeReply(replyType, 0, d)));
    EnvelopeReplied(w, x, replyType, 0, d);
    PayloadActs(w, n, w.net.surbs[x], replyType, d);
    if d.Plain? { PlainArrives(w, w', n, x, d.plaintext); } else { FailureArrives(w, w', n, x, d); }
  }

  /**
   Only an operation that was filed again after its end can be in the terminal state: a reply without an error is then
   ignored.
   */
  lemma TerminalIgnores(w: World, x: SurbId, replyType: nat, d: Decrypted)
    requires Reaches(w, x, Envelope) && w.net.surbs[x].state == PayloadReceived
    ensures w.past.revivals > 0
    ensures var w' := Next(w, DoReply(x, EnvelopeReply(replyType, 0, d))); w'.net.surbs == w.net.surbs && w'.past.log == w.past.log
  {
    EnvelopeReplied(w, x, replyType, 0, d);
  }

  // ---- Replies to copy commands ----

  /**
   A copy command has succeeded when the courier says so, and in no other case; while it is in progress it is asked
   again.
   */
  lemma CopySettles(w: World, x: SurbId, status: nat, replicaCode: nat)
    requires Reaches(w, x, CopyCommand)
    ensures var m, w' := w.net.surbs[x], Next(w, DoReply(x, CopyReply(status, replicaCode)));
            if status == 1 then
              && w'.past.log == w.past.log && m.op.id !in w'.past.silent && w.net.nextSurb in w'.net.timers
              && w'.net.surbs == (w.net.surbs - {x})[w.net.nextSurb := m.(surb := w.net.nextSurb)]
            else
              Answers(w, w', x, if status == 0 then Success else if status == 2 then CopyCommandFailed(replicaCode) else InternalError,
                      [], status == 0)
  {
    var m, n, w' := w.net.surbs[x], CancelTimer(w.net, x), Next(w, DoReply(x, CopyReply(status, replicaCode)));
    CopyReplied(w, x, status, replicaCode);
    if status == 0 { SucceedsAnswers(w, w', n, x, CopyDone(m.op), []); }
    else if status > 1 { FailsAnswers(w, w', n, x, if status == 2 then CopyCommandFailed(replicaCode) else InternalError); }
  }

  // ---- Success ----

  /** The reply is one on which the client may be told of success, with `q` for a read. */
  predicate Warrants(m: Msg, r: Incoming, q: Bytes) {
    match r
    case EnvelopeReply(replyType, courierCode, d) =>
      && m.op.kind == Envelope && courierCode == 0
      && (if CarriesPayload(m.state, replyType) then
            match d
            case Plain(p) => if m.op.isRead then p != [] && Padding.Extract(p) == Padding.Extracted(q) else q == []
            case ReplicaFailure(code) => code == 10 && !m.op.isRead && !m.op.noIdempotent && q == []
            case _ => false
          else m.state == WaitingForAck && !m.op.isRead && !m.op.noIdempotent && q == [])
    case CopyReply(status, _) => m.op.kind == CopyCommand && status == 0 && q == []
    case _ => false
  }

  /** Nobody is told anything by a reply that cannot be read or is of the other form. */
  lemma UnusableIsSilent(w: World, x: SurbId, r: Incoming)
    requires Good(w) && w.past.handling == None && x in w.net.surbs && w.net.surbs[x].op.app in w.net.queues
    requires !(r.EnvelopeReply? && w.net.surbs[x].op.kind == Envelope) && !(r.CopyReply? && w.net.surbs[x].op.kind == CopyCommand)
    ensures Next(w, DoReply(x, r)).past.log == w.past.log
  {
    NextIsReply(w, x, r, Reply(w, x, r));
    assert w.past.log + [] == w.past.log;
  }

  lemma PayloadSuccessIff(w: World, x: SurbId, replyType: nat, d: Decrypted, q: Bytes)
    requires Reaches(w, x, Envelope) && CarriesPayload(w.net.surbs[x].state, replyType)
    ensures var r := EnvelopeReply(replyType, 0, d);
            Answers(w, Next(w, DoReply(x, r)), x, Success, q, true) <==> Warrants(w.net.surbs[x], r, q)
  {
    PayloadSettles(w, x, replyType, d);
  }

  lemma EnvelopeSuccessIff(w: World, x: SurbId, replyType: nat, courierCode: nat, d: Decrypted, q: Bytes)
    requires Reaches(w, x, Envelope)
    ensures var r := EnvelopeReply(replyType, courierCode, d);
            Answers(w, Next(w, DoReply(x, r)), x, Success, q, true) <==> Warrants(w.net.surbs[x], r, q)
  {
    if courierCode != 0 {
      CourierErrorEnds(w, x, replyType, courierCode, d);
    } else if CarriesPayload(w.net.surbs[x].state, replyType) {
      PayloadSuccessIff(w, x, replyType, d, q);
    } else if w.net.surbs[x].state == PayloadReceived {
      TerminalIgnores(w, x, replyType, d);
    } else {
      AckSettles(w, x, replyType, d);
    }
  }

  /** A connected client is told that its operation has succeeded if and only if the reply warrants it, and just then. */
  lemma SuccessIff(w: World, x: SurbId, r: Incoming, q: Bytes)
    requires Good(w) && w.past.handling == None && x in w.net.surbs && w.net.surbs[x].op.app in w.net.queues
    ensures Answers(w, Next(w, DoReply(x, r)), x, Success, q, true) <==> Warrants(w.net.surbs[x], r, q)
  {
    var kind := w.net.surbs[x].op.kind;
    if r.EnvelopeReply? && kind == Envelope {
      EnvelopeSuccessIff(w, x, r.replyType, r.courierCode, r.decrypted, q);
    } else if r.CopyReply? && kind == CopyCommand {
      CopySettles(w, x, r.status, r.replicaCode);
    } else {
      UnusableIsSilent(w, x, r);
    }
  }

  // ---- Runs ----

  /** Every success that the step reports is in answer to a reply that warrants it. */
  ghost predicate SoundStep(w: World, s: Step, w': World) {
    forall i :: |w.past.log| <= i < |w'.past.log| && w'.past.log[i].Replied? && w'.past.log[i].code == Success ==>
      Warranted(w, s, w'.past.log[i])
  }

  ghost predicate Warranted(w: World, s: Step, e: Event)
    requires e.Replied?
  {
    && s.DoReply? && s.x in w.net.surbs && w.net.surbs[s.x].op == e.op && e.op.app in w.net.queues
    && Warrants(w.net.surbs[s.x], s.incoming, e.plaintext)
  }

  /** Only the last new entry of the log can be a reply. */
  ghost predicate OneReport(w: World, w': World, x: SurbId)
    requires x in w.net.surbs
  {
    var log, log' := w.past.log, w'.past.log;
    forall i :: |log| <= i < |log'| && log'[i].Replied? && log'[i].code == Success ==>
      Answers(w, w', x, Success, log'[i].plaintext, true) && log'[i].op == w.net.surbs[x].op
  }

  lemma AnswersReports(w: World, w': World, x: SurbId, code: Code, q: Bytes, delivered: bool)
    requires x in w.net.surbs && Answers(w, w', x, code, q, delivered) && (code == Success ==> delivered)
    ensures OneReport(w, w', x)
  {}

  lemma PlainReports(w: World, w': World, x: SurbId, p: Bytes)
    requires x in w.net.surbs && PlainSettles(w, w', x, p)
    ensures OneReport(w, w', x)
  {
    if !w.net.surbs[x].op.isRead {
      AnswersReports(w, w', x, Success, [], true);
    } else if p == [] {
      AnswersReports(w, w', x, Replica(11), [], true);
    } else {
      match Padding.Extract(p)
      case Extracted(q) => AnswersReports(w, w', x, Success, q, true);
      case Rejected => AnswersReports(w, w', x, InternalError, [], true);
      case SlicePanics =>
    }
  }

  lemma FailureReports(w: World, w': World, x: SurbId, d: Decrypted)
    requires x in w.net.surbs && w.net.surbs[x].op.app in w.net.queues && FailureSettles(w, w', x, d)
    ensures OneReport(w, w', x)
  {
    var op := w.net.surbs[x].op;
    if d == ReplicaFailure(10) && !op.isRead && !op.noIdempotent {
      AnswersReports(w, w', x, Success, [], true);
    } else if !(d == ReplicaFailure(1) && op.isRead && !op.noRetry) {
      var code := match d case ReplicaFailure(c) => Replica(c) case MkemFailure => MkemDecryptionFailed
                          case BacapFailure => BacapDecryptionFailed case _ => InternalError;
      AnswersReports(w, w', x, code, [], false);
    }
  }

  lemma CourierReports(w: World, x: SurbId, replyType: nat, courierCode: nat, d: Decrypted)
    requires Reaches(w, x, Envelope) && courierCode != 0
    ensures OneReport(w, Next(w, DoReply(x, EnvelopeReply(replyType, courierCode, d))), x)
  {
    var w' := Next(w, DoReply(x, EnvelopeReply(replyType, courierCode, d)));
    CourierErrorEnds(w, x, replyType, courierCode, d);
    AnswersReports(w, w', x, CourierError(courierCode), [], false);
  }

  lemma PayloadReports(w: World, x: SurbId, replyType: nat, d: Decrypted)
    requires Reaches(w, x, Envelope) && CarriesPayload(w.net.surbs[x].state, replyType)
    ensures OneReport(w, Next(w, DoReply(x, EnvelopeReply(replyType, 0, d))), x)
  {
    var w' := Next(w, DoReply(x, EnvelopeReply(replyType, 0, d)));
    PayloadSettles(w, x, replyType, d);
    if d.Plain? { PlainReports(w, w', x, d.plaintext); } else { FailureReports(w, w', x, d); }
  }

  lemma AckReports(w: World, x: SurbId, replyType: nat, d: Decrypted)
    requires Reaches(w, x, Envelope) && w.net.surbs[x].state != PayloadReceived
    requires !CarriesPayload(w.net.surbs[x].state, replyType)
    ensures OneReport(w, Next(w, DoReply(x, EnvelopeReply(replyType, 0, d))), x)
  {
    var m, w' := w.net.surbs[x], Next(w, DoReply(x, EnvelopeReply(replyType, 0, d)));
    AckSettles(w, x, replyType, d);
    if m.state == WaitingForAck && !m.op.isRead && !m.op.noIdempotent { AnswersReports(w, w', x, Success, [], true); }
  }

  lemma TerminalReports(w: World, x: SurbId, replyType: nat, d: Decrypted)
    requires Reaches(w, x, Envelope) && w.net.surbs[x].state == PayloadReceived
    ensures OneReport(w, Next(w, DoReply(x, EnvelopeReply(replyType, 0, d))), x)
  {
    TerminalIgnores(w, x, replyType, d);
  }

  lemma EnvelopeReports(w: World, x: SurbId, replyType: nat, courierCode: nat, d: Decrypted)
    requires Reaches(w, x, Envelope)
    ensures OneReport(w, Next(w, DoReply(x, EnvelopeReply(replyType, courierCode, d))), x)
  {
    if courierCode != 0 {
      CourierReports(w, x, replyType, courierCode, d);
    } else if CarriesPayload(w.net.surbs[x].state, replyType) {
      PayloadReports(w, x, replyType, d);
    } else if w.net.surbs[x].state == PayloadReceived {
      TerminalReports(w, x, replyType, d);
    } else {
      AckReports(w, x, replyType, d);
    }
  }

  lemma ReplyReports(w: World, x: SurbId, r: Incoming)
    requires Good(w) && w.past.handling == None && x in w.net.surbs && w.net.surbs[x].op.app in w.net.queues
    ensures OneReport(w, Next(w, DoReply(x, r)), x)
  {
    var kind := w.net.surbs[x].op.kind;
    if r.EnvelopeReply? && kind == Envelope {
      EnvelopeReports(w, x, r.replyType, r.courierCode, r.decrypted);
    } else if r.CopyReply? && kind == CopyCommand {
      CopySettles(w, x, r.status, r.replicaCode);
    } else {
      UnusableIsSilent(w, x, r);
    }
  }

  lemma AwayIsSilent(w: World, x: SurbId, r: Incoming)
    requires Good(w) && w.past.handling == None && !(x in w.net.surbs && w.net.surbs[x].op.app in w.net.queues)
    ensures Next(w, DoReply(x, r)).past.log == w.past.log
  {
    NextIsReply(w, x, r, Reply(w, x, r));
  }

  lemma ReplySound(w: World, x: SurbId, r: Incoming)
    requires Good(w) && w.past.handling == None
    ensures SoundStep(w, DoReply(x, r), Next(w, DoReply(x, r)))
  {
    var w' := Next(w, DoReply(x, r));
    if x in w.net.surbs && w.net.surbs[x].op.app in w.net.queues {
      ReplyReports(w, x, r);
      forall i | |w.past.log| <= i < |w'.past.log| && w'.past.log[i].Replied? && w'.past.log[i].code == Success
        ensures Warranted(w, DoReply(x, r), w'.past.log[i])
      {
        SuccessIff(w, x, r, w'.past.log[i].plaintext);
      }
    } else {
      AwayIsSilent(w, x, r);
    }
  }

  lemma OtherSound(w: World, s: Step)
    requires Enabled(w, s) && !s.DoReply?
    ensures SoundStep(w, s, Do(w, s))
  {}

  lemma NextSound(w: World, s: Step)
    requires Good(w)
    ensures SoundStep(w, s, Next(w, s))
  {
    if Enabled(w, s) {
      if s.DoReply? {
        ReplySound(w, s.x, s.incoming);
      } else {
        OtherSound(w, s);
        ObservedSame(w, s, Do(w, s));
      }
    }
  }

  /** Some step of the run was a reply that warrants the report. */
  ghost predicate WarrantedIn(capacity: nat, steps: seq<Step>, e: Event)
    requires e.Replied?
  {
    exists k :: 0 <= k < |steps| && Warranted(After(capacity, steps[..k]), steps[k], e)
  }

  lemma AfterLast(capacity: nat, steps: seq<Step>, n: nat)
    requires |steps| == n + 1
    ensures Good(After(capacity, steps[..n])) && After(capacity, steps) == Next(After(capacity, steps[..n]), steps[n])
  {
    AfterGood(capacity, steps[..n]);
    assert steps == steps[..n] + ([steps[n]] + []);
    RunSplits(Init(capacity), steps[..n], [steps[n]] + []);
    RunCons(After(capacity, steps[..n]), steps[n], []);
  }

  lemma WarrantedEarlier(capacity: nat, steps: seq<Step>, n: nat, e: Event)
    requires n <= |steps| && e.Replied? && WarrantedIn(capacity, steps[..n], e)
    ensures WarrantedIn(capacity, steps, e)
  {
    var k :| 0 <= k < n && Warranted(After(capacity, steps[..n][..k]), steps[..n][k], e);
    assert steps[..n][..k] == steps[..k] && steps[..n][k] == steps[k];
  }

  /**
   Over every run: each success a client was told of came with a reply to the message its operation had at that moment, and
   one that warrants it.
   */
  lemma {:induction false} EverySuccessIsWarranted(capacity: nat, steps: seq<Step>, i: nat)
    requires i < |After(capacity, steps).past.log|
    requires var e := After(capacity, steps).past.log[i]; e.Replied? && e.code == Success
    ensures WarrantedIn(capacity, steps, After(capacity, steps).past.log[i])
    decreases |steps|
  {
    var n := |steps| - 1;
    var w, s := After(capacity, steps[..n]), steps[n];
    AfterLast(capacity, steps, n);
    NextGood(w, s);
    NextSound(w, s);
    if i < |w.past.log| {
      EverySuccessIsWarranted(capacity, steps[..n], i);
      WarrantedEarlier(capacity, steps, n, w.past.log[i]);
    }
  }

  /** And so a copy command was reported to have succeeded only after the courier had sent status 0 for it. */
  lemma CopySuccessIsSent(capacity: nat, steps: seq<Step>, i: nat)
    requires i < |After(capacity, steps).past.log|
    requires var e := After(capacity, steps).past.log[i]; e.Replied? && e.code == Success && e.op.kind == CopyCommand
    ensures exists k :: 0 <= k < |steps| && CopyDoneBy(After(capacity, steps[..k]), steps[k], After(capacity, steps).past.log[i].op)
  {
    EverySuccessIsWarranted(capacity, steps, i);
    var e := After(capacity, steps).past.log[i];
    var k :| 0 <= k < |steps| && Warranted(After(capacity, steps[..k]), steps[k], e);
    assert CopyDoneBy(After(capacity, steps[..k]), steps[k], e.op);
  }

  /** The step is a reply of status 0 to the operation's message. */
  predicate CopyDoneBy(w: World, s: Step, op: Operation) {
    && s.DoReply? && s.x in w.net.surbs && w.net.surbs[s.x].op == op
    && s.incoming.CopyReply? && s.incoming.status == 0
  }
}

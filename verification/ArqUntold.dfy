/** Which operations come to an end without their client being told, and in exactly which ways. */
module ArqUntold {
  import opened ArqSpec
  import opened ArqProofs
  import opened ArqReplies
  import opened ArqTheorems
  import opened ArqWaiting
  import Padding

  // ---- Operations that end without an answer ----

  /** The handler finds no reply in it that it can use. */
  predicate Unreadable(r: Incoming, kind: Kind) { r == Undecryptable || r == Unparseable || (r.CopyReply? && kind == Envelope) }

  /**
   The handler gets as far as the padding of a read's plaintext, and the slice bound wraps: from 2^32 - 4 bytes on, more
   than a Sphinx packet carries. The panic is then on the worker that handles replies, which does not recover from it, so
   the operation that has just been untracked is the least of what ends with it.
   */
  predicate Panics(m: Msg, r: Incoming) {
    && r.EnvelopeReply? && m.op.kind == Envelope && m.op.isRead && r.decrypted.Plain? && r.decrypted.plaintext != []
    && r.courierCode == 0 && CarriesPayload(m.state, r.replyType)
    && Padding.Extract(r.decrypted.plaintext) == Padding.SlicePanics
  }

  /** The steps that end an operation without a word to anyone. */
  predicate Abandons(w: World, s: Step, x: SurbId)
    requires x in w.net.surbs
  {
    EndsIt(w, s, x) && !s.DoCancel? && (s.DoReply? ==> Unreadable(s.incoming, w.net.surbs[x].op.kind) || Panics(w.net.surbs[x], s.incoming))
  }

  lemma AppendedReply(log: seq<Event>, evs: seq<Event>, id: OpId)
    ensures HasReply(log + evs, id) <==> HasReply(log, id) || HasReply(evs, id)
  {
    if HasReply(log, id) {
      var i :| 0 <= i < |log| && IsReply(log[i], id);
      assert IsReply((log + evs)[i], id);
    }
    if HasReply(evs, id) {
      var i :| 0 <= i < |evs| && IsReply(evs[i], id);
      assert IsReply((log + evs)[|log| + i], id);
    }
  }

  /** The last thing that happened is that the operation's own client was answered. */
  ghost predicate TellsLast(log: seq<Event>, op: Operation) {
    log != [] && IsReply(log[|log| - 1], op.id) && log[|log| - 1].to == op.app && log[|log| - 1].form == op.kind
  }

  lemma PayloadAnswers(w: World, n: Net, m: Msg, d: Decrypted)
    requires !HasReply(w.past.log, m.op.id)
    requires PayloadChange(m, d) == Ends
    ensures var log', silent := PayloadArrives(w, n, m, d).past.log,
                                d.Plain? && m.op.isRead && d.plaintext != [] && Padding.Extract(d.plaintext) == Padding.SlicePanics;
            if silent then !HasReply(log', m.op.id) else TellsLast(log', m.op)
  {
    var log', id := PayloadArrives(w, n, m, d).past.log, m.op.id;
    if d.Plain? && m.op.isRead {
      var got := GotPlaintext(m.op, d.plaintext);
      if d.plaintext != [] && Padding.Extract(d.plaintext).SlicePanics? {
        AppendedReply(w.past.log, [got], id);
      } else {
        assert log' == w.past.log + ([got] + [log'[|log'| - 1]]);
      }
    }
  }

  lemma ReplyAnswers(w: World, x: SurbId, r: Incoming)
    requires Keyed(w.net) && x in w.net.surbs && !HasReply(w.past.log, w.net.surbs[x].op.id) && ReplyChange(w, x, r) == Ends
    ensures var log', op := Reply(w, x, r).past.log, w.net.surbs[x].op;
            if Unreadable(r, op.kind) || Panics(w.net.surbs[x], r) then !HasReply(log', op.id) else TellsLast(log', op)
  {
    var m, n, log' := w.net.surbs[x], CancelTimer(w.net, w.net.surbs[x].surb), Reply(w, x, r).past.log;
    match r
    case EnvelopeReply(replyType, courierCode, d) =>
      var t := ComputeTransition(m.state, replyType, CourierErrorToThin(courierCode), m.op.isRead, m.op.noIdempotent);
      if t.action == HandlePayload { PayloadAnswers(w, n, m, d); }
    case CopyReply(status, replicaCode) =>
      if m.op.kind == Envelope { assert log' == w.past.log; }
    case _ => assert log' == w.past.log;
  }

  /** A reply ends an operation without answering it if and only if it is unreadable, or unpadding it panics. */
  lemma ReplyUnansweredIff(w: World, x: SurbId, r: Incoming)
    requires Good(w) && w.past.revivals == 0 && x in w.net.surbs && w.net.surbs[x].op.app in w.net.queues
    ensures var id, w' := w.net.surbs[x].op.id, Reply(w, x, r);
            !TracksOp(w'.net, id) && !HasReply(w'.past.log, id)
            <==> Unreadable(r, w.net.surbs[x].op.kind) || Panics(w.net.surbs[x], r)
  {
    ReplyQuiet(w, x, r, x);
    if ReplyChange(w, x, r) == Ends {
      ReplyAnswers(w, x, r);
    } else {
      NotEndsReads(w, x, r);
    }
  }

  lemma NotEndsReads(w: World, x: SurbId, r: Incoming)
    requires x in w.net.surbs && w.net.surbs[x].op.app in w.net.queues && ReplyChange(w, x, r) != Ends
    ensures !Unreadable(r, w.net.surbs[x].op.kind) && !Panics(w.net.surbs[x], r)
  {}

  /** The cancel comes from another client than the operation's own, or through the other handler. */
  predicate ForeignCancel(w: World, s: Step, x: SurbId)
    requires x in w.net.surbs
  {
    s.DoCancel? && EndsIt(w, s, x) && (s.requester != w.net.surbs[x].op.app || s.handler != w.net.surbs[x].op.kind)
  }

  lemma QuietSteps(w: World, s: Step, x: SurbId)
    requires NetOk(w.net) && Enabled(w, s) && x in w.net.surbs && EndsIt(w, s, x) && !s.DoReply? && !s.DoCancel?
    ensures Do(w, s).past.log == w.past.log
  {
    if s.DoCleanup? {
      assert Cleanup(w, s.app).past.log == w.past.log;
    } else if s.DoResend? {
      assert Resend(w, s.x, true).past.log == w.past.log;
    } else {
      assert ComposeFailed(w, s.x).past.log == w.past.log;
    }
  }

  /** What a step that ends an operation leaves in the log: an answer to its client, one to somebody else, or none. */
  lemma StepAnswers(w: World, s: Step, x: SurbId)
    requires NetOk(w.net) && Enabled(w, s) && x in w.net.surbs && EndsIt(w, s, x) && !HasReply(w.past.log, w.net.surbs[x].op.id)
    ensures var log', op := Do(w, s).past.log, w.net.surbs[x].op;
            if Abandons(w, s, x) then !HasReply(log', op.id)
            else if ForeignCancel(w, s, x) then log' == w.past.log + [Replied(op, s.handler, s.requester, Cancelled, [])]
            else TellsLast(log', op)
  {
    if s.DoReply? {
      ReplyAnswers(w, x, s.incoming);
    } else if !s.DoCancel? {
      QuietSteps(w, s, x);
    }
  }

  lemma SameLog(w: World, s: Step)
    requires Enabled(w, s)
    ensures Next(w, s).past.log == Do(w, s).past.log && Next(w, s).past.nextOp == Do(w, s).past.nextOp
    ensures Next(w, s).net == Do(w, s).net
  {}

  lemma LastIsReply(log: seq<Event>, op: Operation)
    requires TellsLast(log, op)
    ensures HasReply(log, op.id) && Told(log, op)
  {}

  lemma OneReply(log: seq<Event>, e: Event, op: Operation)
    requires !HasReply(log, op.id) && IsReply(e, op.id)
    ensures HasReply(log + [e], op.id) && (Told(log + [e], op) <==> e.to == op.app && e.form == op.kind)
  {
    var log' := log + [e];
    assert log'[|log|] == e && IsReply(log'[|log|], op.id);
    assert forall i :: 0 <= i < |log'| && IsReply(log'[i], op.id) ==> i == |log|;
  }

  /**
   Over all steps: a tracked operation comes to an end without a reply to anyone in exactly these ways. A reply that is
   unreadable or panics, a resend once the client has gone, and the cleanup after it.
   */
  lemma AbandonedIff(w: World, s: Step, x: SurbId)
    requires Good(w) && w.past.revivals == 0 && Enabled(w, s) && x in w.net.surbs
    ensures var id, w' := w.net.surbs[x].op.id, Next(w, s);
            !TracksOp(w'.net, id) && !HasReply(w'.past.log, id) <==> Abandons(w, s, x)
  {
    NextQuiet(w, s, x);
    SameLog(w, s);
    if EndsIt(w, s, x) {
      StepAnswers(w, s, x);
      if ForeignCancel(w, s, x) {
        OneReply(w.past.log, Replied(w.net.surbs[x].op, s.handler, s.requester, Cancelled, []), w.net.surbs[x].op);
      } else if !Abandons(w, s, x) {
        LastIsReply(Do(w, s).past.log, w.net.surbs[x].op);
      }
    }
  }

  /** And then it is never answered, whatever follows. */
  lemma AbandonedForGood(w: World, s: Step, after: seq<Step>, x: SurbId)
    requires Good(w) && w.past.revivals == 0 && Enabled(w, s) && x in w.net.surbs && Abandons(w, s, x)
    requires Run(Next(w, s), after).past.revivals == 0
    ensures var id, w' := w.net.surbs[x].op.id, Run(Next(w, s), after);
            !TracksOp(w'.net, id) && !HasReply(w'.past.log, id)
  {
    AbandonedIff(w, s, x);
    KnownAfter(w, s, x);
    StaysEnded(Next(w, s), after, w.net.surbs[x].op.id);
  }

  lemma KnownAfter(w: World, s: Step, x: SurbId)
    requires Good(w) && x in w.net.surbs
    ensures Good(Next(w, s)) && w.net.surbs[x].op.id < Next(w, s).past.nextOp
  {
    NextGood(w, s);
  }

  lemma StaysEnded(w: World, after: seq<Step>, id: OpId)
    requires Good(w) && id < w.past.nextOp && !TracksOp(w.net, id) && Run(w, after).past.revivals == 0
    ensures !TracksOp(Run(w, after).net, id) && (HasReply(Run(w, after).past.log, id) ==> HasReply(w.past.log, id))
  {
    RunGood(w, after);
  }

  // ---- Operations whose client is not told that they have ended ----

  lemma TrackedToldIff(w: World, s: Step, x: SurbId)
    requires Good(w) && w.past.revivals == 0 && Enabled(w, s) && x in w.net.surbs
    ensures var op, w' := w.net.surbs[x].op, Next(w, s);
            !TracksOp(w'.net, op.id) && !Told(w'.past.log, op) <==> Abandons(w, s, x) || ForeignCancel(w, s, x)
  {
    NextQuiet(w, s, x);
    SameLog(w, s);
    if EndsIt(w, s, x) {
      StepAnswers(w, s, x);
      if ForeignCancel(w, s, x) {
        OneReply(w.past.log, Replied(w.net.surbs[x].op, s.handler, s.requester, Cancelled, []), w.net.surbs[x].op);
      } else if !Abandons(w, s, x) {
        LastIsReply(Do(w, s).past.log, w.net.surbs[x].op);
      }
    }
  }

  /** The operation that a start is about. */
  function Begun(w: World, s: Step): Operation
    requires s.DoStart?
  {
    Operation(w.past.nextOp, s.kind, s.app, s.hash, s.isRead, s.noRetry, s.noIdempotent)
  }

  ghost predicate Concerned(w: World, s: Step, op: Operation) { OpFrom(w.net, op) || (s.DoStart? && op == Begun(w, s)) }

  /** A start that cannot be composed once its client has gone; an abandonment; or somebody else's cancel. */
  ghost predicate EndsUntold(w: World, s: Step, op: Operation) {
    || (s.DoStart? && op == Begun(w, s) && !s.composed && s.app !in w.net.queues)
    || (exists x :: x in w.net.surbs && w.net.surbs[x].op == op && (Abandons(w, s, x) || ForeignCancel(w, s, x)))
  }

  lemma BegunToldIff(w: World, s: Step)
    requires Good(w) && w.past.revivals == 0 && Enabled(w, s) && s.DoStart?
    ensures var op, w' := Begun(w, s), Next(w, s);
            !TracksOp(w'.net, op.id) && !Told(w'.past.log, op) <==> !s.composed && s.app !in w.net.queues
  {
    var op := Begun(w, s);
    assert !HasReply(w.past.log, op.id);
    if s.composed {
      assert Next(w, s).net.surbs[w.net.nextSurb].op.id == op.id;
    } else if s.app in w.net.queues {
      OneReply(w.past.log, Answer(op, InternalError, []), op);
    } else {
      assert w.past.log + [] == w.past.log;
    }
  }

  lemma UntoldAt(w: World, s: Step, x: SurbId)
    requires NetOk(w.net) && Known(w) && x in w.net.surbs
    ensures EndsUntold(w, s, w.net.surbs[x].op) <==> Abandons(w, s, x) || ForeignCancel(w, s, x)
  {
    assert forall y :: y in w.net.surbs && w.net.surbs[y].op == w.net.surbs[x].op ==> y == x;
  }

  /**
   Over all steps and all operations: one is over without its client being told, in its own form, if and only if it was
   abandoned, or cancelled by somebody else, or could not be started after its client had gone.
   */
  lemma UntoldIff(w: World, s: Step, op: Operation)
    requires Good(w) && w.past.revivals == 0 && Enabled(w, s) && Concerned(w, s, op)
    ensures !TracksOp(Next(w, s).net, op.id) && !Told(Next(w, s).past.log, op) <==> EndsUntold(w, s, op)
  {
    if OpFrom(w.net, op) {
      var x :| x in w.net.surbs && w.net.surbs[x].op == op;
      TrackedToldIff(w, s, x);
      UntoldAt(w, s, x);
    } else {
      BegunToldIff(w, s);
    }
  }

  /** And then its client is never told, whatever follows. */
  lemma UntoldForGood(w: World, s: Step, after: seq<Step>, op: Operation)
    requires Good(w) && w.past.revivals == 0 && Enabled(w, s) && Concerned(w, s, op) && EndsUntold(w, s, op)
    requires Run(Next(w, s), after).past.revivals == 0
    ensures var w' := Run(Next(w, s), after); !TracksOp(w'.net, op.id) && !Told(w'.past.log, op)
  {
    UntoldIff(w, s, op);
    ConcernedKnown(w, s, op);
    StaysUntold(Next(w, s), after, op);
  }

  lemma ConcernedKnown(w: World, s: Step, op: Operation)
    requires Good(w) && Enabled(w, s) && Concerned(w, s, op)
    ensures Good(Next(w, s)) && op.id < Next(w, s).past.nextOp
  {
    NextGood(w, s);
  }

  lemma StaysUntold(w: World, after: seq<Step>, op: Operation)
    requires Good(w) && op.id < w.past.nextOp && !TracksOp(w.net, op.id) && !Told(w.past.log, op)
    requires Run(w, after).past.revivals == 0
    ensures !TracksOp(Run(w, after).net, op.id) && !Told(Run(w, after).past.log, op)
  {
    RunGood(w, after);
    NoSecondReply(w.past.log, Run(w, after).past.log, op);
  }

  lemma NoSecondReply(log: seq<Event>, log': seq<Event>, op: Operation)
    requires log <= log' && AnsweredOnce(log') && (HasReply(log', op.id) ==> HasReply(log, op.id)) && !Told(log, op)
    ensures !Told(log', op)
  {
    if HasReply(log, op.id) {
      var k :| 0 <= k < |log| && IsReply(log[k], op.id);
      assert log'[k] == log[k];
      assert forall i :: 0 <= i < |log'| && IsReply(log'[i], op.id) ==> i == k;
    }
  }

  // ---- Runs ----

  /** A client starts an operation, and its reply does not decrypt: the operation is over, and its client is not told whatever follows. */
  lemma SomeRunAbandons(capacity: nat, app: AppId, after: seq<Step>)
    requires After(capacity, OneStart(app) + ([DoReply(0, Undecryptable)] + after)).past.revivals == 0
    ensures var w, op := After(capacity, OneStart(app) + ([DoReply(0, Undecryptable)] + after)),
                         Operation(0, Envelope, app, 0, true, false, false);
            !TracksOp(w.net, op.id) && !HasReply(w.past.log, op.id)
  {
    var w, s := After(capacity, OneStart(app)), DoReply(0, Undecryptable);
    AfterOneStart(capacity, app);
    AfterGood(capacity, OneStart(app));
    RunSplits(Init(capacity), OneStart(app), [s] + after);
    RunCons(w, s, after);
    assert Abandons(w, s, 0);
    AbandonedForGood(w, s, after, 0);
  }

  // ---- A cancel by somebody else ----

  /** Two clients connect, and the first starts an operation. */
  function TwoClients(app: AppId, other: AppId): seq<Step> {
    [DoConnect(app), DoConnect(other), DoStart(Envelope, app, 0, true, false, false, true)]
  }

  lemma OneInFlight(capacity: nat, app: AppId, other: AppId)
    requires app != other
    ensures var w := After(capacity, TwoClients(app, other));
            && 0 in w.net.surbs && w.net.surbs[0].op == Operation(0, Envelope, app, 0, true, false, false)
            && !w.past.hashReused && w.past.revivals == 0 && app in w.net.queues && other in w.net.queues
  {
    var w, s := Init(capacity), TwoClients(app, other);
    RunThree(w, s[0], s[1], s[2]);
    assert Next(w, s[0]) == Connected(w, app) && Next(Next(w, s[0]), s[1]) == Connected(Connected(w, app), other);
  }

  /** Another client's cancel ends the operation, and the client that started it is never told, whatever follows. */
  lemma SomeCancelIsUntold(capacity: nat, app: AppId, other: AppId, handler: Kind, after: seq<Step>)
    requires app != other
    requires After(capacity, TwoClients(app, other) + ([DoCancel(handler, 0, other)] + after)).past.revivals == 0
    ensures var w := After(capacity, TwoClients(app, other) + ([DoCancel(handler, 0, other)] + after));
            var op := Operation(0, Envelope, app, 0, true, false, false);
            !TracksOp(w.net, op.id) && HasReply(w.past.log, op.id) && !Told(w.past.log, op)
  {
    OneInFlight(capacity, app, other);
    CancelIsFinal(capacity, TwoClients(app, other), after, handler, 0, other);
  }
}

/**
 The daemon's automatic retransmission of Pigeonhole messages as a state machine: what every handler does to
 the two maps, the timer queue, the per-client resend queues and the egress queue. Composing a Sphinx packet,
 decrypting a SURB payload and decrypting a reply envelope are outcomes chosen by the environment; a random
 SURB ID is a name never used before.
 */
module ArqSpec {
  import opened Bytes
  import opened Wrappers
  import Padding

  type SurbId = nat
  type Hash = nat
  type AppId = nat
  type OpId = nat

  // ---- The pure state machine ----

  datatype ArqState = WaitingForAck | AckReceived | PayloadReceived

  datatype ArqAction = SendNewSurb | Complete | HandlePayload | Fail | Ignore

  /** The error code of a thin-client reply. */
  datatype Code =
    | Success
    | InternalError
    | Cancelled
    | CopyCommandFailed(replicaCode: nat)
    | MkemDecryptionFailed
    | BacapDecryptionFailed
    | CourierInvalidEnvelope
    | CourierCacheCorruption
    | CourierPropagation
    | CourierInvalidEpoch
    | Replica(code: nat)

  const REPLICA_BOX_NOT_FOUND: nat := 1
  const REPLICA_BOX_ALREADY_EXISTS: nat := 10
  const REPLICA_TOMBSTONE: nat := 11

  const REPLY_ACK: nat := 0
  const REPLY_PAYLOAD: nat := 1

  const COPY_SUCCEEDED: nat := 0
  const COPY_IN_PROGRESS: nat := 1
  const COPY_FAILED: nat := 2

  datatype Transition = Transition(newState: ArqState, action: ArqAction, shouldRemove: bool, errorCode: Code)

  function ComputeTransition(state: ArqState, replyType: nat, errorCode: Code, isRead: bool, noIdempotent: bool): Transition {
    if errorCode != Success then Transition(state, Fail, true, errorCode)
    else
      match state
      case WaitingForAck =>
        if replyType == REPLY_ACK then
          if !isRead && !noIdempotent then Transition(state, Complete, true, Success)
          else Transition(AckReceived, SendNewSurb, false, Success)
        else Transition(PayloadReceived, HandlePayload, false, Success)
      case AckReceived =>
        if replyType == REPLY_PAYLOAD then Transition(PayloadReceived, HandlePayload, false, Success)
        else Transition(AckReceived, SendNewSurb, false, Success)
      case PayloadReceived => Transition(PayloadReceived, Ignore, false, Success)
  }

  function CourierErrorToThin(code: nat): Code {
    if code == 0 then Success
    else if code == 1 then CourierInvalidEnvelope
    else if code == 2 then CourierCacheCorruption
    else if code == 3 then CourierPropagation
    else if code == 4 then CourierInvalidEpoch
    else CourierInvalidEnvelope
  }

  /** What decrypting a payload reply can come to. */
  datatype Decrypted =
    | Plain(plaintext: Bytes)
    | ReplicaFailure(code: nat)
    | MkemFailure
    | BacapFailure
    | OtherFailure

  datatype PayloadErrorAction = ReturnError | Retry | IdempotentSuccess

  function DeterminePayloadErrorAction(d: Decrypted, isRead: bool, noRetry: bool, noIdempotent: bool): PayloadErrorAction {
    if !d.ReplicaFailure? then ReturnError
    else if d.code == REPLICA_BOX_NOT_FOUND && isRead && !noRetry then Retry
    else if d.code == REPLICA_BOX_ALREADY_EXISTS && !isRead && !noIdempotent then IdempotentSuccess
    else ReturnError
  }

  function MapDecryptionError(d: Decrypted): Code {
    match d
    case MkemFailure => MkemDecryptionFailed
    case BacapFailure => BacapDecryptionFailed
    case ReplicaFailure(code) => Replica(code)
    case _ => InternalError
  }

  // ---- State ----

  datatype Kind = Envelope | CopyCommand

  /** What never changes about an operation a thin client has started. */
  datatype Operation = Operation(id: OpId, kind: Kind, app: AppId, hash: Hash, isRead: bool, noRetry: bool, noIdempotent: bool)

  datatype Msg = Msg(op: Operation, surb: SurbId, state: ArqState, retransmissions: nat)

  datatype Net = Net(
    surbs: map<SurbId, Msg>,            // arqSurbIDMap
    hashes: map<Hash, SurbId>,          // arqEnvelopeHashMap
    timers: multiset<SurbId>,           // arqTimerQueue
    queues: map<AppId, seq<SurbId>>,    // resendCh of every connected client
    egress: multiset<SurbId>,           // picked by the scheduler, not yet dispatched
    nextSurb: SurbId)                   // every SURB ID drawn so far is below

  datatype Event =
    | Started(op: Operation)
    | Acked(op: Operation)
    | GotPlaintext(op: Operation, plaintext: Bytes)
    | AlreadyThere(op: Operation)
    | CopyDone(op: Operation)
    | Replied(op: Operation, form: Kind, to: AppId, code: Code, plaintext: Bytes)

  /** The SURB lifecycle metrics, and the removals that no metric counts. */
  datatype Counters = Counters(created: nat, rotated: nat, delivered: nat, collected: nat, uncounted: nat)

  /** Why a tracked message is on no queue: its client was away, a foreign reply, or a handler that is half done. */
  datatype Silence = WhileAway | ForeignReply | BetweenHalves

  datatype Past = Past(
    log: seq<Event>,
    counters: Counters,
    nextOp: OpId,
    seen: set<AppId>,
    handling: Option<OpId>,        // copy reply handed over, its poll not yet scheduled
    failing: Option<Msg>,          // compose failed, the message not yet rescheduled: the message as it is now
    silent: map<OpId, Silence>,    // operations whose message has lost its last place in a queue
    revivals: nat,                 // how often an operation was tracked again after it had ended
    hashReused: bool)              // a start has overwritten the entry of a hash still in flight

  datatype World = World(net: Net, past: Past, capacity: nat)

  function Init(capacity: nat): World {
    World(Net(map[], map[], multiset{}, map[], multiset{}, 0),
          Past([], Counters(0, 0, 0, 0, 0), 0, {}, None, None, map[], 0, false), capacity)
  }

  // ---- Elementary changes ----

  function PushTimer(n: Net, x: SurbId): Net { n.(timers := n.timers + multiset{x}) }
  function CancelTimer(n: Net, x: SurbId): Net { n.(timers := n.timers - multiset{x}) }

  function Untrack(n: Net, m: Msg): Net { n.(surbs := n.surbs - {m.surb}, hashes := n.hashes - {m.op.hash}) }

  function SetState(n: Net, m: Msg, s: ArqState): Net { n.(surbs := n.surbs[m.surb := m.(state := s)]) }

  /** Moves a message to a fresh SURB ID in both maps and arms its timer. */
  function Rekey(n: Net, m: Msg, retransmissions: nat): Net {
    n.(surbs := (n.surbs - {m.surb})[n.nextSurb := m.(surb := n.nextSurb, retransmissions := retransmissions)],
       hashes := n.hashes[m.op.hash := n.nextSurb],
       timers := n.timers + multiset{n.nextSurb},
       nextSurb := n.nextSurb + 1)
  }

  function EnqueueResend(n: Net, x: SurbId, capacity: nat): Net {
    if x !in n.surbs || n.surbs[x].op.app !in n.queues then n
    else
      var app := n.surbs[x].op.app;
      if |n.queues[app]| < capacity then n.(queues := n.queues[app := n.queues[app] + [x]])
      else PushTimer(n, x)
  }

  function Delivered(c: Counters): Counters { c.(delivered := c.delivered + 1) }
  function Collected(c: Counters, n: nat): Counters { c.(collected := c.collected + n) }
  function Uncounted(c: Counters): Counters { c.(uncounted := c.uncounted + 1) }
  function Rotated(c: Counters): Counters { c.(rotated := c.rotated + 1, created := c.created + 1) }

  function With(w: World, n: Net, c: Counters, events: seq<Event>): World {
    w.(net := n, past := w.past.(counters := c, log := w.past.log + events))
  }

  // ---- Where a message waits ----

  /** The message's SURB ID is on its way: in the timer queue, in its owner's resend queue, or at the egress worker. */
  predicate Waiting(n: Net, m: Msg) {
    || m.surb in n.timers || m.surb in n.egress
    || (m.op.app in n.queues && m.surb in n.queues[m.op.app])
  }

  /** Notes that the message has just left a queue, if that was its last place. */
  function Quieted(p: Past, n: Net, m: Msg, why: Silence): Past {
    if Waiting(n, m) then p else p.(silent := p.silent[m.op.id := why])
  }

  function Awake(w: World, id: OpId): World { w.(past := w.past.(silent := w.past.silent - {id})) }

  function Stayed(w: World, n: Net, m: Msg, why: Silence): World { w.(net := n, past := Quieted(w.past, n, m, why)) }

  function Requeued(w: World, n: Net, m: Msg, s: ArqState): World {
    Awake(w.(net := EnqueueResend(SetState(n, m, s), m.surb, w.capacity)), m.op.id)
  }

  function Moved(w: World, n: Net, m: Msg, retransmissions: nat): World {
    Awake(With(w, Rekey(n, m, retransmissions), Rotated(w.past.counters), []), m.op.id)
  }

  /** A reply to the operation's own client, of the operation's own type. */
  function Answer(op: Operation, code: Code, plaintext: Bytes): Event { Replied(op, op.kind, op.app, code, plaintext) }

  // ---- Handlers ----

  function Refusal(n: Net, op: Operation): seq<Event> {
    if op.app in n.queues then [Answer(op, InternalError, [])] else []
  }

  /** startResending... and arqSend: on a compose failure nothing is stored and the client is told, if it is still there. */
  function Start(w: World, kind: Kind, app: AppId, hash: Hash, isRead: bool, noRetry: bool, noIdempotent: bool, composed: bool): World {
    var op := Operation(w.past.nextOp, kind, app, hash, isRead, noRetry, noIdempotent);
    var past := w.past.(nextOp := w.past.nextOp + 1, seen := w.past.seen + {app});
    if !composed then With(w.(past := past), w.net, past.counters, Refusal(w.net, op))
    else
      var n, x := w.net, w.net.nextSurb;
      With(w.(past := past.(hashReused := past.hashReused || hash in n.hashes)),
           n.(surbs := n.surbs[x := Msg(op, x, WaitingForAck, 0)], hashes := n.hashes[hash := x],
              timers := n.timers + multiset{x}, nextSurb := x + 1),
           past.counters.(created := past.counters.created + 1), [Started(op)])
  }

  function TimerFires(w: World, x: SurbId): World {
    var n := CancelTimer(w.net, x);
    if x !in n.surbs then w.(net := n)
    else if n.surbs[x].op.app !in n.queues then Stayed(w, n, n.surbs[x], WhileAway)
    else Requeued(w, n, n.surbs[x], n.surbs[x].state)
  }

  /** The scheduler takes the oldest resend of one client. */
  function Picked(w: World, app: AppId): World
    requires app in w.net.queues && w.net.queues[app] != []
  {
    var q := w.net.queues[app];
    w.(net := w.net.(queues := w.net.queues[app := q[1..]], egress := w.net.egress + multiset{q[0]}))
  }

  /** arqDoResend in one piece; a compose failure moves the message to a placeholder in the same way. */
  function Resend(w: World, x: SurbId, composed: bool): World {
    var n := w.net.(egress := w.net.egress - multiset{x});
    if x !in n.surbs then w.(net := n)
    else
      var m := n.surbs[x];
      if m.op.app !in n.queues then With(w, Untrack(n, m), Uncounted(w.past.counters), [])
      else Moved(w, n, m, if composed then m.retransmissions + 1 else m.retransmissions)
  }

  /** arqDoResend up to the failed compose: the lock is released before the message is rescheduled. */
  function ComposeFailed(w: World, x: SurbId): World {
    var n := w.net.(egress := w.net.egress - multiset{x});
    if x !in n.surbs then w.(net := n)
    else
      var m := n.surbs[x];
      if m.op.app !in n.queues then With(w, Untrack(n, m), Uncounted(w.past.counters), [])
      else Stayed(w.(past := w.past.(failing := Some(m))), n, m, BetweenHalves)
  }

  datatype Incoming =
    | Undecryptable
    | Unparseable
    | EnvelopeReply(replyType: nat, courierCode: nat, decrypted: Decrypted)
    | CopyReply(status: nat, replicaCode: nat)

  function Fails(w: World, n: Net, m: Msg, code: Code): World {
    With(w, Untrack(n, m), Uncounted(w.past.counters), [Answer(m.op, code, [])])
  }

  function Succeeds(w: World, n: Net, m: Msg, evidence: Event, plaintext: Bytes): World {
    With(w, Untrack(n, m), Delivered(w.past.counters), [evidence, Answer(m.op, Success, plaintext)])
  }

  function PayloadArrives(w: World, n: Net, m: Msg, d: Decrypted): World {
    match d
    case Plain(p) =>
      if !m.op.isRead then Succeeds(w, n, m, GotPlaintext(m.op, p), [])
      else
        var done := With(w, Untrack(n, m), Delivered(w.past.counters), [GotPlaintext(m.op, p)]);
        if p == [] then With(done, done.net, done.past.counters, [Answer(m.op, Replica(REPLICA_TOMBSTONE), [])])
        else
          (match Padding.Extract(p)
           case Extracted(message) => Succeeds(w, n, m, GotPlaintext(m.op, p), message)
           case Rejected => With(done, done.net, done.past.counters, [Answer(m.op, InternalError, [])])
           case SlicePanics => done)
    case _ =>
      match DeterminePayloadErrorAction(d, m.op.isRead, m.op.noRetry, m.op.noIdempotent)
      case Retry => Requeued(w, n, m, WaitingForAck)
      case IdempotentSuccess => Succeeds(w, n, m, AlreadyThere(m.op), [])
      case ReturnError => Fails(w, n, m, MapDecryptionError(d))
  }

  function EnvelopeAnswered(w: World, n: Net, m: Msg, replyType: nat, courierCode: nat, d: Decrypted): World {
    var t := ComputeTransition(m.state, replyType, CourierErrorToThin(courierCode), m.op.isRead, m.op.noIdempotent);
    match t.action
    case Fail => Fails(w, n, m, t.errorCode)
    case Complete => Succeeds(w, n, m, Acked(m.op), [])
    case HandlePayload => PayloadArrives(w, n, m, d)
    case SendNewSurb => Requeued(w, n, m, t.newState)
    case Ignore => Stayed(w, n, m, ForeignReply)
  }

  function CopyAnswered(w: World, n: Net, m: Msg, status: nat, replicaCode: nat): World {
    if status == COPY_IN_PROGRESS then Moved(w, n, m, m.retransmissions)
    else if status == COPY_SUCCEEDED then Succeeds(w, n, m, CopyDone(m.op), [])
    else Fails(w, n, m, if status == COPY_FAILED then CopyCommandFailed(replicaCode) else InternalError)
  }

  /** What becomes of a reply once its message has been found; `n` is the net with the timer cancelled. */
  function Answered(w: World, n: Net, m: Msg, r: Incoming): World {
    if m.op.app !in n.queues then Stayed(w, n, m, WhileAway)
    else
      match r
      case Undecryptable => With(w, Untrack(n, m), Collected(w.past.counters, 1), [])
      case Unparseable => With(w, Untrack(n, m), Collected(w.past.counters, 1), [])
      case EnvelopeReply(replyType, courierCode, d) =>
        if m.op.kind == CopyCommand then Stayed(w, n, m, ForeignReply)
        else EnvelopeAnswered(w, n, m, replyType, courierCode, d)
      case CopyReply(status, replicaCode) =>
        if m.op.kind == CopyCommand then CopyAnswered(w, n, m, status, replicaCode)
        else With(w, Untrack(n, m), Collected(w.past.counters, 1), [])
  }

  /** handleReply and everything below it, as one step. */
  function Reply(w: World, x: SurbId, r: Incoming): World {
    if x !in w.net.surbs then w
    else
      var m := w.net.surbs[x];
      Answered(w, CancelTimer(w.net, m.surb), m, r)
  }

  /** The first half of a copy reply that says in progress: the timer is cancelled, the lock is released. */
  function CopyHandedOver(w: World, x: SurbId): World
    requires x in w.net.surbs
  {
    var m := w.net.surbs[x];
    Stayed(w.(past := w.past.(handling := Some(m.op.id))), CancelTimer(w.net, m.surb), m, BetweenHalves)
  }

  ghost predicate TracksOp(n: Net, id: OpId) { exists y :: y in n.surbs && n.surbs[y].op.id == id }

  ghost function Tracked(n: Net, id: OpId): (m: Msg)
    requires TracksOp(n, id)
    ensures exists y :: y in n.surbs && n.surbs[y] == m && m.op.id == id
  {
    var y :| y in n.surbs && n.surbs[y].op.id == id;
    n.surbs[y]
  }

  /** The second half, scheduleCopyCommandPoll: nothing unless the message is still tracked. */
  ghost function CopyPolled(w: World): World {
    if w.past.handling == None then w
    else
      var idle := w.(past := w.past.(handling := None));
      if !TracksOp(w.net, w.past.handling.value) then idle
      else
        var m := Tracked(w.net, w.past.handling.value);
        Moved(idle, w.net, m, m.retransmissions)
  }

  /** rescheduleARQAfterComposeFailure does not look: it files the message whether or not it is still tracked. */
  ghost function Rescheduled(w: World): World {
    if w.past.failing == None then w
    else
      var m, idle := w.past.failing.value, w.(past := w.past.(failing := None));
      if TracksOp(w.net, m.op.id) then Moved(idle, w.net, Tracked(w.net, m.op.id), Tracked(w.net, m.op.id).retransmissions)
      else Moved(idle.(past := idle.past.(revivals := idle.past.revivals + 1)), w.net, m, m.retransmissions)
  }

  /**
   The two cancel handlers: any connected client may cancel by hash. The reply to the operation goes out on the
   canceller's connection, and its type is that of the handler.
   */
  function Cancel(w: World, handler: Kind, hash: Hash, requester: AppId): World {
    if requester !in w.net.queues || hash !in w.net.hashes then w
    else
      var x := w.net.hashes[hash];
      if x !in w.net.surbs then w.(net := w.net.(hashes := w.net.hashes - {hash}))
      else
        var m := w.net.surbs[x];
        With(w, CancelTimer(w.net.(surbs := w.net.surbs - {x}, hashes := w.net.hashes - {hash}), m.surb),
             Uncounted(w.past.counters), [Replied(m.op, handler, requester, Cancelled, [])])
  }

  function OwnedBy(n: Net, app: AppId): set<SurbId> { set x | x in n.surbs && n.surbs[x].op.app == app }

  function Surbs(n: Net, xs: set<SurbId>): set<SurbId>
    requires xs <= n.surbs.Keys
  {
    set x | x in xs :: n.surbs[x].surb
  }

  function Hashes(n: Net, xs: set<SurbId>): set<Hash>
    requires xs <= n.surbs.Keys
  {
    set x | x in xs :: n.surbs[x].op.hash
  }

  /** cleanupForAppID */
  function Cleanup(w: World, app: AppId): World {
    var n, mine := w.net, OwnedBy(w.net, app);
    With(w, n.(surbs := n.surbs - mine, hashes := n.hashes - Hashes(n, mine), timers := n.timers - multiset(Surbs(n, mine))),
         Collected(w.past.counters, |mine|), [])
  }

  // ---- Connections ----

  function Connected(w: World, app: AppId): World {
    w.(net := w.net.(queues := w.net.queues[app := []]), past := w.past.(seen := w.past.seen + {app}))
  }

  function Stranded(n: Net, app: AppId): set<OpId> {
    set x | x in n.surbs && n.surbs[x].op.app == app && !Waiting(n, n.surbs[x]) :: n.surbs[x].op.id
  }

  /** The connection goes, and its resend queue with it. */
  function Disconnected(w: World, app: AppId): World {
    var n := w.net.(queues := w.net.queues - {app});
    w.(net := n, past := w.past.(silent := (map id | id in Stranded(n, app) :: WhileAway) + w.past.silent))
  }

  // ---- Runs ----

  datatype Step =
    | DoStart(kind: Kind, app: AppId, hash: Hash, isRead: bool, noRetry: bool, noIdempotent: bool, composed: bool)
    | DoFire(x: SurbId)
    | DoPick(app: AppId)
    | DoResend(x: SurbId)
    | DoComposeFails(x: SurbId)
    | DoReschedule
    | DoReply(x: SurbId, incoming: Incoming)
    | DoHandOver(x: SurbId)
    | DoPoll
    | DoCancel(handler: Kind, hash: Hash, requester: AppId)
    | DoCleanup(app: AppId)
    | DoConnect(app: AppId)
    | DoDisconnect(app: AppId)
    | DoResume(app: AppId)

  /**
   Replies are handled by one goroutine, so none starts while a copy reply is half handled; starts and resends by
   another, so none starts while a failed compose is half handled.
   */
  predicate Enabled(w: World, s: Step) {
    match s
    case DoStart(_, _, _, _, _, _, _) => w.past.failing == None
    case DoFire(x) => x in w.net.timers
    case DoPick(app) => app in w.net.queues && w.net.queues[app] != []
    case DoResend(x) => x in w.net.egress && w.past.failing == None
    case DoComposeFails(x) => x in w.net.egress && w.past.failing == None
    case DoReply(_, _) => w.past.handling == None
    case DoHandOver(x) =>
      && w.past.handling == None && x in w.net.surbs
      && w.net.surbs[x].op.kind == CopyCommand && w.net.surbs[x].op.app in w.net.queues
    case DoConnect(app) => app !in w.past.seen
    case DoDisconnect(app) => app in w.net.queues
    case DoResume(app) => app in w.past.seen && app !in w.net.queues
    case _ => true
  }

  ghost function Do(w: World, s: Step): World
    requires Enabled(w, s)
  {
    match s
    case DoStart(kind, app, hash, isRead, noRetry, noIdempotent, composed) =>
      Start(w, kind, app, hash, isRead, noRetry, noIdempotent, composed)
    case DoFire(x) => TimerFires(w, x)
    case DoPick(app) => Picked(w, app)
    case DoResend(x) => Resend(w, x, true)
    case DoComposeFails(x) => ComposeFailed(w, x)
    case DoReschedule => Rescheduled(w)
    case DoReply(x, r) => Reply(w, x, r)
    case DoHandOver(x) => CopyHandedOver(w, x)
    case DoPoll => CopyPolled(w)
    case DoCancel(handler, hash, requester) => Cancel(w, handler, hash, requester)
    case DoCleanup(app) => Cleanup(w, app)
    case DoConnect(app) => Connected(w, app)
    case DoDisconnect(app) => Disconnected(w, app)
    case DoResume(app) => Connected(w, app)
  }

  /** The message object as a step that ends its operation leaves it: a payload reply has set its terminal state. */
  function LeftBehind(m: Msg, s: Step): Msg {
    if s.DoReply? && s.x == m.surb && s.incoming.EnvelopeReply? && m.op.kind == Envelope
       && ComputeTransition(m.state, s.incoming.replyType, CourierErrorToThin(s.incoming.courierCode), m.op.isRead,
                            m.op.noIdempotent).action == HandlePayload
    then m.(state := PayloadReceived) else m
  }

  /** The egress worker holds on to the message object, so what other handlers do to it meanwhile is seen. */
  ghost function Observed(w: World, s: Step, w': World): World {
    if w.past.failing == None || w'.past.failing == None then w'
    else
      var f := w.past.failing.value;
      var now := if TracksOp(w'.net, f.op.id) then Tracked(w'.net, f.op.id)
                 else if TracksOp(w.net, f.op.id) then LeftBehind(Tracked(w.net, f.op.id), s) else f;
      w'.(past := w'.past.(failing := Some(now)))
  }

  ghost function Next(w: World, s: Step): World { if !Enabled(w, s) then w else Observed(w, s, Do(w, s)) }

  ghost function Run(w: World, steps: seq<Step>): World
    decreases |steps|
  {
    if steps == [] then w else Run(Next(w, steps[0]), steps[1..])
  }
}

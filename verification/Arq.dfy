/**
 The daemon itself: its maps are fields that the handlers update in place, its ARQ messages are objects shared
 between the map and the handler at work. Each handler is proved to do what the state machine of ArqSpec says.
 */
module Arq {
  import opened Bytes
  import opened Wrappers
  import opened ArqSpec
  import Padding

  class ARQMessage {
    ghost const id: OpId
    const messageType: Kind
    const appID: AppId
    const envelopeHash: Hash
    const isRead: bool
    const noRetryOnBoxIDNotFound: bool
    const noIdempotentBoxAlreadyExists: bool
    var surbID: SurbId
    var state: ArqState
    var retransmissions: nat

    constructor (ghost id: OpId, kind: Kind, app: AppId, hash: Hash, isRead: bool, noRetry: bool, noIdempotent: bool)
      ensures Op() == Operation(id, kind, app, hash, isRead, noRetry, noIdempotent) && state == WaitingForAck
    {
      this.id, messageType, appID, envelopeHash := id, kind, app, hash;
      this.isRead, noRetryOnBoxIDNotFound, noIdempotentBoxAlreadyExists := isRead, noRetry, noIdempotent;
      surbID, state, retransmissions := 0, WaitingForAck, 0;
    }

    ghost function Op(): Operation {
      Operation(id, messageType, appID, envelopeHash, isRead, noRetryOnBoxIDNotFound, noIdempotentBoxAlreadyExists)
    }

    ghost function Record(): Msg
      reads this
    {
      Msg(Op(), surbID, state, retransmissions)
    }
  }

  class Daemon {
    var arqSurbIDMap: map<SurbId, ARQMessage>
    var arqEnvelopeHashMap: map<Hash, SurbId>
    var arqTimerQueue: multiset<SurbId>
    var resendChs: map<AppId, seq<SurbId>>
    var egress: multiset<SurbId>
    var nextSurb: SurbId
    const resendChCapacity: nat

    /** Messages and decoys sent without retransmission, by the client they belong to: none for the daemon's own. */
    var replies: map<SurbId, Option<AppId>>
    var decoys: map<SurbId, Option<AppId>>

    /** The state as one value, with what has happened so far. */
    ghost var world: World

    /** The ghost value is what the fields hold; each message is filed under its own SURB ID, so no object is filed twice. */
    ghost predicate Valid()
      reads this`arqSurbIDMap, this`arqEnvelopeHashMap, this`arqTimerQueue, this`resendChs, this`egress, this`nextSurb
      reads this`world, arqSurbIDMap.Values
    {
      && world.net.surbs.Keys == arqSurbIDMap.Keys
      && (forall x :: x in arqSurbIDMap ==>
            x < nextSurb && arqSurbIDMap[x].surbID == x && arqSurbIDMap[x].Record() == world.net.surbs[x])
      && world.net.hashes == arqEnvelopeHashMap && world.net.timers == arqTimerQueue && world.net.queues == resendChs
      && world.net.egress == egress && world.net.nextSurb == nextSurb && world.capacity == resendChCapacity
    }

    ghost predicate Tracks(m: ARQMessage)
      reads this, m
    {
      m.surbID in arqSurbIDMap && arqSurbIDMap[m.surbID] == m
    }

    constructor (capacity: nat)
      ensures Valid() && world == Init(capacity)
    {
      arqSurbIDMap, arqEnvelopeHashMap, arqTimerQueue := map[], map[], multiset{};
      resendChs, egress, nextSurb, resendChCapacity := map[], multiset{}, 0, capacity;
      replies, decoys := map[], map[];
      world := Init(capacity);
    }

    // ---- Bookkeeping ----

    method EnqueueResend(surbID: SurbId)
      requires Valid()
      modifies this`resendChs, this`arqTimerQueue, this`world
      ensures Valid() && world == old(world).(net := ArqSpec.EnqueueResend(old(world.net), surbID, resendChCapacity))
    {
      if surbID in arqSurbIDMap {
        var app := arqSurbIDMap[surbID].appID;
        if app in resendChs {
          if |resendChs[app]| < resendChCapacity {
            resendChs := resendChs[app := resendChs[app] + [surbID]];
          } else {
            arqTimerQueue := arqTimerQueue + multiset{surbID};
          }
        }
      }
      world := world.(net := ArqSpec.EnqueueResend(world.net, surbID, resendChCapacity));
    }

    method TimerFires(surbID: SurbId)
      requires Valid()
      modifies this`resendChs, this`arqTimerQueue, this`world
      ensures Valid() && world == ArqSpec.TimerFires(old(world), surbID)
    {
      FiredIsQueued(world, surbID);
      CancelTimer(surbID);
      EnqueueResend(surbID);
      if surbID in arqSurbIDMap { NotePlace(arqSurbIDMap[surbID], WhileAway); }
    }

    lemma FiredIsQueued(w: World, x: SurbId)
      requires x in w.net.surbs ==> w.net.surbs[x].surb == x
      ensures var n := ArqSpec.CancelTimer(w.net, x);
              var fired := w.(net := ArqSpec.EnqueueResend(n, x, w.capacity));
              ArqSpec.TimerFires(w, x) ==
              if x !in n.surbs then fired
              else if n.surbs[x].op.app in n.queues then Awake(fired, n.surbs[x].op.id)
              else Stayed(fired, fired.net, n.surbs[x], WhileAway)
    {
      if x in w.net.surbs {
        var m := w.net.surbs[x];
        assert w.net.surbs[x := m.(state := m.state)] == w.net.surbs;
      }
    }

    /** Whether the message still has a place in a queue, after its timer has fired or its reply has come. */
    ghost method NotePlace(m: ARQMessage, why: Silence)
      requires Valid() && Tracks(m)
      modifies this`world
      ensures Valid()
      ensures world == if m.appID in resendChs then Awake(old(world), m.id) else Stayed(old(world), old(world.net), m.Record(), why)
    {
      world := if m.appID in resendChs then Awake(world, m.id) else Stayed(world, world.net, m.Record(), why);
    }

    method CancelTimer(surbID: SurbId)
      requires Valid()
      modifies this`arqTimerQueue, this`world
      ensures Valid() && world == old(world).(net := ArqSpec.CancelTimer(old(world.net), surbID))
    {
      arqTimerQueue := arqTimerQueue - multiset{surbID};
      world := world.(net := ArqSpec.CancelTimer(world.net, surbID));
    }

    method ScheduleARQFollowUp(m: ARQMessage)
      requires Valid()
      modifies this`resendChs, this`arqTimerQueue, this`world
      ensures Valid() && world == old(world).(net := ArqSpec.EnqueueResend(old(world.net), m.surbID, resendChCapacity))
    {
      EnqueueResend(m.surbID);
    }

    /** The pair of deletes with which every terminal outcome begins. */
    method Untrack(m: ARQMessage)
      requires Valid() && Tracks(m)
      modifies this`arqSurbIDMap, this`arqEnvelopeHashMap, this`world
      ensures Valid() && world == old(world).(net := ArqSpec.Untrack(old(world.net), m.Record()))
    {
      arqSurbIDMap := arqSurbIDMap - {m.surbID};
      arqEnvelopeHashMap := arqEnvelopeHashMap - {m.envelopeHash};
      world := world.(net := ArqSpec.Untrack(world.net, m.Record()));
    }

    /** The SURB counters and what the thin client is told; neither changes what is tracked. */
    ghost method Note(counters: Counters, events: seq<Event>)
      requires Valid()
      modifies this`world
      ensures Valid() && world == With(old(world), old(world.net), counters, events)
    {
      world := With(world, world.net, counters, events);
    }

    ghost method NoteAwake(m: ARQMessage)
      requires Valid()
      modifies this`world
      ensures Valid() && world == Awake(old(world), m.id)
    {
      world := Awake(world, m.id);
    }

    method DropARQMessage(m: ARQMessage)
      requires Valid() && Tracks(m)
      modifies this`arqSurbIDMap, this`arqEnvelopeHashMap, this`world
      ensures Valid()
      ensures world == With(old(world), ArqSpec.Untrack(old(world.net), m.Record()), Collected(old(world.past.counters), 1), [])
    {
      Untrack(m);
      Note(Collected(world.past.counters, 1), []);
    }

    /** A SURB ID never used before; in the daemon it is random. */
    method DrawSurbID() returns (surbID: SurbId)
      requires Valid()
      modifies this`nextSurb, this`world
      ensures Valid() && surbID == old(nextSurb) && surbID !in arqSurbIDMap
      ensures world == old(world).(net := old(world.net).(nextSurb := surbID + 1))
    {
      surbID := nextSurb;
      nextSurb := nextSurb + 1;
      world := world.(net := world.net.(nextSurb := surbID + 1));
    }

    ghost function Refiled(n: Net, m: Msg, x: SurbId, retransmissions: nat): Net {
      n.(surbs := (n.surbs - {m.surb})[x := m.(surb := x, retransmissions := retransmissions)], hashes := n.hashes[m.op.hash := x])
    }

    /** The edits that rotation, rescheduling and polling share: the message changes its key in both maps. */
    method Refile(m: ARQMessage, surbID: SurbId, retransmissions: nat)
      requires Valid() && surbID < nextSurb && surbID !in arqSurbIDMap
      modifies this`arqSurbIDMap, this`arqEnvelopeHashMap, this`world, m`surbID, m`retransmissions
      ensures Valid() && Tracks(m)
      ensures world == old(world).(net := Refiled(old(world.net), old(m.Record()), surbID, retransmissions))
    {
      ghost var n, was := world.net, m.Record();
      arqSurbIDMap := arqSurbIDMap - {m.surbID};
      m.surbID, m.retransmissions := surbID, retransmissions;
      arqSurbIDMap := arqSurbIDMap[surbID := m];
      arqEnvelopeHashMap := arqEnvelopeHashMap[m.envelopeHash := surbID];
      world := world.(net := Refiled(n, was, surbID, retransmissions));
    }

    method PushTimer(surbID: SurbId)
      requires Valid()
      modifies this`arqTimerQueue, this`world
      ensures Valid() && world == old(world).(net := ArqSpec.PushTimer(old(world.net), surbID))
    {
      arqTimerQueue := arqTimerQueue + multiset{surbID};
      world := world.(net := ArqSpec.PushTimer(world.net, surbID));
    }

    /** With the packet composed, the message moves to the SURB ID it carries. */
    method RotateARQSurbIDLocked(m: ARQMessage, surbID: SurbId)
      requires Valid() && surbID < nextSurb && surbID !in arqSurbIDMap
      modifies this`arqSurbIDMap, this`arqEnvelopeHashMap, this`world, m`surbID, m`retransmissions
      ensures Valid() && Tracks(m)
      ensures world == With(old(world), Refiled(old(world.net), old(m.Record()), surbID, old(m.retransmissions) + 1),
                            Rotated(old(world.past.counters)), [])
    {
      Refile(m, surbID, m.retransmissions + 1);
      Note(Rotated(world.past.counters), []);
    }

    lemma RotatedThenArmed(w: World, m: Msg, x: SurbId, r: nat)
      requires w.net.nextSurb == x + 1
      ensures var n := Refiled(w.net, m, x, r);
              Awake(With(w, n, Rotated(w.past.counters), []).(net := ArqSpec.PushTimer(n, x)), m.op.id)
              == Moved(w, w.net.(nextSurb := x), m, r)
    {}

    /** The message is filed under a SURB ID just drawn, and its timer is armed. */
    method FileUnder(m: ARQMessage, surbID: SurbId)
      requires Valid() && nextSurb == surbID + 1 && surbID !in arqSurbIDMap
      modifies this`arqSurbIDMap, this`arqEnvelopeHashMap, this`arqTimerQueue, this`world, m`surbID, m`retransmissions
      ensures Valid() && Tracks(m)
      ensures world == Moved(old(world), old(world.net).(nextSurb := surbID), old(m.Record()), old(m.retransmissions))
    {
      RotatedThenArmed(world, m.Record(), surbID, m.retransmissions);
      Refile(m, surbID, m.retransmissions);
      Note(Rotated(world.past.counters), []);
      PushTimer(surbID);
      NoteAwake(m);
    }

    /** The lock has been released in between, so the message need not be tracked any more: it is filed all the same. */
    method RescheduleARQAfterComposeFailure(m: ARQMessage)
      requires Valid()
      modifies this`arqSurbIDMap, this`arqEnvelopeHashMap, this`arqTimerQueue, this`nextSurb, this`world
      modifies m`surbID, m`retransmissions
      ensures Valid() && Tracks(m)
      ensures world == Moved(old(world), old(world.net), old(m.Record()), old(m.retransmissions))
    {
      var placeholder := DrawSurbID();
      FileUnder(m, placeholder);
    }

    method RotateAndArm(m: ARQMessage, surbID: SurbId)
      requires Valid() && nextSurb == surbID + 1 && surbID !in arqSurbIDMap
      modifies this`arqSurbIDMap, this`arqEnvelopeHashMap, this`arqTimerQueue, this`world, m`surbID, m`retransmissions
      ensures Valid() && Tracks(m)
      ensures world == Moved(old(world), old(world.net).(nextSurb := surbID), old(m.Record()), old(m.retransmissions) + 1)
    {
      RotatedThenArmed(world, m.Record(), surbID, m.retransmissions + 1);
      RotateARQSurbIDLocked(m, surbID);
      PushTimer(surbID);
      NoteAwake(m);
    }

    /** The part of a resend that follows a composed packet. */
    method SendComposed(m: ARQMessage)
      requires Valid()
      modifies this`arqSurbIDMap, this`arqEnvelopeHashMap, this`arqTimerQueue, this`nextSurb, this`world
      modifies m`surbID, m`retransmissions
      ensures Valid() && Tracks(m)
      ensures world == Moved(old(world), old(world.net), old(m.Record()), old(m.retransmissions) + 1)
    {
      var newSurbID := DrawSurbID();
      RotateAndArm(m, newSurbID);
    }

    method TakeFromEgress(surbID: SurbId)
      requires Valid()
      modifies this`egress, this`world
      ensures Valid() && world == old(world).(net := old(world.net).(egress := old(egress) - multiset{surbID}))
    {
      egress := egress - multiset{surbID};
      world := world.(net := world.net.(egress := egress));
    }

    method ArqDoResend(surbID: SurbId, composed: bool)
      requires Valid()
      modifies this`arqSurbIDMap, this`arqEnvelopeHashMap, this`arqTimerQueue, this`egress, this`nextSurb, this`world
      modifies arqSurbIDMap.Values
      ensures Valid() && world == ArqSpec.Resend(old(world), surbID, composed)
    {
      ResendIsResent(world, surbID, composed);
      TakeFromEgress(surbID);
      if surbID in arqSurbIDMap {
        ResendTracked(arqSurbIDMap[surbID], composed);
      }
    }

    /** What a resend does once it has found its message. */
    ghost function Resent(w: World, m: Msg, composed: bool): World {
      if m.op.app !in w.net.queues then With(w, ArqSpec.Untrack(w.net, m), Uncounted(w.past.counters), [])
      else Moved(w, w.net, m, if composed then m.retransmissions + 1 else m.retransmissions)
    }

    lemma ResendIsResent(w: World, x: SurbId, composed: bool)
      ensures var taken := w.(net := w.net.(egress := w.net.egress - multiset{x}));
              ArqSpec.Resend(w, x, composed) == if x in w.net.surbs then Resent(taken, w.net.surbs[x], composed) else taken
    {}

    method ResendTracked(m: ARQMessage, composed: bool)
      requires Valid() && Tracks(m)
      modifies this`arqSurbIDMap, this`arqEnvelopeHashMap, this`arqTimerQueue, this`nextSurb, this`world
      modifies m`surbID, m`retransmissions
      ensures Valid()
      ensures world == Resent(old(world), old(m.Record()), composed)
    {
      if m.appID !in resendChs {
        Untrack(m);
        Note(Uncounted(world.past.counters), []);
      } else if !composed {
        RescheduleARQAfterComposeFailure(m);
      } else {
        SendComposed(m);
      }
    }

    // ---- Starting ----

    method FileNew(m: ARQMessage, surbID: SurbId, envHashKey: Hash)
      requires Valid() && m !in arqSurbIDMap.Values && surbID < nextSurb && surbID !in arqSurbIDMap
      modifies this`arqSurbIDMap, this`arqEnvelopeHashMap, this`world, m`surbID, m`retransmissions
      ensures Valid()
      ensures world == old(world).(net := old(world.net).(
                surbs := old(world.net.surbs)[surbID := Msg(m.Op(), surbID, m.state, 0)],
                hashes := old(world.net.hashes)[envHashKey := surbID]))
    {
      m.surbID, m.retransmissions := surbID, 0;
      arqSurbIDMap := arqSurbIDMap[surbID := m];
      arqEnvelopeHashMap := arqEnvelopeHashMap[envHashKey := surbID];
      world := world.(net := world.net.(surbs := world.net.surbs[surbID := m.Record()], hashes := arqEnvelopeHashMap));
    }

    method ArqSend(m: ARQMessage, envHashKey: Hash, composed: bool) returns (ok: bool)
      requires Valid() && m !in arqSurbIDMap.Values && m.state == WaitingForAck && m.envelopeHash == envHashKey
      modifies this`arqSurbIDMap, this`arqEnvelopeHashMap, this`arqTimerQueue, this`nextSurb, this`world
      modifies m`surbID, m`retransmissions
      ensures Valid() && ok == composed
      ensures !ok ==> world == old(world)
      ensures ok ==> world == With(old(world), old(world.net).(
                       surbs := old(world.net.surbs)[old(nextSurb) := Msg(m.Op(), old(nextSurb), WaitingForAck, 0)],
                       hashes := old(world.net.hashes)[envHashKey := old(nextSurb)],
                       timers := old(world.net.timers) + multiset{old(nextSurb)}, nextSurb := old(nextSurb) + 1),
                       old(world.past.counters).(created := old(world.past.counters.created) + 1), [])
    {
      if !composed { return false; }
      var surbID := DrawSurbID();
      FileNew(m, surbID, envHashKey);
      Note(world.past.counters.(created := world.past.counters.created + 1), []);
      PushTimer(surbID);
      return true;
    }

    /** startResendingEncryptedMessage and startResendingCopyCommand, once the request has been validated. */
    method StartResending(kind: Kind, app: AppId, hash: Hash, isRead: bool, noRetry: bool, noIdempotent: bool, composed: bool)
      requires Valid()
      modifies this`arqSurbIDMap, this`arqEnvelopeHashMap, this`arqTimerQueue, this`nextSurb, this`world
      ensures Valid() && world == Start(old(world), kind, app, hash, isRead, noRetry, noIdempotent, composed)
    {
      ghost var past := world.past;
      var m := new ARQMessage(past.nextOp, kind, app, hash, isRead, noRetry, noIdempotent);
      var ok := ArqSend(m, hash, composed);
      NoteStart(app, past.hashReused || (ok && hash in old(arqEnvelopeHashMap)),
                if ok then [Started(m.Op())] else Refusal(world.net, m.Op()));
    }

    ghost method NoteStart(app: AppId, reused: bool, events: seq<Event>)
      requires Valid()
      modifies this`world
      ensures Valid()
      ensures world == old(world).(past := old(world.past).(
                log := old(world.past.log) + events, nextOp := old(world.past.nextOp) + 1,
                seen := old(world.past.seen) + {app}, hashReused := reused))
    {
      world := world.(past := world.past.(log := world.past.log + events, nextOp := world.past.nextOp + 1,
                                          seen := world.past.seen + {app}, hashReused := reused));
    }

    // ---- Replies ----

    /**
     The three maps are asked in this order, each for the SURB ID. A legacy reply is for the client named, once it has
     been decrypted; a decoy is thrown away.
     */
    method HandleReply(surbID: SurbId, reply: Incoming) returns (deliverTo: Option<AppId>)
      requires Valid()
      modifies this, arqSurbIDMap.Values
      ensures Valid()
      ensures replies == old(replies) - {surbID}
      ensures decoys == if surbID in old(replies) then old(decoys) else old(decoys) - {surbID}
      ensures world == if surbID in old(replies) || surbID in old(decoys) then old(world) else Reply(old(world), surbID, reply)
      ensures deliverTo == if surbID in old(replies) && !reply.Undecryptable? then old(replies)[surbID] else None
    {
      var known;
      known, deliverTo := TakeLegacy(surbID, !reply.Undecryptable?);
      if !known && surbID in arqSurbIDMap { HandleARQReply(surbID, reply); }
    }

    method TakeLegacy(surbID: SurbId, decrypts: bool) returns (known: bool, deliverTo: Option<AppId>)
      modifies this`replies, this`decoys
      ensures known <==> surbID in old(replies) || surbID in old(decoys)
      ensures replies == old(replies) - {surbID}
      ensures decoys == if surbID in old(replies) then old(decoys) else old(decoys) - {surbID}
      ensures deliverTo == if surbID in old(replies) && decrypts then old(replies)[surbID] else None
    {
      known, deliverTo := surbID in replies || surbID in decoys, None;
      if surbID in replies {
        if decrypts { deliverTo := replies[surbID]; }
        replies := replies - {surbID};
      } else {
        decoys := decoys - {surbID};
      }
    }

    method HandleARQReply(surbID: SurbId, reply: Incoming)
      requires Valid() && surbID in arqSurbIDMap
      modifies this`arqSurbIDMap, this`arqEnvelopeHashMap, this`arqTimerQueue, this`resendChs, this`nextSurb, this`world
      modifies arqSurbIDMap.Values
      ensures Valid() && world == Reply(old(world), surbID, reply)
    {
      var m := arqSurbIDMap[surbID];
      ReplyIsAnswered(world, surbID, reply);
      CancelTimer(m.surbID);
      HandlePigeonholeARQReply(m, reply);
    }

    lemma ReplyIsAnswered(w: World, x: SurbId, reply: Incoming)
      requires x in w.net.surbs
      ensures var m, n := w.net.surbs[x], ArqSpec.CancelTimer(w.net, w.net.surbs[x].surb);
              Reply(w, x, reply) == Answered(w.(net := n), n, m, reply)
    {}

    method HandlePigeonholeARQReply(m: ARQMessage, reply: Incoming)
      requires Valid() && Tracks(m)
      modifies this`arqSurbIDMap, this`arqEnvelopeHashMap, this`arqTimerQueue, this`resendChs, this`nextSurb, this`world
      modifies m`surbID, m`state, m`retransmissions
      ensures Valid() && world == Answered(old(world), old(world.net), old(m.Record()), reply)
    {
      if m.appID !in resendChs {
        NotePlace(m, WhileAway);
        return;
      }
      match reply
      case Undecryptable => DropARQMessage(m);
      case Unparseable => DropARQMessage(m);
      case EnvelopeReply(replyType, courierCode, d) =>
        if m.messageType == CopyCommand {
          NoteForeign(m);
        } else {
          HandleEnvelopeReply(m, replyType, courierCode, d);
        }
      case CopyReply(status, replicaCode) =>
        if m.messageType == CopyCommand {
          HandleCopyCommandARQReply(m, status, replicaCode);
        } else {
          DropARQMessage(m);
        }
    }

    ghost method NoteForeign(m: ARQMessage)
      requires Valid() && Tracks(m)
      modifies this`world
      ensures Valid() && world == Stayed(old(world), old(world.net), m.Record(), ForeignReply)
    {
      world := Stayed(world, world.net, m.Record(), ForeignReply);
    }

    method FailARQMessage(m: ARQMessage, code: Code)
      requires Valid() && Tracks(m)
      modifies this`arqSurbIDMap, this`arqEnvelopeHashMap, this`world
      ensures Valid() && world == Fails(old(world), old(world.net), m.Record(), code)
    {
      Untrack(m);
      Note(Uncounted(world.past.counters), [Answer(m.Op(), code, [])]);
    }

    method CompleteARQMessage(m: ARQMessage, ghost evidence: Event, plaintext: Bytes)
      requires Valid() && Tracks(m)
      modifies this`arqSurbIDMap, this`arqEnvelopeHashMap, this`world
      ensures Valid() && world == Succeeds(old(world), old(world.net), m.Record(), evidence, plaintext)
    {
      Untrack(m);
      Note(Delivered(world.past.counters), [evidence, Answer(m.Op(), Success, plaintext)]);
    }

    method HandleEnvelopeReply(m: ARQMessage, replyType: nat, courierCode: nat, d: Decrypted)
      requires Valid() && Tracks(m) && m.appID in resendChs
      modifies this`arqSurbIDMap, this`arqEnvelopeHashMap, this`arqTimerQueue, this`resendChs, this`world, m`state
      ensures Valid() && world == EnvelopeAnswered(old(world), old(world.net), old(m.Record()), replyType, courierCode, d)
    {
      var t := ComputeTransition(m.state, replyType, CourierErrorToThin(courierCode), m.isRead, m.noIdempotentBoxAlreadyExists);
      match t.action
      case Fail => FailARQMessage(m, t.errorCode);
      case Complete => CompleteARQMessage(m, Acked(m.Op()), []);
      case HandlePayload => EnterAndHandlePayload(m, t.newState, d);
      case SendNewSurb => FollowUp(m, t.newState);
      case Ignore => NoteForeign(m);
    }

    method EnterAndHandlePayload(m: ARQMessage, newState: ArqState, d: Decrypted)
      requires Valid() && Tracks(m) && m.appID in resendChs
      modifies this`arqSurbIDMap, this`arqEnvelopeHashMap, this`arqTimerQueue, this`resendChs, this`world, m`state
      ensures Valid() && world == PayloadArrives(old(world), old(world.net), old(m.Record()), d)
    {
      StateDoesNotMatter(world, m.Record(), newState, d);
      EnterState(m, newState);
      HandlePayloadReply(m, d);
    }

    /** Back to the resend queue in the given state. */
    method FollowUp(m: ARQMessage, state: ArqState)
      requires Valid() && Tracks(m) && m.appID in resendChs
      modifies this`arqTimerQueue, this`resendChs, this`world, m`state
      ensures Valid() && world == Requeued(old(world), old(world.net), old(m.Record()), state)
    {
      EnterState(m, state);
      ScheduleARQFollowUp(m);
      NoteAwake(m);
    }

    /** A payload reply is dealt with in the same way whatever state the message has been put in on the way. */
    lemma StateDoesNotMatter(w: World, m: Msg, s: ArqState, d: Decrypted)
      requires m.surb in w.net.surbs && w.net.surbs[m.surb] == m
      ensures var n := SetState(w.net, m, s);
              PayloadArrives(w.(net := n), n, m.(state := s), d) == PayloadArrives(w, w.net, m, d)
    {
      var n := SetState(w.net, m, s);
      assert ArqSpec.Untrack(n, m.(state := s)) == ArqSpec.Untrack(w.net, m);
      assert SetState(n, m.(state := s), WaitingForAck) == SetState(w.net, m, WaitingForAck);
    }

    method EnterState(m: ARQMessage, state: ArqState)
      requires Valid() && Tracks(m)
      modifies this`world, m`state
      ensures Valid() && Tracks(m) && m.state == state
      ensures world == old(world).(net := SetState(old(world.net), old(m.Record()), state))
    {
      m.state := state;
      world := world.(net := world.net.(surbs := world.net.surbs[m.surbID := m.Record()]));
    }

    method HandlePayloadReply(m: ARQMessage, d: Decrypted)
      requires Valid() && Tracks(m) && m.appID in resendChs
      modifies this`arqSurbIDMap, this`arqEnvelopeHashMap, this`arqTimerQueue, this`resendChs, this`world, m`state
      ensures Valid() && world == PayloadArrives(old(world), old(world.net), old(m.Record()), d)
    {
      if d.Plain? {
        DeliverPlaintext(m, d.plaintext);
      } else {
        var action := DeterminePayloadErrorAction(d, m.isRead, m.noRetryOnBoxIDNotFound, m.noIdempotentBoxAlreadyExists);
        match action
        case Retry => FollowUp(m, WaitingForAck);
        case IdempotentSuccess => CompleteARQMessage(m, AlreadyThere(m.Op()), []);
        case ReturnError => FailARQMessage(m, MapDecryptionError(d));
      }
    }

    method DeliverPlaintext(m: ARQMessage, plaintext: Bytes)
      requires Valid() && Tracks(m)
      modifies this`arqSurbIDMap, this`arqEnvelopeHashMap, this`world
      ensures Valid() && world == PayloadArrives(old(world), old(world.net), m.Record(), Plain(plaintext))
    {
      ghost var log, got := world.past.log, GotPlaintext(m.Op(), plaintext);
      Untrack(m);
      Note(Delivered(world.past.counters), [got]);
      if !m.isRead {
        Note(world.past.counters, [Answer(m.Op(), Success, [])]);
        assert log + [got] + [Answer(m.Op(), Success, [])] == log + [got, Answer(m.Op(), Success, [])];
      } else if plaintext == [] {
        Note(world.past.counters, [Answer(m.Op(), Replica(REPLICA_TOMBSTONE), [])]);
      } else {
        match Padding.Extract(plaintext)
        case Extracted(message) =>
          Note(world.past.counters, [Answer(m.Op(), Success, message)]);
          assert log + [got] + [Answer(m.Op(), Success, message)] == log + [got, Answer(m.Op(), Success, message)];
        case Rejected => Note(world.past.counters, [Answer(m.Op(), InternalError, [])]);
        case SlicePanics =>
      }
    }

    method HandleCopyCommandARQReply(m: ARQMessage, status: nat, replicaCode: nat)
      requires Valid() && Tracks(m)
      modifies this`arqSurbIDMap, this`arqEnvelopeHashMap, this`arqTimerQueue, this`nextSurb, this`world
      modifies m`surbID, m`retransmissions
      ensures Valid() && world == CopyAnswered(old(world), old(world.net), old(m.Record()), status, replicaCode)
    {
      if status == COPY_IN_PROGRESS {
        ScheduleCopyCommandPoll(m);
      } else if status == COPY_SUCCEEDED {
        CompleteARQMessage(m, CopyDone(m.Op()), []);
      } else if status == COPY_FAILED {
        FailARQMessage(m, CopyCommandFailed(replicaCode));
      } else {
        FailARQMessage(m, InternalError);
      }
    }

    /** Files the message again only if it is still tracked, so a cancel since the reply came in stands. */
    method ScheduleCopyCommandPoll(m: ARQMessage)
      requires Valid()
      modifies this`arqSurbIDMap, this`arqEnvelopeHashMap, this`arqTimerQueue, this`nextSurb, this`world
      modifies m`surbID, m`retransmissions
      ensures Valid()
      ensures !old(Tracks(m)) ==> world == old(world)
      ensures old(Tracks(m)) ==> world == Moved(old(world), old(world.net), old(m.Record()), old(m.retransmissions))
    {
      if m.surbID !in arqSurbIDMap || arqSurbIDMap[m.surbID] != m { return; }
      var placeholder := DrawSurbID();
      FileUnder(m, placeholder);
    }

    // ---- Ending from outside ----

    /**
     cancelResendingEncryptedMessage and cancelResendingCopyCommand, once the request has been validated. Both look the
     hash up in the same map, and neither looks at the kind of what it finds, nor at whose it is.
     */
    method Cancel(handler: Kind, hash: Hash, requester: AppId)
      requires Valid()
      modifies this`arqSurbIDMap, this`arqEnvelopeHashMap, this`arqTimerQueue, this`world
      ensures Valid() && world == ArqSpec.Cancel(old(world), handler, hash, requester)
    {
      if requester !in resendChs || hash !in arqEnvelopeHashMap { return; }
      var surbID := arqEnvelopeHashMap[hash];
      arqEnvelopeHashMap := arqEnvelopeHashMap - {hash};
      world := world.(net := world.net.(hashes := world.net.hashes - {hash}));
      if surbID in arqSurbIDMap {
        var m := arqSurbIDMap[surbID];
        arqSurbIDMap := arqSurbIDMap - {surbID};
        world := world.(net := world.net.(surbs := world.net.surbs - {surbID}));
        CancelTimer(m.surbID);
        Note(Uncounted(world.past.counters), [Replied(m.Op(), handler, requester, Cancelled, [])]);
      }
    }

    /** The lists hold the hashes and the SURB IDs of exactly these messages. */
    ghost predicate Lists(n: Net, xs: set<SurbId>, hashes: seq<Hash>, surbIDs: seq<SurbId>) {
      xs <= n.surbs.Keys && multiset(surbIDs) == multiset(xs) && (set h | h in hashes) == Hashes(n, xs)
    }

    /** What has been listed once all but the messages in `todo` have been looked at. */
    ghost predicate Swept(n: Net, app: AppId, todo: set<SurbId>, gone: set<SurbId>, hashes: seq<Hash>, surbIDs: seq<SurbId>) {
      gone == OwnedBy(n, app) - todo && Lists(n, gone, hashes, surbIDs)
    }

    lemma ListsOneMore(n: Net, xs: set<SurbId>, hashes: seq<Hash>, surbIDs: seq<SurbId>, x: SurbId)
      requires Lists(n, xs, hashes, surbIDs) && x in n.surbs && x !in xs
      ensures Lists(n, xs + {x}, hashes + [n.surbs[x].op.hash], surbIDs + [x])
    {
      var more := hashes + [n.surbs[x].op.hash];
      assert (set h | h in more) == (set h | h in hashes) + {n.surbs[x].op.hash};
      assert Hashes(n, xs + {x}) == Hashes(n, xs) + {n.surbs[x].op.hash};
    }

    lemma SweptOneMore(n: Net, app: AppId, todo: set<SurbId>, gone: set<SurbId>, hashes: seq<Hash>, surbIDs: seq<SurbId>, x: SurbId)
      requires Swept(n, app, todo, gone, hashes, surbIDs) && x in todo && x in n.surbs
      ensures if n.surbs[x].op.app == app
              then Swept(n, app, todo - {x}, gone + {x}, hashes + [n.surbs[x].op.hash], surbIDs + [x])
              else Swept(n, app, todo - {x}, gone, hashes, surbIDs)
    {
      if n.surbs[x].op.app == app {
        ListsOneMore(n, gone, hashes, surbIDs, x);
        assert OwnedBy(n, app) - (todo - {x}) == gone + {x};
      } else {
        assert OwnedBy(n, app) - (todo - {x}) == gone;
      }
    }

    /** What the loop below reads of each message. */
    ghost predicate Labelled(all: map<SurbId, ARQMessage>, n: Net)
      reads all.Values
    {
      && all.Keys == n.surbs.Keys
      && (forall x :: x in all ==> all[x].surbID == x && all[x].appID == n.surbs[x].op.app && all[x].envelopeHash == n.surbs[x].op.hash)
    }

    lemma ValidIsLabelled()
      requires Valid()
      ensures Labelled(arqSurbIDMap, world.net)
      ensures forall x :: x in world.net.surbs ==> world.net.surbs[x].surb == x
    {
      forall x | x in arqSurbIDMap
        ensures arqSurbIDMap[x].appID == world.net.surbs[x].op.app && arqSurbIDMap[x].envelopeHash == world.net.surbs[x].op.hash
        ensures world.net.surbs[x].surb == x
      {
        assert arqSurbIDMap[x].Record() == world.net.surbs[x];
      }
    }

    lemma SweptAll(n: Net, app: AppId)
      ensures Swept(n, app, n.surbs.Keys, {}, [], [])
      ensures OwnedBy(n, app) - {} == OwnedBy(n, app)
    {
      assert OwnedBy(n, app) <= n.surbs.Keys;
    }

    lemma MinusOneMore<K, V>(m: map<K, V>, ks: set<K>, k: K)
      ensures m - ks - {k} == m - (ks + {k})
    {}

    /** Takes the client's messages out of the map and lists their hashes and SURB IDs. */
    method CollectOwned(app: AppId, ghost n: Net) returns (hashes: seq<Hash>, surbIDs: seq<SurbId>)
      requires Labelled(arqSurbIDMap, n)
      modifies this`arqSurbIDMap
      ensures arqSurbIDMap == old(arqSurbIDMap) - OwnedBy(n, app)
      ensures Lists(n, OwnedBy(n, app), hashes, surbIDs)
    {
      ghost var gone := {};
      var all, todo := arqSurbIDMap, arqSurbIDMap.Keys;
      hashes, surbIDs := [], [];
      SweptAll(n, app);
      while todo != {}
        invariant todo <= all.Keys
        invariant Swept(n, app, todo, gone, hashes, surbIDs) && arqSurbIDMap == all - gone
        decreases todo
      {
        var x :| x in todo;
        SweptOneMore(n, app, todo, gone, hashes, surbIDs, x);
        if all[x].appID == app {
          hashes, surbIDs := hashes + [all[x].envelopeHash], surbIDs + [all[x].surbID];
          MinusOneMore(all, gone, x);
          arqSurbIDMap := arqSurbIDMap - {x};
          gone := gone + {x};
        }
        todo := todo - {x};
      }
    }

    method TakeOwned(app: AppId) returns (hashes: seq<Hash>, surbIDs: seq<SurbId>)
      requires Valid()
      modifies this`arqSurbIDMap, this`world
      ensures Valid() && world == old(world).(net := old(world.net).(surbs := old(world.net.surbs) - OwnedBy(old(world.net), app)))
      ensures Lists(old(world.net), OwnedBy(old(world.net), app), hashes, surbIDs)
    {
      ValidIsLabelled();
      hashes, surbIDs := CollectOwned(app, world.net);
      world := world.(net := world.net.(surbs := world.net.surbs - OwnedBy(world.net, app)));
    }

    method DropHashes(hashes: seq<Hash>)
      requires Valid()
      modifies this`arqEnvelopeHashMap, this`world
      ensures Valid() && world == old(world).(net := old(world.net).(hashes := old(world.net.hashes) - (set h | h in hashes)))
    {
      for i := 0 to |hashes|
        invariant arqEnvelopeHashMap == old(arqEnvelopeHashMap) - (set h | h in hashes[..i]) && world == old(world)
      {
        arqEnvelopeHashMap := arqEnvelopeHashMap - {hashes[i]};
        assert hashes[..i + 1] == hashes[..i] + [hashes[i]];
      }
      assert hashes[..|hashes|] == hashes;
      world := world.(net := world.net.(hashes := arqEnvelopeHashMap));
    }

    lemma LessOneMore(a: multiset<SurbId>, xs: seq<SurbId>, i: nat)
      requires i < |xs|
      ensures a - multiset(xs[..i]) - multiset{xs[i]} == a - multiset(xs[..i + 1])
    {
      assert xs[..i + 1] == xs[..i] + [xs[i]];
    }

    method CancelTimers(surbIDs: seq<SurbId>)
      requires Valid()
      modifies this`arqTimerQueue, this`world
      ensures Valid() && world == old(world).(net := old(world.net).(timers := old(world.net.timers) - multiset(surbIDs)))
    {
      for i := 0 to |surbIDs|
        invariant Valid()
        invariant world == old(world).(net := old(world.net).(timers := old(world.net.timers) - multiset(surbIDs[..i])))
      {
        CancelTimer(surbIDs[i]);
        LessOneMore(old(world.net.timers), surbIDs, i);
      }
      assert surbIDs[..|surbIDs|] == surbIDs;
    }

    lemma ListedIsOwned(w: World, app: AppId, hashes: seq<Hash>, surbIDs: seq<SurbId>)
      requires Lists(w.net, OwnedBy(w.net, app), hashes, surbIDs)
      requires forall x :: x in w.net.surbs ==> w.net.surbs[x].surb == x
      ensures (set h | h in hashes) == Hashes(w.net, OwnedBy(w.net, app))
      ensures multiset(surbIDs) == multiset(Surbs(w.net, OwnedBy(w.net, app)))
    {
      assert Surbs(w.net, OwnedBy(w.net, app)) == OwnedBy(w.net, app);
    }

    /** The part of the cleanup that is done under the lock. */
    method DropOwned(app: AppId) returns (surbIDs: seq<SurbId>)
      requires Valid()
      modifies this`arqSurbIDMap, this`arqEnvelopeHashMap, this`world
      ensures Valid()
      ensures var n, mine := old(world.net), OwnedBy(old(world.net), app);
              world == old(world).(net := n.(surbs := n.surbs - mine, hashes := n.hashes - Hashes(n, mine)))
              && multiset(surbIDs) == multiset(Surbs(n, mine))
    {
      ghost var was := world;
      var hashes;
      ValidIsLabelled();
      hashes, surbIDs := TakeOwned(app);
      DropHashes(hashes);
      ListedIsOwned(was, app, hashes, surbIDs);
    }

    /** The loop over the legacy replies, and the one over the decoys. */
    method Sweep(all: map<SurbId, Option<AppId>>, app: AppId) returns (kept: map<SurbId, Option<AppId>>)
      ensures kept == NotOwned(all, app)
    {
      kept := all;
      var todo := all.Keys;
      while todo != {}
        invariant todo <= all.Keys
        invariant kept == map x | x in all && (all[x] != Some(app) || x in todo) :: all[x]
        decreases todo
      {
        var x :| x in todo;
        if all[x] == Some(app) { kept := kept - {x}; }
        todo := todo - {x};
      }
    }

    ghost function NotOwned(all: map<SurbId, Option<AppId>>, app: AppId): map<SurbId, Option<AppId>> {
      map x | x in all && all[x] != Some(app) :: all[x]
    }

    method SweepLegacy(app: AppId)
      requires Valid()
      modifies this`replies, this`decoys
      ensures Valid() && replies == NotOwned(old(replies), app) && decoys == NotOwned(old(decoys), app)
    {
      replies := Sweep(replies, app);
      decoys := Sweep(decoys, app);
    }

    lemma CleanupInParts(w: World, app: AppId, surbIDs: seq<SurbId>)
      requires multiset(surbIDs) == multiset(Surbs(w.net, OwnedBy(w.net, app)))
      ensures var n, mine := w.net, OwnedBy(w.net, app);
              var dropped := w.(net := n.(surbs := n.surbs - mine, hashes := n.hashes - Hashes(n, mine)));
              var cancelled := dropped.(net := dropped.net.(timers := dropped.net.timers - multiset(surbIDs)));
              Cleanup(w, app) == With(cancelled, cancelled.net, Collected(cancelled.past.counters, |mine|), [])
    {}

    /** cleanupForAppID: the client's messages leave the map first, then their hashes, then their timers. */
    method CleanupForAppID(app: AppId)
      requires Valid()
      modifies this
      ensures Valid() && world == Cleanup(old(world), app)
      ensures replies == NotOwned(old(replies), app) && decoys == NotOwned(old(decoys), app)
    {
      ghost var was := world;
      var surbIDs := DropOwned(app);
      CleanupInParts(was, app, surbIDs);
      SweepLegacy(app);
      CancelTimers(surbIDs);
      Note(Collected(world.past.counters, |OwnedBy(was.net, app)|), []);
    }

    // ---- Messages without retransmission ----

    /** The end of send, and of sendLoopDecoy: a reply to this SURB ID will be recognised. */
    method ExpectReply(surbID: SurbId, app: Option<AppId>, isLoopDecoy: bool)
      requires Valid()
      modifies this`replies, this`decoys
      ensures Valid()
      ensures replies == if isLoopDecoy then old(replies) else old(replies)[surbID := app]
      ensures decoys == if isLoopDecoy then old(decoys)[surbID := app] else old(decoys)
    {
      if isLoopDecoy {
        decoys := decoys[surbID := app];
      } else {
        replies := replies[surbID := app];
      }
    }

    /** The collection timer of such a SURB ID has fired: a later reply finds nothing. */
    method CollectSurbID(surbID: SurbId)
      requires Valid()
      modifies this`replies, this`decoys
      ensures Valid() && replies == old(replies) - {surbID} && decoys == old(decoys) - {surbID}
    {
      replies := replies - {surbID};
      decoys := decoys - {surbID};
    }
  }
}

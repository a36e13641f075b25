/**
 The listener's scheduler: connections are objects, the rotation list and its cursor are updated in place. What
 the operations do to the rotation is stated here; that it stays in order, and is fair, in SchedulerFairness.
 */
module Scheduler {
  import opened Wrappers
  import opened SchedulerSpec

  class IncomingConn {
    var appID: AppId
    var resendCh: seq<nat>
    var requestCh: seq<nat>

    constructor (appID: AppId)
      ensures this.appID == appID && Queues() == Conn([], [])
    {
      this.appID, resendCh, requestCh := appID, [], [];
    }

    ghost function Queues(): Conn
      reads this
    {
      Conn(resendCh, requestCh)
    }
  }

  class Listener {
    var conns: map<AppId, IncomingConn>
    var connOrder: seq<AppId>
    var rrCursor: nat

    /** Sessions whose connection was lost and whose grace timer is armed, with the replies that wait for them. */
    var disconnectedSessions: map<AppId, seq<nat>>

    /** The rotation as one value. */
    ghost var rota: Rota

    ghost predicate Valid()
      reads this`conns, this`connOrder, this`rrCursor, this`rota, conns.Values
    {
      && rota.order == connOrder && rota.cursor == rrCursor && rota.conns.Keys == conns.Keys
      && (forall a :: a in conns ==> conns[a].appID == a && conns[a].Queues() == rota.conns[a])
    }

    constructor ()
      ensures Valid() && rota == Rota([], 0, map[])
    {
      conns, connOrder, rrCursor, rota := map[], [], 0, Rota([], 0, map[]);
      disconnectedSessions := map[];
    }

    method RegisterConn(c: IncomingConn)
      requires Valid()
      modifies this`conns, this`connOrder, this`rota
      ensures Valid() && rota == Register(old(rota), c.appID, c.Queues())
    {
      conns := conns[c.appID := c];
      connOrder := connOrder + [c.appID];
      rota := Register(rota, c.appID, c.Queues());
    }

    /** The first place of an identity in the rotation list. */
    method Find(appID: AppId) returns (i: nat)
      ensures i == Pos(connOrder, appID)
    {
      i := 0;
      while i < |connOrder| && connOrder[i] != appID
        invariant i <= |connOrder| && forall j :: 0 <= j < i ==> connOrder[j] != appID
      {
        i := i + 1;
      }
    }

    /** Closes the gap in the rotation list and keeps the cursor on a live client. */
    method DropFromOrder(appID: AppId)
      modifies this`connOrder, this`rrCursor
      ensures forall m :: Unregister(Rota(old(connOrder), old(rrCursor), m), appID) == Rota(connOrder, rrCursor, m - {appID})
    {
      var i := Find(appID);
      if i < |connOrder| {
        connOrder := connOrder[..i] + connOrder[i + 1..];
        if rrCursor > i { rrCursor := rrCursor - 1; }
      }
      var n := |connOrder|;
      if n == 0 {
        rrCursor := 0;
      } else if rrCursor >= n {
        rrCursor := rrCursor % n;
      }
    }

    method UnregisterConn(appID: AppId)
      requires Valid()
      modifies this`conns, this`connOrder, this`rrCursor, this`rota
      ensures Valid() && rota == Unregister(old(rota), appID)
    {
      conns := conns - {appID};
      DropFromOrder(appID);
      rota := Unregister(rota, appID);
    }

    method PickNextRequest() returns (picked: Option<Picked>)
      requires Valid()
      modifies this`rrCursor, this`rota, conns.Values
      ensures Valid()
      ensures (rota, picked) == Pick(old(rota))
    {
      var n := |connOrder|;
      if n == 0 { return None; }
      var i := 0;
      while i < n
        invariant i <= n && Scan(rota, 0) == Scan(rota, i)
      {
        var idx := (rrCursor + i) % n;
        if connOrder[idx] in conns {
          var c := conns[connOrder[idx]];
          if c.resendCh != [] || c.requestCh != [] {
            picked := Serve(c, idx, i);
            return;
          }
        }
        i := i + 1;
      }
      rrCursor := (rrCursor + 1) % n;
      rota := Pick(rota).0;
      return None;
    }

    /** Takes the resend, or else the request, that is first in line and moves the cursor past this client. */
    method Serve(c: IncomingConn, idx: nat, ghost i: nat) returns (picked: Option<Picked>)
      requires Valid() && connOrder != [] && i < |connOrder| && idx == Slot(rota, i) && i == Scan(rota, 0)
      requires connOrder[idx] in conns && conns[connOrder[idx]] == c
      modifies this`rrCursor, this`rota, c`resendCh, c`requestCh
      ensures Valid() && (rota, picked) == Pick(old(rota))
    {
      if c.resendCh != [] {
        picked := Some(Picked(c.appID, Resend(c.resendCh[0])));
        c.resendCh := c.resendCh[1..];
      } else {
        picked := Some(Picked(c.appID, Fresh(c.requestCh[0])));
        c.requestCh := c.requestCh[1..];
      }
      rrCursor := (idx + 1) % |connOrder|;
      rota := Pick(rota).0;
    }

    // ---- Sessions ----

    const MAX_QUEUED_REPLIES: nat := 1000

    /** onClosedConn: a client that says goodbye is forgotten, one with a token is given a grace period. */
    method OnClosedConn(appID: AppId, explicitClose: bool, hasToken: bool) returns (cleanUp: bool)
      requires Valid()
      modifies this`conns, this`connOrder, this`rrCursor, this`rota, this`disconnectedSessions
      ensures Valid() && rota == Unregister(old(rota), appID)
      ensures cleanUp <==> explicitClose || !hasToken
      ensures disconnectedSessions == if cleanUp then old(disconnectedSessions) else old(disconnectedSessions)[appID := []]
    {
      UnregisterConn(appID);
      cleanUp := explicitClose || !hasToken;
      if !cleanUp {
        disconnectedSessions := disconnectedSessions[appID := []];
      }
    }

    /** The grace timer: the client is forgotten unless its session has been resumed. */
    method GraceExpired(appID: AppId) returns (cleanUp: bool)
      modifies this`disconnectedSessions
      ensures cleanUp <==> appID in old(disconnectedSessions)
      ensures disconnectedSessions == old(disconnectedSessions) - {appID}
    {
      cleanUp := appID in disconnectedSessions;
      disconnectedSessions := disconnectedSessions - {appID};
    }

    method QueueReplyForDisconnected(appID: AppId, reply: nat) returns (known: bool)
      modifies this`disconnectedSessions
      ensures known <==> appID in old(disconnectedSessions)
      ensures disconnectedSessions ==
              if known && |old(disconnectedSessions)[appID]| < MAX_QUEUED_REPLIES
              then old(disconnectedSessions)[appID := old(disconnectedSessions)[appID] + [reply]] else old(disconnectedSessions)
    {
      known := appID in disconnectedSessions;
      if known && |disconnectedSessions[appID]| < MAX_QUEUED_REPLIES {
        disconnectedSessions := disconnectedSessions[appID := disconnectedSessions[appID] + [reply]];
      }
    }

    /**
     The part of handleSessionToken that gives a connection the identity its token stands for: the replies that waited
     go out in order, and the grace timer no longer finds a session.
     */
    method ResumeSession(c: IncomingConn, existing: AppId) returns (flushed: seq<nat>)
      requires Valid() && c.appID in conns && conns[c.appID] == c
      modifies this`conns, this`connOrder, this`rota, this`disconnectedSessions, c`appID
      ensures Valid() && c.appID == existing && rota == Resume(old(rota), old(c.appID), existing)
      ensures flushed == if existing in old(disconnectedSessions) then old(disconnectedSessions)[existing] else []
      ensures disconnectedSessions == old(disconnectedSessions) - {existing}
    {
      Rename(c, existing);
      flushed := [];
      if existing in disconnectedSessions {
        var queued := disconnectedSessions[existing];
        for i := 0 to |queued|
          invariant flushed == queued[..i]
        {
          flushed := flushed + [queued[i]];
        }
      }
      disconnectedSessions := disconnectedSessions - {existing};
    }

    method Rename(c: IncomingConn, existing: AppId)
      requires Valid() && c.appID in conns && conns[c.appID] == c
      modifies this`conns, this`connOrder, this`rota, c`appID
      ensures Valid() && c.appID == existing && rota == Resume(old(rota), old(c.appID), existing)
    {
      var oldAppID := c.appID;
      conns := conns - {oldAppID};
      c.appID := existing;
      conns := conns[existing := c];
      var i := Find(oldAppID);
      if i < |connOrder| {
        connOrder := connOrder[i := existing];
      }
      rota := Resume(rota, oldAppID, existing);
    }
  }
}

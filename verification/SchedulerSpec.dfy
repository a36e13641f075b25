/** The round-robin choice among connected thin clients, as a rotation list with a cursor. */
module SchedulerSpec {
  import opened Wrappers

  type AppId = nat

  /** One item of a client's work: a resend the timer has asked for, or a request the client has sent. */
  datatype Work = Resend(surb: nat) | Fresh(request: nat)

  datatype Conn = Conn(resends: seq<nat>, requests: seq<nat>)

  predicate Ready(c: Conn) { c.resends != [] || c.requests != [] }

  /** Resends come before requests. */
  function Head(c: Conn): Work
    requires Ready(c)
  {
    if c.resends != [] then Resend(c.resends[0]) else Fresh(c.requests[0])
  }

  function Rest(c: Conn): Conn
    requires Ready(c)
  {
    if c.resends != [] then c.(resends := c.resends[1..]) else c.(requests := c.requests[1..])
  }

  function Offered(c: Conn, work: Work): Conn {
    match work
    case Resend(x) => c.(resends := c.resends + [x])
    case Fresh(q) => c.(requests := c.requests + [q])
  }

  datatype Rota = Rota(order: seq<AppId>, cursor: nat, conns: map<AppId, Conn>)

  // ---- Operations ----

  function Register(r: Rota, app: AppId, c: Conn): Rota { r.(conns := r.conns[app := c], order := r.order + [app]) }

  function Pos(order: seq<AppId>, app: AppId): (i: nat)
    ensures i <= |order| && (i < |order| ==> order[i] == app)
    ensures forall j :: 0 <= j < i ==> order[j] != app
  {
    if order == [] || order[0] == app then 0 else 1 + Pos(order[1..], app)
  }

  function Unregister(r: Rota, app: AppId): Rota {
    var i := Pos(r.order, app);
    var order := if i < |r.order| then r.order[..i] + r.order[i + 1..] else r.order;
    var cursor := if i < |r.order| && r.cursor > i then r.cursor - 1 else r.cursor;
    Rota(order, if order == [] then 0 else if cursor >= |order| then cursor % |order| else cursor, r.conns - {app})
  }

  /** The part of a session resume that renames a connection to the identity its token stands for. */
  function Resume(r: Rota, former: AppId, existing: AppId): Rota
    requires former in r.conns
  {
    var i := Pos(r.order, former);
    r.(conns := (r.conns - {former})[existing := r.conns[former]],
       order := if i < |r.order| then r.order[i := existing] else r.order)
  }

  function Slot(r: Rota, i: nat): (k: nat)
    requires r.order != []
    ensures k < |r.order|
  {
    (r.cursor + i) % |r.order|
  }

  predicate ReadyAt(r: Rota, i: nat)
    requires r.order != []
  {
    r.order[Slot(r, i)] in r.conns && Ready(r.conns[r.order[Slot(r, i)]])
  }

  /** The first of the slots `i`, `i + 1`, ... whose client has work, or the number of clients if there is none. */
  function Scan(r: Rota, i: nat): (k: nat)
    requires r.order != [] && i <= |r.order|
    ensures i <= k <= |r.order| && (k < |r.order| ==> ReadyAt(r, k))
    ensures forall j :: i <= j < k ==> !ReadyAt(r, j)
    decreases |r.order| - i
  {
    if i == |r.order| || ReadyAt(r, i) then i else Scan(r, i + 1)
  }

  datatype Picked = Picked(app: AppId, work: Work)

  function Pick(r: Rota): (Rota, Option<Picked>) {
    if r.order == [] then (r, None)
    else
      var k := Scan(r, 0);
      if k == |r.order| then (r.(cursor := (r.cursor + 1) % |r.order|), None)
      else
        var app := r.order[Slot(r, k)];
        (r.(cursor := (Slot(r, k) + 1) % |r.order|, conns := r.conns[app := Rest(r.conns[app])]),
         Some(Picked(app, Head(r.conns[app]))))
  }

  // ---- The rotation list agrees with the connections ----

  ghost predicate NoDup(order: seq<AppId>) { forall i, j :: 0 <= i < j < |order| ==> order[i] != order[j] }

  ghost predicate RotaOk(r: Rota) {
    && NoDup(r.order)
    && (forall a :: a in r.conns <==> a in r.order)
    && (if r.order == [] then r.cursor == 0 else r.cursor < |r.order|)
  }

  lemma RegisterOkIff(r: Rota, app: AppId, c: Conn)
    requires RotaOk(r)
    ensures RotaOk(Register(r, app, c)) <==> app !in r.conns
  {
    var r' := Register(r, app, c);
    if app in r.conns {
      var i :| 0 <= i < |r.order| && r.order[i] == app;
      assert r'.order[i] == r'.order[|r.order|];
    }
  }

  lemma RemovedAt(order: seq<AppId>, i: nat)
    requires i < |order|
    ensures var rest := order[..i] + order[i + 1..];
            |rest| == |order| - 1 && forall j :: 0 <= j < |rest| ==> rest[j] == order[if j < i then j else j + 1]
  {}

  lemma RemovedSet(order: seq<AppId>, i: nat)
    requires NoDup(order) && i < |order|
    ensures var rest := order[..i] + order[i + 1..];
            NoDup(rest) && forall a :: a in rest <==> a in order && a != order[i]
  {
    var rest := order[..i] + order[i + 1..];
    RemovedAt(order, i);
    forall a ensures a in rest <==> a in order && a != order[i] {
      if a in order && a != order[i] {
        var j :| 0 <= j < |order| && order[j] == a;
        assert rest[if j < i then j else j - 1] == a;
      }
    }
  }

  lemma UnregisterOk(r: Rota, app: AppId)
    requires RotaOk(r)
    ensures RotaOk(Unregister(r, app))
  {
    var i := Pos(r.order, app);
    if i < |r.order| { RemovedSet(r.order, i); }
  }

  /** A resume keeps the rotation in order exactly when the resumed identity is not live on another connection. */
  lemma ResumeOkIff(r: Rota, former: AppId, existing: AppId)
    requires RotaOk(r) && former in r.conns
    ensures RotaOk(Resume(r, former, existing)) <==> existing == former || existing !in r.conns
  {
    var i, r' := Pos(r.order, former), Resume(r, former, existing);
    assert i < |r.order|;
    if existing != former && existing in r.conns {
      var j :| 0 <= j < |r.order| && r.order[j] == existing;
      assert r'.order[i] == r'.order[j];
    } else {
      forall a ensures a in r'.order <==> a == existing || (a in r.order && a != former) {
        if a in r.order && a != former {
          var j :| 0 <= j < |r.order| && r.order[j] == a;
          assert r'.order[j] == a;
        }
        assert r'.order[i] == existing;
      }
    }
  }

  lemma PickOk(r: Rota)
    requires RotaOk(r)
    ensures RotaOk(Pick(r).0)
  {}
}

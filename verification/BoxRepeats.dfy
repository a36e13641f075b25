/** What a second write of a box is told: the courier's repetition of a write is accepted, a different write is not. */
module BoxRepeats {
  import opened Bytes
  import opened BoxStore
  import opened Trunnel

  lemma ReadAfterPut(db: Db, current: Epoch, c: Command, b: BoxID)
    requires Read(db, current, c.boxID) == NotFound
    ensures Read(Put(db, current, c.boxID, c.payload, c.signature), current, b) ==
            if b != c.boxID then Read(db, current, b)
            else if |c.payload| >= 0x1_0000_0000 then NotFound
            else if 100 + |c.payload| <= 16777216 then Found(c.payload, c.signature) else Undecodable
  {
    var db' := Put(db, current, c.boxID, c.payload, c.signature);
    forall e: Epoch ensures At(db', e, b) == if e == current && b == c.boxID then Fate(c.payload, c.signature) else At(db, e, b) {
      BoxKeyInjective(e, b, current, c.boxID);
      StoredFate(c.boxID, c.payload, c.signature);
    }
    LookupKept(db, current, b);
    LookupKept(db', current, b);
  }

  /**
   A write of a box that is there changes nothing and is accepted exactly if it is the same; otherwise it is accepted and
   can be read back unless it is too long, and nobody else's box changes.
   */
  lemma WriteAnswered(db: Db, current: Epoch, c: Command)
    ensures var (db', result) := Write(db, current, c);
            match Read(db, current, c.boxID)
            case Found(p, s) => db' == db && result == if c.payload == p && c.signature == s then Accepted else AlreadyExists
            case NotFound =>
              && result == Accepted
              && Read(db', current, c.boxID) == (if |c.payload| >= 0x1_0000_0000 then NotFound
                                                 else if 100 + |c.payload| <= 16777216 then Found(c.payload, c.signature)
                                                 else Undecodable)
              && forall b :: b != c.boxID ==> Read(db', current, b) == Read(db, current, b)
            case _ => Read(db, current, c.boxID) == Undecodable && db' == db && result == AlreadyExists
  {
    if Read(db, current, c.boxID) == NotFound {
      forall b ensures Read(Put(db, current, c.boxID, c.payload, c.signature), current, b) ==
            if b != c.boxID then Read(db, current, b)
            else if |c.payload| >= 0x1_0000_0000 then NotFound
            else if 100 + |c.payload| <= 16777216 then Found(c.payload, c.signature) else Undecodable {
        ReadAfterPut(db, current, c, b);
      }
    }
  }

  // ---- Over runs ----

  /** Traffic of this epoch and the next without a tombstone for the box. */
  ghost predicate Spares(evs: seq<Event>, e: Epoch, last: Epoch, b: BoxID) {
    ClockFrom(e, evs) && LastEpoch(e, evs) <= last && forall i :: 0 <= i < |evs| ==> !IsTombstone(evs[i], b)
  }

  lemma {:induction false} RegisterKeeps(r: Register, now: Epoch, evs: seq<Event>, last: Epoch, b: BoxID)
    requires b in r && r[b].box != Absent && Spares(evs, now, last, b) && last <= r[b].epoch + 1
    ensures b in RegisterRun(r, evs).0 && RegisterRun(r, evs).0[b] == r[b]
    decreases |evs|
  {
    if evs != [] {
      ClockBelow(now, evs);
      assert forall i :: 0 <= i < |evs[1..]| ==> evs[1..][i] == evs[i + 1];
      RegisterKeeps(RegisterStep(r, evs[0]).0, evs[0].epoch, evs[1..], last, b);
    }
  }

  lemma {:induction false} ClockBelow(now: Epoch, evs: seq<Event>)
    requires ClockFrom(now, evs)
    ensures now <= LastEpoch(now, evs) && (evs != [] ==> evs[0].epoch <= LastEpoch(now, evs))
    decreases |evs|
  {
    if evs != [] { ClockBelow(evs[0].epoch, evs[1..]); }
  }

  lemma AcceptedIsHeld(db: Db, r: Register, now: Epoch, e: Epoch, c: Command)
    requires Refines(db, r, now) && now <= e && Write(db, e, c).1 == Accepted && 100 + |c.payload| <= MAX_PARSE_SIZE
    ensures var r' := RegisterWrite(r, e, c).0;
            && Refines(Write(db, e, c).0, r', e) && c.boxID in r' && r'[c.boxID].box == Box(c.payload, c.signature)
            && e <= r'[c.boxID].epoch + 1 && r'[c.boxID].epoch <= e
            && (At(Write(db, e, c).0, e, c.boxID) != Absent <==> r'[c.boxID].epoch == e)
  {
    WriteRefines(db, r, now, e, c);
    var r' := RegisterWrite(r, e, c).0;
    assert Visible(r', e, c.boxID);
  }

  /**
   After an accepted write within the parse bound, a write of the same box in the same epoch changes nothing and is
   accepted exactly if it is the same, whatever else went on, tombstones for the box excepted. If the first write was put
   under its own epoch, this holds in the next epoch too.
   */
  lemma RepeatedWrite(db: Db, r: Register, now: Epoch, e: Epoch, c: Command, evs: seq<Event>, f: Epoch, d: Command)
    requires Refines(db, r, now) && now <= e && Write(db, e, c).1 == Accepted && 100 + |c.payload| <= MAX_PARSE_SIZE
    requires f == e || (f == e + 1 && At(Write(db, e, c).0, e, c.boxID) != Absent)
    requires Spares(evs, e, f, c.boxID) && d.boxID == c.boxID
    ensures var db' := Run(Write(db, e, c).0, evs).0;
            Write(db', f, d) == (db', if d.payload == c.payload && d.signature == c.signature then Accepted else AlreadyExists)
  {
    var db1, r1 := Write(db, e, c).0, RegisterWrite(r, e, c).0;
    AcceptedIsHeld(db, r, now, e, c);
    RegisterKeeps(r1, e, evs, f, c.boxID);
    RunRefines(db1, r1, e, evs);
    LookupRefines(Run(db1, evs).0, RegisterRun(r1, evs).0, LastEpoch(e, evs), f, c.boxID);
    WriteAnswered(Run(db1, evs).0, f, d);
  }

  /**
   The repetition of an accepted write changes nothing in the next epoch either, whatever went on, if and only if the
   first was put under its own epoch.
   */
  lemma RepeatIff(db: Db, r: Register, now: Epoch, e: Epoch, c: Command)
    requires Refines(db, r, now) && now <= e && e + 1 < TWO64
    requires Write(db, e, c).1 == Accepted && 100 + |c.payload| <= MAX_PARSE_SIZE
    ensures (forall evs :: Spares(evs, e, e + 1, c.boxID) ==>
               Write(Run(Write(db, e, c).0, evs).0, e + 1, c) == (Run(Write(db, e, c).0, evs).0, Accepted))
            <==> At(Write(db, e, c).0, e, c.boxID) != Absent
  {
    var db1, r1 := Write(db, e, c).0, RegisterWrite(r, e, c).0;
    if At(db1, e, c.boxID) != Absent {
      forall evs | Spares(evs, e, e + 1, c.boxID) ensures Write(Run(db1, evs).0, e + 1, c) == (Run(db1, evs).0, Accepted) {
        RepeatedWrite(db, r, now, e, c, evs, e + 1, c);
      }
    } else {
      AcceptedIsHeld(db, r, now, e, c);
      LookupRefines(db1, r1, e, e + 1, c.boxID);
      assert Spares([], e, e + 1, c.boxID) && Run(db1, []).0 == db1;
      StoredFate(c.boxID, c.payload, c.signature);
      PutChanges(db1, e + 1, c);
    }
  }

  lemma PutChanges(db: Db, f: Epoch, c: Command)
    requires At(db, f, c.boxID) == Absent && |c.payload| < TWO32
    ensures Put(db, f, c.boxID, c.payload, c.signature) != db
  {
    StoredFate(c.boxID, c.payload, c.signature);
    assert At(Put(db, f, c.boxID, c.payload, c.signature), f, c.boxID) != Absent;
  }

  lemma RegisterRunCons(r: Register, ev: Event, rest: seq<Event>)
    ensures RegisterRun(r, [ev] + rest).1 == [RegisterStep(r, ev).1] + RegisterRun(RegisterStep(r, ev).0, rest).1
  {
    assert ([ev] + rest)[1..] == rest;
  }

  function Refusing(e: Epoch, c: Command, d: Command): seq<Event>
    requires e + 2 < TWO64
  {
    [Event(e, DoWrite(c, false)), Event(e + 1, DoWrite(c, false)), Event(e + 2, DoWrite(d, false)), Event(e + 2, DoWrite(c, false))]
  }

  lemma RefusingClock(e: Epoch, c: Command, d: Command)
    requires e + 2 < TWO64
    ensures ClockFrom(e, Refusing(e, c, d))
  {
    var evs := Refusing(e, c, d);
    assert evs[1..][1..] == evs[2..] && evs[2..][1..] == evs[3..] && evs[3..][1..] == [];
    assert ClockFrom(e + 2, evs[3..]) && ClockFrom(e + 1, evs[2..]) && ClockFrom(e, evs[1..]);
  }

  lemma RegisterRefuses(e: Epoch, c: Command, d: Command)
    requires e + 2 < TWO64 && 100 + |c.payload| <= MAX_PARSE_SIZE && 100 + |d.payload| <= MAX_PARSE_SIZE
    requires d.boxID == c.boxID && d != c
    ensures RegisterRun(map[], Refusing(e, c, d)).1 == [Wrote(Accepted), Wrote(Accepted), Wrote(Accepted), Wrote(AlreadyExists)]
  {
    var evs := Refusing(e, c, d);
    assert evs == [evs[0]] + evs[1..] && evs[1..] == [evs[1]] + evs[2..] && evs[2..] == [evs[2]] + evs[3..];
    assert evs[3..] == [evs[3]] + [];
    var r1 := RegisterStep(map[], evs[0]).0;
    var r3 := RegisterStep(r1, evs[2]).0;
    assert r1[c.boxID] == LastPut(e, Box(c.payload, c.signature)) && RegisterStep(r1, evs[1]) == (r1, Wrote(Accepted));
    assert r3[c.boxID] == LastPut(e + 2, Box(d.payload, d.signature));
    RegisterRunCons(map[], evs[0], evs[1..]);
    RegisterRunCons(r1, evs[1], evs[2..]);
    RegisterRunCons(r1, evs[2], evs[3..]);
    RegisterRunCons(r3, evs[3], []);
  }

  /**
   The input that shows it: a write, its repetition in the next epoch, which is accepted but not put, and in the epoch
   after that another write, which is accepted too; the second repetition is then refused.
   */
  lemma SecondRepetitionRefused(e: Epoch, c: Command, d: Command)
    requires e + 2 < TWO64 && 100 + |c.payload| <= MAX_PARSE_SIZE && 100 + |d.payload| <= MAX_PARSE_SIZE
    requires d.boxID == c.boxID && d != c
    ensures Run(map[], [Event(e, DoWrite(c, false)), Event(e + 1, DoWrite(c, false)),
                        Event(e + 2, DoWrite(d, false)), Event(e + 2, DoWrite(c, false))]).1
            == [Wrote(Accepted), Wrote(Accepted), Wrote(Accepted), Wrote(AlreadyExists)]
  {
    EmptyRefines(e);
    RefusingClock(e, c, d);
    RunRefines(map[], map[], e, Refusing(e, c, d));
    RegisterRefuses(e, c, d);
  }
}

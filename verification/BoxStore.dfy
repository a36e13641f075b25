/**
 The replica's box store: RocksDB as an ordered map from byte-string keys, bucketed by replica epoch, and the
 register it is meant to be: the last put of a box, visible in its own epoch and the next.
 */
module BoxStore {
  import opened Bytes
  import opened Trunnel
  import opened Wrappers

  type BoxID = b: Bytes | |b| == 32 witness seq(32, _ => 0)
  type Signature = b: Bytes | |b| == 64 witness seq(64, _ => 0)
  type Epoch = e: nat | e < TWO64
  type Db = map<Bytes, Bytes>

  datatype Command = Command(boxID: BoxID, signature: Signature, payload: Bytes)

  datatype WriteResult = Accepted | AlreadyExists | StorageFull | Closed | WriteFailed
  datatype ReadResult = Found(payload: Bytes, signature: Signature) | NotFound | Undecodable | DbClosed | ReadFailed

  // ---- Stored values ----

  function BoxMessage(boxID: BoxID, payload: Bytes, signature: Signature): Message {
    Cons(Raw(boxID), Cons(Var(|payload| % TWO32, payload), Cons(Raw(signature), Nil)))
  }

  lemma BoxTyped(boxID: BoxID, payload: Bytes, signature: Signature)
    ensures var m := BoxMessage(boxID, payload, signature);
            && Typed(BOX, m) && ArmsPresent(m)
            && (Valid(BOX, m) <==> |payload| < TWO32)
            && (Valid(BOX, m) ==> |Encode(BOX, m)| == 100 + |payload|)
  {
    Pow256Values();
    var l1, m1 := Then(Fixed(64), End), Cons(Raw(signature), Nil);
    var l2, m2 := Then(Blob(4), l1), Cons(Var(|payload| % TWO32, payload), m1);
    assert Typed(l1, m1) && Valid(l1, m1) && ArmsPresent(m1);
    assert |Encode(l1, m1)| == |EncodeItem(Fixed(64), m1.head)| + |Encode(End, Nil)| == 64;
    assert Typed(l2, m2) && ArmsPresent(m2) && (Valid(l2, m2) <==> ItemValid(Blob(4), m2.head));
  }

  /** `box.Bytes()`: a box that does not marshal is stored as the empty string, which reads as absent. */
  function BoxBytes(boxID: BoxID, payload: Bytes, signature: Signature): Bytes {
    BoxTyped(boxID, payload, signature);
    match Marshal(BOX, BoxMessage(boxID, payload, signature))
    case Some(b) => b
    case None => []
  }

  datatype Stored = Absent | Garbled | Box(payload: Bytes, signature: Signature)

  function StoredBox(value: Bytes): Stored {
    if value == [] then Absent
    else
      match ParseTop(BOX, value)
      case Some(Cons(_, Cons(Var(_, payload), Cons(Raw(signature), _)))) =>
        if |signature| == 64 then Box(payload, signature) else Garbled
      case _ => Garbled
  }

  /** The three fates of a stored payload: read back, kept but unreadable, and not kept at all. */
  function Fate(payload: Bytes, signature: Signature): Stored {
    if |payload| >= TWO32 then Absent
    else if 100 + |payload| <= MAX_PARSE_SIZE then Box(payload, signature)
    else Garbled
  }

  lemma StoredFate(boxID: BoxID, payload: Bytes, signature: Signature)
    ensures StoredBox(BoxBytes(boxID, payload, signature)) == Fate(payload, signature)
    ensures BoxBytes(boxID, payload, signature) == [] <==> |payload| >= TWO32
  {
    BoxTyped(boxID, payload, signature);
    if |payload| < TWO32 {
      ParseTopRoundTrip(BOX, BoxMessage(boxID, payload, signature));
    }
  }

  // ---- Keys ----

  function EpochPrefix(epoch: Epoch): Bytes { BE(epoch, 8) }

  function BoxKey(epoch: Epoch, boxID: BoxID): Bytes { BE(epoch, 8) + boxID }

  function KeptEpochs(current: Epoch): seq<Epoch> {
    if current == 0 then [0] else [current, current - 1]
  }

  lemma BoxKeyInjective(e1: Epoch, b1: BoxID, e2: Epoch, b2: BoxID)
    ensures BoxKey(e1, b1) == BoxKey(e2, b2) <==> e1 == e2 && b1 == b2
  {
    Pow256Values();
    BERoundTrip(e1, 8);
    BERoundTrip(e2, 8);
    assert BoxKey(e1, b1)[..8] == BE(e1, 8) && BoxKey(e2, b2)[..8] == BE(e2, 8);
    assert BoxKey(e1, b1)[8..] == b1 && BoxKey(e2, b2)[8..] == b2;
  }

  predicate InRange(key: Bytes, start: Bytes, end: Bytes) {
    !LexLess(key, start) && LexLess(key, end)
  }

  /** The range the collector deletes holds exactly the keys of the epochs before the cutoff. */
  lemma RangeIsOldEpochs(epoch: Epoch, boxID: BoxID, cutoff: Epoch)
    ensures InRange(BoxKey(epoch, boxID), EpochPrefix(0), EpochPrefix(cutoff)) <==> epoch < cutoff
  {
    Pow256Values();
    LexLessBE(epoch, 0, 8);
    LexLessBE(epoch, cutoff, 8);
    LexLessExtended(BE(epoch, 8), BE(0, 8), boxID);
    LexLessExtended(BE(epoch, 8), BE(cutoff, 8), boxID);
  }

  // ---- The operations on the database ----

  /** An absent key and an empty value look the same. */
  function Get(db: Db, key: Bytes): Bytes { if key in db then db[key] else [] }

  function At(db: Db, epoch: Epoch, boxID: BoxID): Stored { StoredBox(Get(db, BoxKey(epoch, boxID))) }

  function Lookup(db: Db, epochs: seq<Epoch>, boxID: BoxID): Stored {
    if epochs == [] then Absent
    else if At(db, epochs[0], boxID) != Absent then At(db, epochs[0], boxID)
    else Lookup(db, epochs[1..], boxID)
  }

  function ReadOf(s: Stored): ReadResult {
    match s
    case Absent => NotFound
    case Garbled => Undecodable
    case Box(payload, signature) => Found(payload, signature)
  }

  function Read(db: Db, current: Epoch, boxID: BoxID): ReadResult {
    ReadOf(Lookup(db, KeptEpochs(current), boxID))
  }

  /** What an existing entry means for a write: an identical box makes it idempotent. */
  function Verdict(s: Stored, c: Command): WriteResult {
    if s == Box(c.payload, c.signature) then Accepted else AlreadyExists
  }

  function Put(db: Db, epoch: Epoch, boxID: BoxID, payload: Bytes, signature: Signature): Db {
    db[BoxKey(epoch, boxID) := BoxBytes(boxID, payload, signature)]
  }

  function Write(db: Db, current: Epoch, c: Command): (Db, WriteResult) {
    var existing := Lookup(db, KeptEpochs(current), c.boxID);
    if existing != Absent then (db, Verdict(existing, c))
    else (Put(db, current, c.boxID, c.payload, c.signature), Accepted)
  }

  function Tombstone(db: Db, current: Epoch, boxID: BoxID, signature: Signature): Db {
    Put(db, current, boxID, [], signature)
  }

  function Wipe(db: Db, current: Epoch): Db {
    if current < 2 then db
    else map k | k in db && !InRange(k, EpochPrefix(0), EpochPrefix(current - 1)) :: db[k]
  }

  // ---- The register ----

  datatype LastPut = LastPut(epoch: Epoch, box: Stored)

  type Register = map<BoxID, LastPut>

  predicate Visible(r: Register, current: Epoch, boxID: BoxID) {
    boxID in r && r[boxID].epoch + 1 >= current
  }

  function RegisterLookup(r: Register, current: Epoch, boxID: BoxID): Stored {
    if Visible(r, current, boxID) then r[boxID].box else Absent
  }

  function RegisterPut(r: Register, current: Epoch, boxID: BoxID, box: Stored): Register {
    if box == Absent then r else r[boxID := LastPut(current, box)]
  }

  function RegisterWrite(r: Register, current: Epoch, c: Command): (Register, WriteResult) {
    var existing := RegisterLookup(r, current, c.boxID);
    if existing == Box(c.payload, c.signature) then (r, Accepted)
    else if existing != Absent then (r, AlreadyExists)
    else (RegisterPut(r, current, c.boxID, Fate(c.payload, c.signature)), Accepted)
  }

  // ---- Refinement ----

  /** No key is newer than the box's last put, and the last put is there for as long as it is visible. */
  ghost predicate Refines(db: Db, r: Register, now: Epoch) {
    && (forall e: Epoch, b: BoxID :: At(db, e, b) != Absent ==> b in r && e <= r[b].epoch)
    && (forall b: BoxID :: b in r ==> r[b].epoch <= now && r[b].box != Absent)
    && (forall b: BoxID :: Visible(r, now, b) ==> At(db, r[b].epoch, b) == r[b].box)
  }

  lemma LookupKept(db: Db, current: Epoch, boxID: BoxID)
    ensures Lookup(db, KeptEpochs(current), boxID)
         == if At(db, current, boxID) != Absent then At(db, current, boxID)
            else if current > 0 then At(db, current - 1, boxID) else Absent
  {
    var kept := KeptEpochs(current);
    if current > 0 {
      assert kept[1..] == [current - 1] && [current - 1][1..] == [];
      assert Lookup(db, [current - 1], boxID) == At(db, current - 1, boxID);
    } else {
      assert kept[1..] == [];
    }
  }

  lemma LookupRefines(db: Db, r: Register, now: Epoch, current: Epoch, boxID: BoxID)
    requires Refines(db, r, now) && now <= current
    ensures Lookup(db, KeptEpochs(current), boxID) == RegisterLookup(r, current, boxID)
  {
    LookupKept(db, current, boxID);
    if Visible(r, current, boxID) {
      assert Visible(r, now, boxID);
    }
  }

  lemma PutRefines(db: Db, r: Register, now: Epoch, current: Epoch, boxID: BoxID, payload: Bytes, signature: Signature)
    requires Refines(db, r, now) && now <= current
    requires |payload| < TWO32 || !Visible(r, current, boxID)
    ensures Refines(Put(db, current, boxID, payload, signature),
                    RegisterPut(r, current, boxID, Fate(payload, signature)), current)
  {
    StoredFate(boxID, payload, signature);
    var db', r' := Put(db, current, boxID, payload, signature), RegisterPut(r, current, boxID, Fate(payload, signature));
    forall e: Epoch, b: BoxID
      ensures At(db', e, b) == if e == current && b == boxID then Fate(payload, signature) else At(db, e, b)
    {
      BoxKeyInjective(e, b, current, boxID);
    }
    forall b: BoxID | Visible(r', current, b) ensures At(db', r'[b].epoch, b) == r'[b].box {
      if b != boxID || Fate(payload, signature) == Absent {
        assert Visible(r, now, b);
      }
    }
  }

  lemma WriteRefines(db: Db, r: Register, now: Epoch, current: Epoch, c: Command)
    requires Refines(db, r, now) && now <= current
    ensures var (db', result) := Write(db, current, c);
            var (r', expected) := RegisterWrite(r, current, c);
            result == expected && Refines(db', r', current)
  {
    LookupRefines(db, r, now, current, c.boxID);
    TimeRefines(db, r, now, current);
    if RegisterLookup(r, current, c.boxID) == Absent {
      assert !Visible(r, current, c.boxID);
      PutRefines(db, r, now, current, c.boxID, c.payload, c.signature);
    }
  }

  lemma TimeRefines(db: Db, r: Register, now: Epoch, current: Epoch)
    requires Refines(db, r, now) && now <= current
    ensures Refines(db, r, current)
  {
    forall b: BoxID | Visible(r, current, b) ensures At(db, r[b].epoch, b) == r[b].box {
      assert Visible(r, now, b);
    }
  }

  lemma WipeRefines(db: Db, r: Register, now: Epoch, current: Epoch)
    requires Refines(db, r, now) && now <= current
    ensures Refines(Wipe(db, current), r, current)
  {
    TimeRefines(db, r, now, current);
    if current >= 2 {
      forall e: Epoch, b: BoxID
        ensures At(Wipe(db, current), e, b) == if e < current - 1 then Absent else At(db, e, b)
      {
        RangeIsOldEpochs(e, b, current - 1);
      }
    }
  }

  // ---- Runs ----

  datatype Op =
    | DoWrite(command: Command, full: bool)     // full: the storage watcher's flag at that moment
    | DoTombstone(boxID: BoxID, signature: Signature)
    | DoRead(boxID: BoxID)
    | DoWipe

  datatype Event = Event(epoch: Epoch, op: Op)

  datatype Output = Wrote(w: WriteResult) | DidRead(r: ReadResult) | Done

  function Step(db: Db, ev: Event): (Db, Output) {
    match ev.op
    case DoWrite(c, full) =>
      if full then (db, Wrote(StorageFull))
      else var (db', w) := Write(db, ev.epoch, c); (db', Wrote(w))
    case DoTombstone(b, s) => (Tombstone(db, ev.epoch, b, s), Done)
    case DoRead(b) => (db, DidRead(Read(db, ev.epoch, b)))
    case DoWipe => (Wipe(db, ev.epoch), Done)
  }

  function RegisterStep(r: Register, ev: Event): (Register, Output) {
    match ev.op
    case DoWrite(c, full) =>
      if full then (r, Wrote(StorageFull))
      else var (r', w) := RegisterWrite(r, ev.epoch, c); (r', Wrote(w))
    case DoTombstone(b, s) => (RegisterPut(r, ev.epoch, b, Fate([], s)), Done)
    case DoRead(b) => (r, DidRead(ReadOf(RegisterLookup(r, ev.epoch, b))))
    case DoWipe => (r, Done)
  }

  function Run(db: Db, evs: seq<Event>): (Db, seq<Output>)
    decreases |evs|
  {
    if evs == [] then (db, [])
    else
      var (db1, out) := Step(db, evs[0]);
      var (db2, outs) := Run(db1, evs[1..]);
      (db2, [out] + outs)
  }

  function RegisterRun(r: Register, evs: seq<Event>): (Register, seq<Output>)
    decreases |evs|
  {
    if evs == [] then (r, [])
    else
      var (r1, out) := RegisterStep(r, evs[0]);
      var (r2, outs) := RegisterRun(r1, evs[1..]);
      (r2, [out] + outs)
  }

  predicate ClockFrom(now: Epoch, evs: seq<Event>)
    decreases |evs|
  {
    evs == [] || (now <= evs[0].epoch && ClockFrom(evs[0].epoch, evs[1..]))
  }

  function LastEpoch(now: Epoch, evs: seq<Event>): Epoch
    decreases |evs|
  {
    if evs == [] then now else LastEpoch(evs[0].epoch, evs[1..])
  }

  lemma StepRefines(db: Db, r: Register, now: Epoch, ev: Event)
    requires Refines(db, r, now) && now <= ev.epoch
    ensures Step(db, ev).1 == RegisterStep(r, ev).1
    ensures Refines(Step(db, ev).0, RegisterStep(r, ev).0, ev.epoch)
  {
    TimeRefines(db, r, now, ev.epoch);
    match ev.op
    case DoWrite(c, full) => WriteRefines(db, r, now, ev.epoch, c);
    case DoTombstone(b, s) => PutRefines(db, r, now, ev.epoch, b, [], s);
    case DoRead(b) => LookupRefines(db, r, now, ev.epoch, b);
    case DoWipe => WipeRefines(db, r, now, ev.epoch);
  }

  /** Over every run with a nondecreasing epoch the store answers exactly as the register does. */
  lemma {:induction false} RunRefines(db: Db, r: Register, now: Epoch, evs: seq<Event>)
    requires Refines(db, r, now) && ClockFrom(now, evs)
    ensures Run(db, evs).1 == RegisterRun(r, evs).1
    ensures Refines(Run(db, evs).0, RegisterRun(r, evs).0, LastEpoch(now, evs))
    decreases |evs|
  {
    if evs != [] {
      StepRefines(db, r, now, evs[0]);
      RunRefines(Step(db, evs[0]).0, RegisterStep(r, evs[0]).0, evs[0].epoch, evs[1..]);
    }
  }

  lemma EmptyRefines(now: Epoch)
    ensures Refines(map[], map[], now)
  {}

  function WithoutWipes(evs: seq<Event>): seq<Event> {
    if evs == [] then []
    else (if evs[0].op.DoWipe? then [] else [evs[0]]) + WithoutWipes(evs[1..])
  }

  function Answers(evs: seq<Event>, outs: seq<Output>): seq<Output>
    requires |outs| == |evs|
  {
    if evs == [] then []
    else (if evs[0].op.DoWipe? then [] else [outs[0]]) + Answers(evs[1..], outs[1..])
  }

  lemma {:induction false} RunLength(db: Db, evs: seq<Event>)
    ensures |Run(db, evs).1| == |evs|
    decreases |evs|
  {
    if evs != [] {
      RunLength(Step(db, evs[0]).0, evs[1..]);
    }
  }

  lemma {:induction false} RegisterIgnoresWipes(r: Register, evs: seq<Event>)
    ensures |RegisterRun(r, evs).1| == |evs|
    ensures RegisterRun(r, WithoutWipes(evs)).1 == Answers(evs, RegisterRun(r, evs).1)
    decreases |evs|
  {
    if evs != [] {
      var (r1, out) := RegisterStep(r, evs[0]);
      RegisterIgnoresWipes(r1, evs[1..]);
      assert RegisterRun(r, evs).1[1..] == RegisterRun(r1, evs[1..]).1;
      if !evs[0].op.DoWipe? {
        assert WithoutWipes(evs)[1..] == WithoutWipes(evs[1..]);
      } else {
        assert WithoutWipes(evs) == WithoutWipes(evs[1..]);
      }
    }
  }

  lemma {:induction false} WithoutWipesClock(now: Epoch, earlier: Epoch, evs: seq<Event>)
    requires ClockFrom(now, evs) && earlier <= now
    ensures ClockFrom(earlier, WithoutWipes(evs))
    decreases |evs|
  {
    if evs != [] {
      if evs[0].op.DoWipe? {
        WithoutWipesClock(evs[0].epoch, earlier, evs[1..]);
        assert WithoutWipes(evs) == WithoutWipes(evs[1..]);
      } else {
        WithoutWipesClock(evs[0].epoch, evs[0].epoch, evs[1..]);
        assert WithoutWipes(evs)[1..] == WithoutWipes(evs[1..]);
      }
    }
  }

  /** Collecting garbage at any moments, or never, gives every read and write the same answer. */
  lemma WipesAreInvisible(now: Epoch, evs: seq<Event>)
    requires ClockFrom(now, evs)
    ensures |Run(map[], evs).1| == |evs|
    ensures Run(map[], WithoutWipes(evs)).1 == Answers(evs, Run(map[], evs).1)
  {
    EmptyRefines(now);
    RunRefines(map[], map[], now, evs);
    WithoutWipesClock(now, now, evs);
    RunRefines(map[], map[], now, WithoutWipes(evs));
    RegisterIgnoresWipes(map[], evs);
  }

  // ---- Convergence of one box ----

  /** Within epochs `e` and `e+1`, the only traffic on the box is one fixed write and its tombstones. */
  predicate Delivers(evs: seq<Event>, e: Epoch, c: Command) {
    forall i :: 0 <= i < |evs| ==>
      && e <= evs[i].epoch <= e + 1
      && (evs[i].op.DoWrite? && evs[i].op.command.boxID == c.boxID ==> evs[i].op == DoWrite(c, false))
  }

  predicate IsTombstone(ev: Event, b: BoxID) { ev.op.DoTombstone? && ev.op.boxID == b }
  predicate IsWrite(ev: Event, c: Command) { ev.op == DoWrite(c, false) }

  ghost predicate SomeTombstone(evs: seq<Event>, b: BoxID) { exists i :: 0 <= i < |evs| && IsTombstone(evs[i], b) }
  ghost predicate SomeWrite(evs: seq<Event>, c: Command) { exists i :: 0 <= i < |evs| && IsWrite(evs[i], c) }

  ghost predicate LastTombstone(evs: seq<Event>, b: BoxID, s: Signature) {
    exists i :: 0 <= i < |evs| && IsTombstone(evs[i], b) && evs[i].op.signature == s
             && forall j :: i < j < |evs| ==> !IsTombstone(evs[j], b)
  }

  /** What the box holds after a window of deliveries, from what it held before. */
  ghost predicate Settled(before: Stored, after: Stored, evs: seq<Event>, c: Command) {
    if SomeTombstone(evs, c.boxID) then after.Box? && after.payload == [] && LastTombstone(evs, c.boxID, after.signature)
    else if before == Absent && SomeWrite(evs, c) then after == Box(c.payload, c.signature)
    else after == before
  }

  lemma SettledCons(before: Stored, mid: Stored, after: Stored, evs: seq<Event>, c: Command)
    requires evs != [] && Settled(mid, after, evs[1..], c)
    requires if IsTombstone(evs[0], c.boxID) then mid == Box([], evs[0].op.signature)
             else if IsWrite(evs[0], c) && before == Absent then mid == Box(c.payload, c.signature)
             else mid == before
    ensures Settled(before, after, evs, c)
  {
    var b, later := c.boxID, evs[1..];
    assert forall j :: 1 <= j < |evs| ==> evs[j] == later[j - 1];
    assert forall j :: 0 <= j < |later| ==> later[j] == evs[j + 1];
    assert SomeTombstone(evs, b) <==> IsTombstone(evs[0], b) || SomeTombstone(later, b);
    assert SomeWrite(evs, c) <==> IsWrite(evs[0], c) || SomeWrite(later, c);
    if SomeTombstone(later, b) {
      var i :| 0 <= i < |later| && IsTombstone(later[i], b) && later[i].op.signature == after.signature
            && forall j :: i < j < |later| ==> !IsTombstone(later[j], b);
      assert IsTombstone(evs[i + 1], b);
      assert LastTombstone(evs, b, after.signature);
    } else if IsTombstone(evs[0], b) {
      assert after == mid;
      assert LastTombstone(evs, b, after.signature);
    }
  }

  lemma {:induction false} RegisterSettles(r: Register, now: Epoch, e: Epoch, c: Command, evs: seq<Event>, last: Epoch)
    requires e <= now && ClockFrom(now, evs) && Delivers(evs, e, c) && e + 1 < TWO64
    requires LastEpoch(now, evs) <= last <= e + 1
    requires 100 + |c.payload| <= MAX_PARSE_SIZE
    requires forall b: BoxID :: b in r ==> r[b].box != Absent
    requires c.boxID in r ==> r[c.boxID].epoch >= e || r[c.boxID].epoch + 1 < e
    ensures Settled(RegisterLookup(r, e, c.boxID), RegisterLookup(RegisterRun(r, evs).0, last, c.boxID), evs, c)
    decreases |evs|
  {
    if evs != [] {
      var r1 := RegisterStep(r, evs[0]).0;
      assert Delivers(evs[1..], e, c);
      RegisterSettles(r1, evs[0].epoch, e, c, evs[1..], last);
      SettledCons(RegisterLookup(r, e, c.boxID), RegisterLookup(r1, e, c.boxID),
                  RegisterLookup(RegisterRun(r, evs).0, last, c.boxID), evs, c);
    }
  }

  /**
   Convergence. A box that was not visible receives, within two consecutive epochs, one write and its
   tombstones in any order, any number of times, among any traffic on other boxes and any collections.
   Then a reader finds the tombstone if any was delivered (the last one), else the write if it was
   delivered, else nothing.
   */
  lemma Converges(db: Db, r: Register, now: Epoch, e: Epoch, c: Command, evs: seq<Event>, last: Epoch)
    requires Refines(db, r, now) && now <= e && e + 1 < TWO64 && ClockFrom(e, evs) && Delivers(evs, e, c)
    requires LastEpoch(e, evs) <= last <= e + 1
    requires 100 + |c.payload| <= MAX_PARSE_SIZE
    requires Read(db, e, c.boxID) == NotFound
    ensures var result := Read(Run(db, evs).0, last, c.boxID);
            if SomeTombstone(evs, c.boxID)
            then result.Found? && result.payload == [] && LastTombstone(evs, c.boxID, result.signature)
            else if SomeWrite(evs, c) then result == Found(c.payload, c.signature)
            else result == NotFound
  {
    LookupRefines(db, r, now, e, c.boxID);
    TimeRefines(db, r, now, e);
    RunRefines(db, r, e, evs);
    RegisterSettles(r, e, e, c, evs, last);
    LookupRefines(Run(db, evs).0, RegisterRun(r, evs).0, LastEpoch(e, evs), last, c.boxID);
  }

  /**
   Two replicas, each with a past of its own but without the box, are fed the same write and the same one tombstone,
   each in its own order and among its own traffic: they agree.
   */
  lemma ReplicasAgree(db1: Db, r1: Register, now1: Epoch, db2: Db, r2: Register, now2: Epoch,
                      e: Epoch, c: Command, s: Signature, evs1: seq<Event>, evs2: seq<Event>, last: Epoch)
    requires Refines(db1, r1, now1) && now1 <= e && Read(db1, e, c.boxID) == NotFound
    requires Refines(db2, r2, now2) && now2 <= e && Read(db2, e, c.boxID) == NotFound
    requires e + 1 < TWO64 && 100 + |c.payload| <= MAX_PARSE_SIZE
    requires ClockFrom(e, evs1) && ClockFrom(e, evs2) && Delivers(evs1, e, c) && Delivers(evs2, e, c)
    requires LastEpoch(e, evs1) <= last <= e + 1 && LastEpoch(e, evs2) <= last
    requires SomeTombstone(evs1, c.boxID) <==> SomeTombstone(evs2, c.boxID)
    requires SomeWrite(evs1, c) <==> SomeWrite(evs2, c)
    requires forall i :: 0 <= i < |evs1| && IsTombstone(evs1[i], c.boxID) ==> evs1[i].op.signature == s
    requires forall i :: 0 <= i < |evs2| && IsTombstone(evs2[i], c.boxID) ==> evs2[i].op.signature == s
    ensures Read(Run(db1, evs1).0, last, c.boxID) == Read(Run(db2, evs2).0, last, c.boxID)
  {
    Converges(db1, r1, now1, e, c, evs1, last);
    Converges(db2, r2, now2, e, c, evs2, last);
  }

  lemma LateWriteRegistered(e: Epoch, c: Command, s: Signature)
    requires e + 2 < TWO64 && 100 + |c.payload| <= MAX_PARSE_SIZE
    ensures var evs := [Event(e, DoWrite(c, false)), Event(e, DoTombstone(c.boxID, s)), Event(e + 2, DoWrite(c, false))];
            var r := RegisterRun(map[], evs).0;
            c.boxID in r && r[c.boxID] == LastPut(e + 2, Box(c.payload, c.signature))
  {
    var e1, e2, e3 := Event(e, DoWrite(c, false)), Event(e, DoTombstone(c.boxID, s)), Event(e + 2, DoWrite(c, false));
    assert [e1, e2, e3][1..] == [e2, e3] && [e2, e3][1..] == [e3] && [e3][1..] == [];
    var r1 := RegisterStep(map[], e1).0;
    var r2 := RegisterStep(r1, e2).0;
    assert r2[c.boxID] == LastPut(e, Box([], s)) && !Visible(r2, e + 2, c.boxID);
    var r3 := RegisterStep(r2, e3).0;
    assert RegisterRun(r3, []).0 == r3 && RegisterRun(r2, [e3]).0 == r3 && RegisterRun(r1, [e2, e3]).0 == r3;
  }

  /** The window matters: two epochs after the tombstone, a late copy of the write brings the box back. */
  lemma TombstoneForgottenAfterWindow(e: Epoch, c: Command, s: Signature)
    requires e + 2 < TWO64 && 100 + |c.payload| <= MAX_PARSE_SIZE
    ensures var evs := [Event(e, DoWrite(c, false)), Event(e, DoTombstone(c.boxID, s)), Event(e + 2, DoWrite(c, false))];
            Read(Run(map[], evs).0, e + 2, c.boxID) == Found(c.payload, c.signature)
  {
    var e1, e2, e3 := Event(e, DoWrite(c, false)), Event(e, DoTombstone(c.boxID, s)), Event(e + 2, DoWrite(c, false));
    var evs := [e1, e2, e3];
    assert evs[1..] == [e2, e3] && [e2, e3][1..] == [e3] && [e3][1..] == [];
    assert ClockFrom(e + 2, []) && ClockFrom(e, [e3]) && ClockFrom(e, [e2, e3]) && ClockFrom(e, evs);
    assert LastEpoch(e, [e3]) == e + 2 && LastEpoch(e, [e2, e3]) == e + 2 && LastEpoch(e, evs) == e + 2;
    EmptyRefines(e);
    RunRefines(map[], map[], e, evs);
    LateWriteRegistered(e, c, s);
    LookupRefines(Run(map[], evs).0, RegisterRun(map[], evs).0, e + 2, e + 2, c.boxID);
  }

  // ---- Faults of the database ----

  /** The lookup when the reads under the epochs in `faulty` fail: None if one of those comes before a hit. */
  function TryLookup(db: Db, epochs: seq<Epoch>, faulty: set<Epoch>, boxID: BoxID): Option<Stored> {
    if epochs == [] then Some(Absent)
    else if epochs[0] in faulty then None
    else if At(db, epochs[0], boxID) != Absent then Some(At(db, epochs[0], boxID))
    else TryLookup(db, epochs[1..], faulty, boxID)
  }

  function TryRead(db: Db, current: Epoch, boxID: BoxID, faulty: set<Epoch>): ReadResult {
    match TryLookup(db, KeptEpochs(current), faulty, boxID)
    case None => ReadFailed
    case Some(s) => ReadOf(s)
  }

  function TryWrite(db: Db, current: Epoch, c: Command, faulty: set<Epoch>, putFails: bool): (Db, WriteResult) {
    match TryLookup(db, KeptEpochs(current), faulty, c.boxID)
    case None => (db, WriteFailed)
    case Some(existing) =>
      if existing != Absent then (db, Verdict(existing, c))
      else if putFails then (db, WriteFailed)
      else (Put(db, current, c.boxID, c.payload, c.signature), Accepted)
  }

  lemma {:induction false} TryLookupIff(db: Db, epochs: seq<Epoch>, faulty: set<Epoch>, boxID: BoxID)
    ensures var r := TryLookup(db, epochs, faulty, boxID); r.Some? ==> r.value == Lookup(db, epochs, boxID)
    ensures TryLookup(db, epochs, faulty, boxID) == None <==>
            exists k :: 0 <= k < |epochs| && epochs[k] in faulty && Lookup(db, epochs[..k], boxID) == Absent
    decreases |epochs|
  {
    if epochs != [] {
      TryLookupIff(db, epochs[1..], faulty, boxID);
      forall k | 0 < k <= |epochs| ensures epochs[..k][1..] == epochs[1..][..k - 1] {}
      if epochs[0] in faulty {
        assert Lookup(db, epochs[..0], boxID) == Absent;
      } else if At(db, epochs[0], boxID) == Absent && TryLookup(db, epochs[1..], faulty, boxID) == None {
        var k :| 0 <= k < |epochs| - 1 && epochs[1..][k] in faulty && Lookup(db, epochs[1..][..k], boxID) == Absent;
        assert epochs[..k + 1][1..] == epochs[1..][..k];
        assert epochs[k + 1] in faulty && Lookup(db, epochs[..k + 1], boxID) == Absent;
      }
    }
  }

  /** A call that meets a fault reports it and leaves the database alone, and any other is the call without faults. */
  lemma FaultsChangeNothing(db: Db, current: Epoch, c: Command, faulty: set<Epoch>, putFails: bool)
    ensures TryRead(db, current, c.boxID, faulty) in {ReadFailed, Read(db, current, c.boxID)}
    ensures TryWrite(db, current, c, faulty, putFails) in {(db, WriteFailed), Write(db, current, c)}
    ensures TryWrite(db, current, c, {}, false) == Write(db, current, c)
    ensures TryRead(db, current, c.boxID, {}) == Read(db, current, c.boxID)
  {
    TryLookupIff(db, KeptEpochs(current), faulty, c.boxID);
    TryLookupIff(db, KeptEpochs(current), {}, c.boxID);
  }

  // ---- The replica's state object ----

  class State {
    var db: Db
    var isOpen: bool
    var storageFull: bool

    constructor ()
      ensures db == map[] && isOpen && !storageFull
    {
      db := map[];
      isOpen := true;
      storageFull := false;
    }

    /** `faulty`: the epochs under which the database fails to read. */
    method StateHandleReplicaRead(current: Epoch, boxID: BoxID, faulty: set<Epoch>) returns (r: ReadResult)
      ensures r == if isOpen then TryRead(db, current, boxID, faulty) else DbClosed
    {
      if !isOpen {
        return DbClosed;
      }
      var kept := KeptEpochs(current);
      assert kept[0..] == kept;
      for i := 0 to |kept|
        invariant TryLookup(db, kept, faulty, boxID) == TryLookup(db, kept[i..], faulty, boxID)
      {
        assert kept[i..][1..] == kept[i + 1..];
        if kept[i] in faulty {
          return ReadFailed;
        }
        var value := Get(db, BoxKey(kept[i], boxID));
        if |value| == 0 {
          continue;
        }
        return ReadOf(StoredBox(value));
      }
      r := NotFound;
    }

    method HandleReplicaWrite(current: Epoch, c: Command, faulty: set<Epoch>, putFails: bool) returns (w: WriteResult)
      modifies this`db
      ensures !isOpen ==> w == Closed && db == old(db)
      ensures isOpen && storageFull ==> w == StorageFull && db == old(db)
      ensures isOpen && !storageFull ==> (db, w) == TryWrite(old(db), current, c, faulty, putFails)
    {
      if !isOpen {
        return Closed;
      }
      if storageFull {
        return StorageFull;
      }
      var kept := KeptEpochs(current);
      assert kept[0..] == kept;
      for i := 0 to |kept|
        invariant db == old(db)
        invariant TryLookup(db, kept, faulty, c.boxID) == TryLookup(db, kept[i..], faulty, c.boxID)
      {
        assert kept[i..][1..] == kept[i + 1..];
        if kept[i] in faulty {
          return WriteFailed;
        }
        var existing := Get(db, BoxKey(kept[i], c.boxID));
        if |existing| == 0 {
          continue;
        }
        var stored := StoredBox(existing);
        if stored.Box? && stored.payload == c.payload && stored.signature == c.signature {
          return Accepted;
        }
        return AlreadyExists;
      }
      if putFails {
        return WriteFailed;
      }
      db := db[BoxKey(current, c.boxID) := BoxBytes(c.boxID, c.payload, c.signature)];
      w := Accepted;
    }

    /** Never refused for lack of space. */
    method HandleReplicaTombstone(current: Epoch, boxID: BoxID, signature: Signature, putFails: bool) returns (w: WriteResult)
      modifies this`db
      ensures w == if !isOpen then Closed else if putFails then WriteFailed else Accepted
      ensures db == if w == Accepted then Tombstone(old(db), current, boxID, signature) else old(db)
    {
      if !isOpen {
        return Closed;
      }
      if putFails {
        return WriteFailed;
      }
      db := db[BoxKey(current, boxID) := BoxBytes(boxID, [], signature)];
      w := Accepted;
    }

    method WipeStaleBoxes(current: Epoch, deleteFails: bool) returns (ok: bool)
      modifies this`db
      ensures ok == (isOpen && (current < 2 || !deleteFails))
      ensures db == if ok then Wipe(old(db), current) else old(db)
    {
      if !isOpen {
        return false;
      }
      if current < 2 {
        return true;
      }
      var cutoff := current - 1;
      var start, end := EpochPrefix(0), EpochPrefix(cutoff);
      if deleteFails {
        return false;
      }
      db := map k | k in db && !InRange(k, start, end) :: db[k];
      ok := true;
    }
  }
}

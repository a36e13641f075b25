/**
 A replica's envelope keys, one per replica epoch: when they are made, when they are destroyed, and which of them
 are tried on a ciphertext. Keys are names; a new key is a name never used before.
 */
module EnvelopeKeys {
  import opened Bytes
  import opened Wrappers

  type Epoch = e: nat | e < TWO64
  type Key = nat

  datatype Result<T> = Ok(value: T) | NoSuchKey | WriteFailed

  /** `epoch - 1` in 64-bit arithmetic: at epoch 0 it wraps to the largest epoch there is. */
  function Before(now: Epoch): Epoch { if now == 0 then TWO64 - 1 else now - 1 }

  function Pruned(keys: map<Epoch, Key>, now: Epoch): map<Epoch, Key> { map e | e in keys && !(e < Before(now)) :: keys[e] }

  /** Pruning keeps exactly the previous, the current and the coming epochs, except that at epoch 0 it destroys these too. */
  lemma PruneKeepsWindowIff(keys: map<Epoch, Key>, now: Epoch)
    ensures (forall e :: e in keys && e + 1 >= now ==> e in Pruned(keys, now))
            <==> now > 0 || (forall e :: e in keys ==> e == TWO64 - 1)
    ensures now > 0 ==> forall e :: e in Pruned(keys, now) <==> e in keys && e + 1 >= now
  {
    if now == 0 {
      assert forall e :: e in keys ==> (e in Pruned(keys, now) <==> e == TWO64 - 1);
    }
  }

  // ---- Runs ----

  /** `made` records every key that has been handed to the publisher as new, oldest first. */
  datatype State = State(keys: map<Epoch, Key>, now: Epoch, nextKey: Key, made: seq<(Epoch, Key)>)

  function Generated(s: State, e: Epoch): State {
    s.(keys := s.keys[e := s.nextKey], nextKey := s.nextKey + 1, made := s.made + [(e, s.nextKey)])
  }

  function Ensured(s: State, e: Epoch, written: bool): (State, Result<Key>) {
    if e in s.keys then (s, Ok(s.keys[e]))
    else if e < s.now then (s, NoSuchKey)
    else if !written then (s, WriteFailed)
    else (Generated(s, e), Ok(s.nextKey))
  }

  datatype Step = Ensure(epoch: Epoch, written: bool) | Prune | Advance(elapsed: nat)

  function Next(s: State, step: Step): State {
    match step
    case Ensure(e, written) => Ensured(s, e, written).0
    case Prune => s.(keys := Pruned(s.keys, s.now))
    case Advance(d) => if s.now + d < TWO64 then s.(now := s.now + d) else s
  }

  function Run(s: State, steps: seq<Step>): State
    decreases |steps|
  {
    if steps == [] then s else Run(Next(s, steps[0]), steps[1..])
  }

  /** At start-up there is a key for the current epoch, and one for the previous epoch if its file is still there. */
  function Booted(now: Epoch, previous: Option<Key>, current: Key): State
    requires now > 0
  {
    var keys := map[now := current];
    State(if previous.Some? then keys[now - 1 := previous.value] else keys, now,
          current + 1 + (if previous.Some? then previous.value else 0), [(now, current)])
  }

  ghost predicate KeysOk(s: State) {
    && s.now > 0
    && (forall i, j :: 0 <= i < j < |s.made| ==> s.made[i].0 != s.made[j].0)
    && (forall i :: 0 <= i < |s.made| && s.now as int - s.made[i].0 as int <= 1 ==>
          s.made[i].0 in s.keys && s.keys[s.made[i].0] == s.made[i].1)
  }

  lemma GeneratedOk(s: State, e: Epoch)
    requires KeysOk(s) && e !in s.keys && e >= s.now
    ensures KeysOk(Generated(s, e))
  {}

  lemma NextOk(s: State, step: Step)
    requires KeysOk(s)
    ensures KeysOk(Next(s, step)) && s.now <= Next(s, step).now && s.made <= Next(s, step).made
  {
    match step
    case Ensure(e, written) => if e !in s.keys && e >= s.now { GeneratedOk(s, e); }
    case Prune => PruneKeepsWindowIff(s.keys, s.now);
    case Advance(d) =>
  }

  lemma {:induction false} RunOk(s: State, steps: seq<Step>)
    requires KeysOk(s)
    ensures KeysOk(Run(s, steps)) && s.now <= Run(s, steps).now && s.made <= Run(s, steps).made
    decreases |steps|
  {
    if steps != [] {
      NextOk(s, steps[0]);
      RunOk(Next(s, steps[0]), steps[1..]);
    }
  }

  /**
   A key made for an epoch is the only one ever made for it, and from then on it is the key on file for that epoch
   until the current epoch exceeds it by two.
   */
  lemma KeyStaysInWindow(boot: State, before: seq<Step>, after: seq<Step>, i: nat)
    requires KeysOk(boot) && i < |Run(boot, before).made|
    ensures var (e, k), s := Run(boot, before).made[i], Run(Run(boot, before), after);
            && (s.now as int - e as int <= 1 ==> e in s.keys && s.keys[e] == k)
            && (forall j :: 0 <= j < |s.made| && s.made[j].0 == e ==> s.made[j].1 == k)
  {
    RunOk(boot, before);
    RunOk(Run(boot, before), after);
    var s := Run(Run(boot, before), after);
    assert s.made[i] == Run(boot, before).made[i];
  }

  lemma BootedOk(now: Epoch, previous: Option<Key>, current: Key)
    requires now > 0
    ensures KeysOk(Booted(now, previous, current))
    ensures Fresh(Booted(now, previous, current)) <==> previous != Some(current)
  {
    var s := Booted(now, previous, current);
    if previous == Some(current) { assert s.keys[(now - 1) as Epoch] == s.keys[now]; }
  }

  /** A key is made for the current or a later epoch only, whoever asks. */
  lemma NoKeyForThePast(s: State, step: Step)
    ensures Next(s, step).made == s.made
            || (exists e: Epoch, k :: e >= s.now && e !in s.keys && step == Ensure(e, true) && Next(s, step).made == s.made + [(e, k)])
  {
    if step.Ensure? && Next(s, step).made != s.made {
      assert Next(s, step).made == s.made + [(step.epoch, s.nextKey)];
    }
  }

  /**
   Whoever asks for the key of an epoch gets the one on file, or a new one that is on file from then on if the epoch is not
   over and the files can be written, and gets none in exactly the other cases.
   */
  lemma EnsuredIff(s: State, e: Epoch, written: bool)
    ensures var (s', r) := Ensured(s, e, written);
            && (r.Ok? <==> e in s.keys || (e >= s.now && written))
            && (r == NoSuchKey <==> e !in s.keys && e < s.now)
            && (r.Ok? ==> e in s'.keys && s'.keys[e] == r.value)
            && (r.Ok? && e !in s.keys ==> s'.made == s.made + [(e, r.value)] && (Fresh(s) ==> r.value !in s.keys.Values))
            && (e in s.keys || !r.Ok? ==> s' == s)
            && (forall f :: f != e ==> (f in s'.keys <==> f in s.keys) && (f in s.keys ==> s'.keys[f] == s.keys[f]))
  {}

  // ---- Trying the keys of the window ----

  datatype Opened = Opened(plaintext: nat, key: Key, epoch: Epoch) | CannotOpen | NoKeyInWindow

  /** `now + delta` in 64-bit arithmetic. */
  function Shifted(now: Epoch, delta: int): Epoch
    requires -1 <= delta <= 1 && now + delta >= 0
  {
    if now + delta == TWO64 then 0 else now + delta
  }

  /** The epochs tried, in order; at epoch 0 there is no previous one. */
  function Window(now: Epoch): seq<Epoch> {
    if now == 0 then [now, Shifted(now, 1)] else [Shifted(now, -1), now, Shifted(now, 1)]
  }

  function TryAll(keys: map<Epoch, Key>, opens: map<Key, nat>, epochs: seq<Epoch>, failed: bool): Opened {
    if epochs == [] then if failed then CannotOpen else NoKeyInWindow
    else if epochs[0] !in keys then TryAll(keys, opens, epochs[1..], failed)
    else if keys[epochs[0]] in opens then Opened(opens[keys[epochs[0]]], keys[epochs[0]], epochs[0])
    else TryAll(keys, opens, epochs[1..], true)
  }

  lemma TryAllStep(keys: map<Epoch, Key>, opens: map<Key, nat>, epochs: seq<Epoch>, failed: bool)
    requires epochs != []
    ensures var e := epochs[0];
            TryAll(keys, opens, epochs, failed) ==
            if e in keys && keys[e] in opens then Opened(opens[keys[e]], keys[e], e)
            else TryAll(keys, opens, epochs[1..], failed || e in keys)
  {}

  lemma {:induction false} TryAllFinds(keys: map<Epoch, Key>, opens: map<Key, nat>, epochs: seq<Epoch>, failed: bool, e: Epoch, p: nat)
    requires e in epochs && e in keys && opens == map[keys[e] := p]
    requires forall e' :: e' in epochs && e' in keys && keys[e'] == keys[e] ==> e' == e
    ensures TryAll(keys, opens, epochs, failed) == Opened(p, keys[e], e)
    decreases |epochs|
  {
    if epochs[0] != e {
      assert epochs == [epochs[0]] + epochs[1..];
      TryAllFinds(keys, opens, epochs[1..], failed || epochs[0] in keys, e, p);
    }
  }

  /** The keys on file are different names. */
  ghost predicate Fresh(s: State) {
    && (forall e :: e in s.keys ==> s.keys[e] < s.nextKey)
    && (forall e, f :: e in s.keys && f in s.keys && s.keys[e] == s.keys[f] ==> e == f)
  }

  lemma {:induction false} RunFresh(s: State, steps: seq<Step>)
    requires Fresh(s)
    ensures Fresh(Run(s, steps))
    decreases |steps|
  {
    if steps != [] {
      assert Fresh(Next(s, steps[0]));
      RunFresh(Next(s, steps[0]), steps[1..]);
    }
  }

  /**
   A ciphertext to a published key opens, and is attributed to that key's epoch, whenever the replica's epoch is
   the one before the key's, the key's own or the one after it.
   */
  lemma PublishedKeyOpens(boot: State, steps: seq<Step>, i: nat, p: nat)
    requires KeysOk(boot) && Fresh(boot) && i < |Run(boot, steps).made|
    requires var s := Run(boot, steps); -1 <= s.now as int - s.made[i].0 as int <= 1
    ensures var s := Run(boot, steps);
            TryAll(s.keys, map[s.made[i].1 := p], Window(s.now), false) == Opened(p, s.made[i].1, s.made[i].0)
  {
    var s := Run(boot, steps);
    var e := s.made[i].0;
    RunOk(boot, steps);
    RunFresh(boot, steps);
    assert e in Window(s.now) by { InWindow(s.now, e); }
    TryAllFinds(s.keys, map[s.made[i].1 := p], Window(s.now), false, e, p);
  }

  /** A restart keeps the previous epoch's key if its file is still there: what was sent to it can still be opened. */
  lemma PreviousKeyOpens(now: Epoch, previous: Key, current: Key, p: nat)
    requires now > 0 && previous != current
    ensures TryAll(Booted(now, Some(previous), current).keys, map[previous := p], Window(now), false) == Opened(p, previous, now - 1)
  {
    InWindow(now, now - 1);
    TryAllFinds(Booted(now, Some(previous), current).keys, map[previous := p], Window(now), false, now - 1, p);
  }

  lemma InWindow(now: Epoch, e: Epoch)
    requires -1 <= now as int - e as int <= 1
    ensures e in Window(now)
  {
    var w := Window(now);
    var i := if now == 0 then e else e - (now - 1);
    assert w[i] == e;
  }

  /** The epochs a ciphertext may be meant for; after the largest epoch comes 0. */
  predicate Near(now: Epoch, e: Epoch) { e + 1 == now || e == now || e == now + 1 || (now == TWO64 - 1 && e == 0) }

  /** The key on file for that epoch opens the ciphertext, to that plaintext. */
  predicate Opens(keys: map<Epoch, Key>, opens: map<Key, nat>, r: Opened)
    requires r.Opened?
  {
    r.epoch in keys && keys[r.epoch] == r.key && r.key in opens && opens[r.key] == r.plaintext
  }

  lemma {:induction false} TryAllIff(keys: map<Epoch, Key>, opens: map<Key, nat>, epochs: seq<Epoch>, failed: bool)
    ensures var r := TryAll(keys, opens, epochs, failed);
            && (r.Opened? ==> r.epoch in epochs && Opens(keys, opens, r))
            && (r == CannotOpen ==> (failed || exists e :: e in epochs && e in keys)
                                    && forall e :: e in epochs && e in keys ==> keys[e] !in opens)
            && (r == NoKeyInWindow ==> !failed && forall e :: e in epochs ==> e !in keys)
    decreases |epochs|
  {
    if epochs != [] {
      var rest := failed || epochs[0] in keys;
      assert epochs == [epochs[0]] + epochs[1..];
      TryAllIff(keys, opens, epochs[1..], rest);
      TryAllStep(keys, opens, epochs, failed);
    }
  }

  lemma WindowIsNear(now: Epoch)
    ensures forall e :: e in Window(now) <==> Near(now, e)
  {
    var w := Window(now);
    forall e | Near(now, e) ensures e in w {
      assert e == w[0] || e == w[1] || e == w[|w| - 1];
    }
  }

  /** A ciphertext is opened if some key of a near epoch opens it; the error says whether there was any key to try. */
  lemma OpenedIff(keys: map<Epoch, Key>, opens: map<Key, nat>, now: Epoch)
    ensures var r := TryAll(keys, opens, Window(now), false);
            && (r.Opened? ==> Near(now, r.epoch) && Opens(keys, opens, r))
            && (r == CannotOpen ==> (exists e :: Near(now, e) && e in keys)
                                    && forall e :: Near(now, e) && e in keys ==> keys[e] !in opens)
            && (r == NoKeyInWindow ==> forall e :: Near(now, e) ==> e !in keys)
  {
    WindowIsNear(now);
    TryAllIff(keys, opens, Window(now), false);
  }

  // ---- The store itself ----

  class EnvelopeKeys {
    var keys: map<Epoch, Key>
    var nextKey: Key
    ghost var made: seq<(Epoch, Key)>

    ghost function At(now: Epoch): State
      reads this
    {
      State(keys, now, nextKey, made)
    }

    constructor (now: Epoch, previous: Option<Key>, current: Key)
      requires now > 0
      ensures At(now) == Booted(now, previous, current)
    {
      keys := map[now := current];
      nextKey := current + 1;
      made := [(now, current)];
      new;
      match previous
      case Some(k) =>
        keys := keys[now - 1 := k];
        nextKey := current + 1 + k;
      case None =>
    }

    method Generate(e: Epoch, written: bool) returns (ok: bool)
      modifies this
      ensures ok == written
      ensures forall now :: At(now) == if ok then Generated(old(At(now)), e) else old(At(now))
    {
      if !written { return false; }
      keys := keys[e := nextKey];
      made := made + [(e, nextKey)];
      nextKey := nextKey + 1;
      return true;
    }

    method Prune(now: Epoch) returns (didPrune: bool)
      modifies this`keys
      ensures keys == Pruned(old(keys), now) && (didPrune <==> keys != old(keys))
    {
      didPrune := false;
      var all, todo := keys, keys.Keys;
      while todo != {}
        invariant todo <= all.Keys
        invariant keys == map e | e in all && !(e !in todo && e < Before(now)) :: all[e]
        invariant didPrune <==> exists e :: e in all && e !in todo && e < Before(now)
        decreases |todo|
      {
        var e :| e in todo;
        todo := todo - {e};
        if e < Before(now) {
          keys := keys - {e};
          didPrune := true;
        }
      }
      assert didPrune <==> exists e :: e in all && e !in keys;
    }

    method GetKeypair(e: Epoch) returns (r: Result<Key>)
      ensures r == if e in keys then Ok(keys[e]) else NoSuchKey
    {
      if e !in keys { return NoSuchKey; }
      return Ok(keys[e]);
    }

    method EnsureKey(e: Epoch, now: Epoch, written: bool) returns (r: Result<Key>)
      modifies this
      ensures (At(now), r) == Ensured(old(At(now)), e, written)
    {
      r := GetKeypair(e);
      if e < now || r.Ok? { return; }
      var ok := Generate(e, written);
      if !ok { return WriteFailed; }
      r := GetKeypair(e);
    }

    /** What one epoch's key, if there is one, makes of the ciphertext. */
    method Decapsulate(opens: map<Key, nat>, e: Epoch) returns (r: Option<Opened>, present: bool)
      ensures present <==> e in keys
      ensures r == if e in keys && keys[e] in opens then Some(Opened(opens[keys[e]], keys[e], e)) else None
    {
      var key := GetKeypair(e);
      present := key.Ok?;
      r := if key.Ok? && key.value in opens then Some(Opened(opens[key.value], key.value, e)) else None;
    }

    /** tryDecapsulateAcrossEpochWindow; `opens` says what each key makes of the ciphertext. */
    method TryDecapsulate(opens: map<Key, nat>, now: Epoch) returns (r: Opened)
      ensures r == TryAll(keys, opens, Window(now), false)
    {
      ghost var want := TryRest(keys, opens, now, -1, false);
      var failed := false;
      var delta := -1;
      while delta <= 1
        invariant -1 <= delta <= 2
        invariant want == TryRest(keys, opens, now, delta, failed)
        decreases 2 - delta
      {
        TryRestStep(keys, opens, now, delta, failed);
        if !(delta < 0 && -delta > now) {
          var found, present := Decapsulate(opens, Shifted(now, delta));
          if found.Some? { return found.value; }
          failed := failed || present;
        }
        delta := delta + 1;
      }
      r := if failed then CannotOpen else NoKeyInWindow;
    }
  }

  /** What is left of the window when the loop has come to `delta`. */
  function Remaining(now: Epoch, delta: int): seq<Epoch>
    requires -1 <= delta <= 2
  {
    var all := Window(now);
    if delta == -1 then all else all[|all| - 2 + delta..]
  }

  function TryRest(keys: map<Epoch, Key>, opens: map<Key, nat>, now: Epoch, delta: int, failed: bool): Opened
    requires -1 <= delta <= 2
  {
    TryAll(keys, opens, Remaining(now, delta), failed)
  }

  lemma RemainingStep(now: Epoch, delta: int)
    requires -1 <= delta <= 1
    ensures delta < 0 && -delta > now ==> Remaining(now, delta) == Remaining(now, delta + 1)
    ensures !(delta < 0 && -delta > now) ==>
              Remaining(now, delta) != [] && Remaining(now, delta)[0] == Shifted(now, delta)
              && Remaining(now, delta)[1..] == Remaining(now, delta + 1)
  {}

  lemma TryRestStep(keys: map<Epoch, Key>, opens: map<Key, nat>, now: Epoch, delta: int, failed: bool)
    requires -1 <= delta <= 1
    ensures TryRest(keys, opens, now, delta, failed) ==
            if delta < 0 && -delta > now then TryRest(keys, opens, now, delta + 1, failed)
            else
              var e := Shifted(now, delta);
              if e in keys && keys[e] in opens then Opened(opens[keys[e]], keys[e], e)
              else TryRest(keys, opens, now, delta + 1, failed || e in keys)
  {
    RemainingStep(now, delta);
    if !(delta < 0 && -delta > now) { TryAllStep(keys, opens, Remaining(now, delta), failed); }
  }
}

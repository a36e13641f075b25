/** Which commits there are: every thread has at most one, and they come in the order of real time. */
module BoxCommits {
  import opened BoxLock
  import opened BoxWriters

  predicate By(c: Commit, t: Tid) { !c.Collected? && c.tid == t }

  /** The commit is the work of the job that it names, and is the answer of that job. */
  predicate Accounted(m: Machine, c: Commit) {
    !c.Collected? ==>
      && c.tid in m.jobs && m.jobs[c.tid].work.Decided?
      && Records(c, c.tid, m.jobs[c.tid].req, m.jobs[c.tid].work.result)
  }

  ghost predicate Once(m: Machine) {
    && (forall i :: 0 <= i < |m.history| ==> Accounted(m, m.history[i]))
    && (forall i, j :: 0 <= i < j < |m.history| && !m.history[i].Collected? && !m.history[j].Collected? ==>
          m.history[i].tid != m.history[j].tid)
  }

  // ---- One step ----

  lemma CommitOnce(m: Machine, m': Machine, t: Tid, c: Commit)
    requires Once(m) && Worker(m, m', t) && !m.jobs[t].work.Decided?
    requires m'.history == m.history + [c] && m'.jobs[t].work.Decided? && Records(c, t, m.jobs[t].req, m'.jobs[t].work.result)
    ensures Once(m')
  {
    forall i | 0 <= i < |m'.history| ensures Accounted(m', m'.history[i]) {
      assert i < |m.history| ==> Accounted(m, m.history[i]);
    }
  }

  lemma QuietOnce(m: Machine, m': Machine)
    requires Once(m) && m'.history == m.history
    requires forall t :: t in m.jobs && m.jobs[t].work.Decided? ==> t in m'.jobs && m'.jobs[t] == m.jobs[t]
    ensures Once(m')
  {
    forall i | 0 <= i < |m'.history| ensures Accounted(m', m'.history[i]) {
      assert Accounted(m, m.history[i]);
    }
  }

  lemma CheckOnce(m: Machine, t: Tid)
    requires Once(m) && Enabled(m, CheckEpoch(t))
    ensures Once(CheckStep(m, t))
  {
    var m' := CheckStep(m, t);
    if m'.history == m.history {
      QuietOnce(m, m');
    } else {
      CommitOnce(m, m', t, m'.history[|m.history|]);
    }
  }

  lemma PutOnce(m: Machine, t: Tid)
    requires Once(m) && Enabled(m, PutValue(t))
    ensures Once(PutStep(m, t))
  {
    CommitOnce(m, PutStep(m, t), t, PutStep(m, t).history[|m.history|]);
  }

  lemma CollectOnce(m: Machine)
    requires Once(m)
    ensures Once(Next(m, Collect))
  {
    var m' := Next(m, Collect);
    forall i | 0 <= i < |m'.history| ensures Accounted(m', m'.history[i]) {
      assert i < |m.history| ==> Accounted(m, m.history[i]);
    }
  }

  lemma NextOnce(m: Machine, a: Action)
    requires Once(m)
    ensures Once(Next(m, a)) && m.history <= Next(m, a).history
  {
    match a
    case CheckEpoch(t) => if Enabled(m, a) { CheckOnce(m, t); }
    case PutValue(t) => if Enabled(m, a) { PutOnce(m, t); }
    case Collect => CollectOnce(m);
    case _ => QuietOnce(m, Next(m, a));
  }

  // ---- Runs ----

  lemma {:induction false} RunOnce(m: Machine, actions: seq<Action>)
    requires Once(m)
    ensures Once(RunFrom(m, actions)) && m.history <= RunFrom(m, actions).history
    decreases |actions|
  {
    if actions != [] {
      NextOnce(m, actions[0]);
      RunOnce(Next(m, actions[0]), actions[1..]);
    }
  }

  lemma {:induction false} RunSplits(m: Machine, a: seq<Action>, b: seq<Action>)
    ensures RunFrom(m, a + b) == RunFrom(RunFrom(m, a), b)
    decreases |a|
  {
    if a == [] {
      assert a + b == b;
    } else {
      assert (a + b)[1..] == a[1..] + b;
      RunSplits(Next(m, a[0]), a[1..], b);
    }
  }

  /** The thread has entered its critical section, and may have left it. */
  predicate Entered(m: Machine, t: Tid) {
    t in m.locks.seats && var p := m.locks.seats[t].phase; p == Critical || p == Unlocked || p == Dropped || p == Finished
  }

  lemma DecidedEntered(m: Machine, t: Tid)
    requires Answered(m) && Seated(m) && t in m.jobs && m.jobs[t].work.Decided?
    ensures Entered(m, t)
  {
    assert In(m.locks, t, m.locks.seats[t].phase);
  }

  lemma AlwaysOnce(actions: seq<Action>)
    ensures var m := RunFrom(START, actions); Once(m) && Answered(m) && Seated(m)
  {
    StartIsGood();
    RunIsGood(START, actions);
    RunOnce(START, actions);
  }

  ghost predicate HasCommit(h: seq<Commit>, t: Tid) { exists i :: 0 <= i < |h| && By(h[i], t) }

  lemma DecidedCommitted(m: Machine, t: Tid)
    requires Answered(m) && t in m.jobs && m.jobs[t].work.Decided?
    ensures HasCommit(m.history, t)
  {
    var i :| 0 <= i < |m.history| && Records(m.history[i], t, m.jobs[t].req, m.jobs[t].work.result);
    assert By(m.history[i], t);
  }

  lemma CommitDecided(m: Machine, t: Tid, i: nat)
    requires Once(m) && Answered(m) && Seated(m) && i < |m.history| && By(m.history[i], t)
    ensures t in m.jobs && m.jobs[t].work.Decided? && Entered(m, t)
    ensures Records(m.history[i], t, m.jobs[t].req, m.jobs[t].work.result)
  {
    assert Accounted(m, m.history[i]);
    DecidedEntered(m, t);
  }

  /** A thread has a commit if and only if it has decided on its answer, and it has no more than one. */
  lemma CommitsIff(actions: seq<Action>, t: Tid)
    ensures var m := RunFrom(START, actions);
            && (HasCommit(m.history, t) <==> t in m.jobs && m.jobs[t].work.Decided?)
            && (forall i, j :: 0 <= i < |m.history| && 0 <= j < |m.history| && By(m.history[i], t) && By(m.history[j], t) ==> i == j)
  {
    var m := RunFrom(START, actions);
    AlwaysOnce(actions);
    if t in m.jobs && m.jobs[t].work.Decided? { DecidedCommitted(m, t); }
    if HasCommit(m.history, t) {
      var i :| 0 <= i < |m.history| && By(m.history[i], t);
      CommitDecided(m, t, i);
    }
  }

  /** Every commit is that of a thread past the start of its critical section, with its request and its answer. */
  lemma CommitsFromInside(actions: seq<Action>, i: nat)
    requires i < |RunFrom(START, actions).history| && !RunFrom(START, actions).history[i].Collected?
    ensures var m, t := RunFrom(START, actions), RunFrom(START, actions).history[i].tid;
            && Entered(m, t) && t in m.jobs && m.jobs[t].work.Decided?
            && Records(m.history[i], t, m.jobs[t].req, m.jobs[t].work.result)
  {
    AlwaysOnce(actions);
    CommitDecided(RunFrom(START, actions), RunFrom(START, actions).history[i].tid, i);
  }

  lemma InOrder(m: Machine, m': Machine, t: Tid, u: Tid)
    requires Once(m) && Once(m') && m.history <= m'.history && HasCommit(m.history, t) && u !in m.jobs
    ensures var h := m'.history;
            HasCommit(h, t) && (forall i, j :: 0 <= i < |h| && 0 <= j < |h| && By(h[i], t) && By(h[j], u) ==> i < j)
  {
    var h := m'.history;
    var k :| 0 <= k < |m.history| && By(m.history[k], t);
    assert By(h[k], t);
    assert forall j :: 0 <= j < |m.history| ==> m.history[j] == h[j] && Accounted(m, m.history[j]);
    assert forall i :: 0 <= i < |h| && By(h[i], t) ==> i == k;
  }

  /** A thread that has finished before another one arrives comes before it in the sequence as well. */
  lemma RealTimeOrder(before: seq<Action>, after: seq<Action>, t: Tid, u: Tid)
    requires In(RunFrom(START, before).locks, t, Finished) && u !in RunFrom(START, before).jobs
    ensures var h := RunFrom(START, before + after).history;
            HasCommit(h, t) && (forall i, j :: 0 <= i < |h| && 0 <= j < |h| && By(h[i], t) && By(h[j], u) ==> i < j)
  {
    AlwaysOnce(before);
    AlwaysOnce(before + after);
    RunSplits(START, before, after);
    RunOnce(RunFrom(START, before), after);
    FinishedCommitted(RunFrom(START, before), t);
    InOrder(RunFrom(START, before), RunFrom(START, before + after), t, u);
  }

  lemma FinishedCommitted(m: Machine, t: Tid)
    requires Answered(m) && Seated(m) && In(m.locks, t, Finished)
    ensures HasCommit(m.history, t)
  {
    DecidedCommitted(m, t);
  }
}

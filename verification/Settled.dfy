/** Exactly when the code's at-most-once promise holds with no fencing at all: from every other state
    there are runs that break it. */
module Settled {
  import opened Options
  import opened KeyRow
  import opened Protocol
  import opened Accounting

  /** The row is past PROCESSING and nothing still under way can commit or remove it: no handler is
      running and no 5xx answer is waiting to be settled. */
  predicate IsSettled(s: State) {
    && s.row.Some? && s.row.value.status != Processing
    && forall p :: p in s.procs ==> IsQuiet(s.procs[p].pc)
  }

  predicate IsQuiet(pc: Pc) {
    !pc.Running? && (pc.Answering? ==> pc.response.status < 500)
  }

  lemma SettledStep(s: State, step: Step)
    requires IsSettled(s) && Enabled(s, step)
    ensures IsSettled(Do(s, step))
    ensures Commits(Do(s, step)) == Commits(s) && Executions(Do(s, step)) == Executions(s)
  {
    StepKeepsSets(s, step);
  }

  lemma {:induction false} SettledRun(trace: seq<State>, steps: seq<Step>, i: nat)
    requires IsRun(trace, steps) && IsSettled(trace[0]) && i <= |steps|
    ensures IsSettled(trace[i])
    ensures Commits(trace[i]) == Commits(trace[0]) && Executions(trace[i]) == Executions(trace[0])
  {
    if i > 0 {
      SettledRun(trace, steps, i - 1);
      SettledStep(trace[i - 1], steps[i - 1]);
    }
  }

  lemma FreshPid(used: set<Pid>) returns (p: Pid)
    ensures p !in used
  {
    p := 0;
    var below: set<Pid> := {};
    while p in used
      invariant below <= used && forall q :: q in below ==> q < p
      decreases used - below
    {
      below := below + {p};
      p := p + 1;
    }
  }

  /** With no row, a newcomer claims and commits. */
  lemma CommitFromNoRow(s: State, t: State) returns (u: State)
    requires Reaches(s, t) && t.row.None? && Commits(t) == Commits(s)
    ensures Reaches(s, u) && Commits(s) < Commits(u) && !IsSettled(u)
  {
    var p := FreshPid(t.procs.Keys);
    var t1 := Do(t, Arrive(p, 0));
    OneMore(s, t, Arrive(p, 0));
    var t2 := Do(t1, TryInsert(p));
    OneMore(s, t1, TryInsert(p));
    u := Do(t2, Publish(p, None));
    OneMore(s, t2, Publish(p, None));
    assert p in Commits(u) && p !in Commits(t) && Commits(t) <= Commits(u);
    assert u.procs[p].pc.Running?;
  }

  /** A PROCESSING row can be waited out. */
  lemma WaitForStale(s: State) returns (p: Pid, t: State)
    requires s.row.Some? && s.row.value.status == Processing
    ensures Reaches(s, t) && t.row == s.row && Commits(t) == Commits(s) && At(t, p, Conflicted)
    ensures t.now - s.row.value.createdAt > t.stale
  {
    StayPut(s);
    p := FreshPid(s.procs.Keys);
    var wait := s.row.value.createdAt + s.stale + 1 - s.now;
    var tick := Tick(if wait > 0 then wait else 0);
    var s1 := Do(s, tick);
    OneMore(s, s, tick);
    var s2 := Do(s1, Arrive(p, 0));
    OneMore(s, s1, Arrive(p, 0));
    t := Do(s2, TryInsert(p));
    OneMore(s, s2, TryInsert(p));
  }

  /** And then be taken over. */
  lemma CommitFromProcessing(s: State) returns (u: State)
    requires s.row.Some? && s.row.value.status == Processing
    ensures Reaches(s, u) && Commits(s) < Commits(u) && !IsSettled(u)
  {
    var p, t := WaitForStale(s);
    var t1 := Do(t, Read(p));
    OneMore(s, t, Read(p));
    var t2 := Do(t1, TakeOver(p));
    OneMore(s, t1, TakeOver(p));
    assert Commits(t2) == Commits(s);
    u := CommitFromNoRow(s, t2);
  }

  lemma CommitFromAnswer(s: State, t: State, p: Pid) returns (u: State)
    requires Reaches(s, t) && Commits(t) == Commits(s)
    requires p in t.procs && t.procs[p].pc.Answering? && t.procs[p].pc.response.status >= 500
    ensures Reaches(s, u) && Commits(s) < Commits(u) && !IsSettled(u)
  {
    OneMore(s, t, Store(p));
    assert Commits(Do(t, Store(p))) == Commits(t);
    u := CommitFromNoRow(s, Do(t, Store(p)));
  }

  lemma CommitFromRunning(s: State, p: Pid) returns (u: State)
    requires s.row.Some? && p in s.procs && s.procs[p].pc.Running?
    ensures Reaches(s, u) && Commits(s) < Commits(u) && !IsSettled(u)
  {
    StayPut(s);
    if s.procs[p].pc.marked {
      var failure := Answer(p, Response(500, "", None));
      OneMore(s, s, failure);
      assert Commits(Do(s, failure)) == Commits(s);
      u := CommitFromAnswer(s, Do(s, failure), p);
    } else {
      u := Do(s, Publish(p, None));
      OneMore(s, s, Publish(p, None));
      assert p in Commits(u) && p !in Commits(s) && Commits(s) <= Commits(u);
      assert u.procs[p].pc.Running?;
    }
  }

  /** From an unsettled state some continuation commits once more, and is unsettled still. */
  lemma CommitOnceMore(s: State) returns (u: State)
    requires !IsSettled(s)
    ensures Reaches(s, u) && Commits(s) < Commits(u) && !IsSettled(u)
  {
    StayPut(s);
    if s.row.None? {
      u := CommitFromNoRow(s, s);
    } else if s.row.value.status == Processing {
      u := CommitFromProcessing(s);
    } else {
      var p :| p in s.procs && !IsQuiet(s.procs[p].pc);
      if s.procs[p].pc.Running? {
        u := CommitFromRunning(s, p);
      } else {
        u := CommitFromAnswer(s, s, p);
      }
    }
  }

  lemma SettledStays(s: State, t: State)
    requires IsSettled(s) && Reaches(s, t)
    ensures Commits(t) == Commits(s)
  {
    var trace, steps :| IsRun(trace, steps) && trace[0] == s && trace[|steps|] == t;
    SettledRun(trace, steps, |steps|);
  }

  /** No continuation of s, however unfenced, commits anything more if and only if s is settled. */
  lemma NoFurtherCommitIffSettled(s: State)
    ensures IsSettled(s) <==> forall t :: Reaches(s, t) ==> Commits(t) == Commits(s)
  {
    if IsSettled(s) {
      forall t | Reaches(s, t) ensures Commits(t) == Commits(s) {
        SettledStays(s, t);
      }
    } else {
      var u := CommitOnceMore(s);
      assert Reaches(s, u) && Commits(u) != Commits(s);
    }
  }

  lemma StrictSubsetCard(a: set<Pid>, b: set<Pid>)
    requires a < b
    ensures |a| < |b|
  {
    SubsetCard(a, b);
    if |a| == |b| {
      var x :| x in b && x !in a;
      SubsetCard(a, b - {x});
    }
  }

  /** At most one execution commits, whatever comes next and however unfenced, if and only if the key is
      settled with at most one commit: from any other state two executions can still commit. */
  lemma AtMostOneCommitIff(s: State)
    ensures (forall t :: Reaches(s, t) ==> |Commits(t)| <= 1) <==> IsSettled(s) && |Commits(s)| <= 1
  {
    StayPut(s);
    if IsSettled(s) {
      forall t | Reaches(s, t) ensures Commits(t) == Commits(s) {
        SettledStays(s, t);
      }
    } else {
      var once := CommitOnceMore(s);
      var twice := CommitOnceMore(once);
      ReachesOn(s, once, twice);
      StrictSubsetCard(Commits(s), Commits(once));
      StrictSubsetCard(Commits(once), Commits(twice));
      assert Reaches(s, twice) && |Commits(twice)| >= 2;
    }
  }
}

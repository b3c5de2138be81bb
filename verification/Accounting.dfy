/** What every run of the protocol keeps, with no assumption on how steps interleave: crashes,
    takeovers and executions that outlive their claim included. */
module Accounting {
  import opened Options
  import opened FiniteSums
  import opened KeyRow
  import opened Protocol

  function Rows(s: State): nat {
    if s.row.Some? then 1 else 0
  }

  ghost predicate Consistent(s: State) {
    && |Executions(s)| == s.deletions + Rows(s)
    && (s.row.Some? ==> RowSound(s, s.row.value))
    && (forall p :: p in s.procs ==> Timely(s, s.procs[p]))
  }

  /** The row was claimed by the execution it names; COMPLETED carries a response; PROCESSING means
      no commit since the row was inserted. */
  ghost predicate RowSound(s: State, row: Row) {
    && row.id in s.procs && IsExecution(s.procs[row.id].pc)
    && row.hash == Some(s.procs[row.id].hash)
    && row.createdAt <= s.now
    && (row.status == Completed ==> row.response.Some?)
    && (row.status == Processing ==> Commits(s) == s.commitsBefore)
  }

  /** Each takeover by one request needs a row older than the stale window, and a PROCESSING row
      met after a takeover was inserted after it. */
  ghost predicate Timely(s: State, q: Proc) {
    && q.arrivedAt <= s.now
    && (q.depth > 0 ==>
          && q.lastTakeover <= s.now
          && Elapsed(q.depth, s.stale, q.lastTakeover - q.arrivedAt)
          && (s.row.Some? && s.row.value.status == Processing ==> q.lastTakeover <= s.row.value.createdAt))
    && (q.pc.TakingOver? ==>
          && q.arrivedAt <= q.pc.sawAt <= s.now
          && (q.depth > 0 ==> q.lastTakeover + s.stale < q.pc.sawAt))
  }

  /** At least (depth - 1) stale windows fit in `time`, strictly once there are two takeovers. */
  ghost predicate Elapsed(depth: nat, stale: nat, time: int) {
    depth > 0 ==> time >= (depth - 1) * stale && (depth > 1 ==> time > (depth - 1) * stale)
  }

  lemma ElapsedMore(depth: nat, stale: nat, time: int, more: int)
    requires depth > 0 && Elapsed(depth, stale, time)
    requires more > time + stale
    ensures Elapsed(depth + 1, stale, more)
  {
    assert depth * stale == (depth - 1) * stale + stale;
  }

  lemma StepKeepsSets(s: State, step: Step)
    requires Enabled(s, step)
    ensures Executions(Do(s, step)) ==
            Executions(s) + (if step.TryInsert? && s.row.None? then {step.p} else {})
    ensures Commits(Do(s, step)) ==
            Commits(s) + (if step.Publish? && s.row.Some? then {step.p} else {})
  {
  }

  lemma StepKeepsTimely(s: State, step: Step)
    requires Enabled(s, step) && Consistent(s)
    ensures forall p :: p in Do(s, step).procs ==> Timely(Do(s, step), Do(s, step).procs[p])
  {
    var t := Do(s, step);
    forall p | p in t.procs ensures Timely(t, t.procs[p]) {
      if p in s.procs {
        assert Timely(s, s.procs[p]);
        if step == TakeOver(p) && s.procs[p].depth > 0 {
          var q := s.procs[p];
          ElapsedMore(q.depth, s.stale, q.lastTakeover - q.arrivedAt, s.now - q.arrivedAt);
        }
      }
    }
  }

  lemma StepKeepsRowSound(s: State, step: Step)
    requires Enabled(s, step) && (s.row.Some? ==> RowSound(s, s.row.value))
    ensures Do(s, step).row.Some? ==> RowSound(Do(s, step), Do(s, step).row.value)
  {
    StepKeepsSets(s, step);
  }

  lemma StepCountsDeletions(s: State, step: Step)
    requires Enabled(s, step)
    ensures Do(s, step).deletions + Rows(Do(s, step)) ==
            s.deletions + Rows(s) + (if step.TryInsert? && s.row.None? then 1 else 0)
  {
  }

  lemma StepKeepsCount(s: State, step: Step)
    requires Enabled(s, step) && |Executions(s)| == s.deletions + Rows(s)
    ensures |Executions(Do(s, step))| == Do(s, step).deletions + Rows(Do(s, step))
  {
    StepCountsDeletions(s, step);
    StepKeepsSets(s, step);
    if step.TryInsert? && s.row.None? {
      assert step.p !in Executions(s);
    } else {
      assert Executions(Do(s, step)) == Executions(s);
    }
  }

  lemma StepKeepsConsistent(s: State, step: Step)
    requires Enabled(s, step) && Consistent(s)
    ensures Consistent(Do(s, step))
  {
    StepKeepsCount(s, step);
    StepKeepsRowSound(s, step);
    StepKeepsTimely(s, step);
  }

  lemma {:induction false} RunKeepsConsistent(trace: seq<State>, steps: seq<Step>, i: nat)
    requires IsRun(trace, steps) && Consistent(trace[0]) && i <= |steps|
    ensures Consistent(trace[i])
  {
    if i > 0 {
      RunKeepsConsistent(trace, steps, i - 1);
      StepKeepsConsistent(trace[i - 1], steps[i - 1]);
    }
  }

  lemma ReachableIsConsistent(now: int, stale: nat, s: State)
    requires Reaches(Init(now, stale), s)
    ensures Consistent(s)
  {
    var trace, steps :| IsRun(trace, steps) && trace[0] == Init(now, stale) && trace[|steps|] == s;
    RunKeepsConsistent(trace, steps, |steps|);
  }

  /** Executions started = effective row deletions + the row now present; so the number of
      committed executions is bounded by the deletions, with no fencing assumed. */
  lemma ExecutionConservation(now: int, stale: nat, s: State)
    requires Reaches(Init(now, stale), s)
    ensures |Executions(s)| == s.deletions + Rows(s)
    ensures |Commits(s)| + |Abandoned(s)| <= s.deletions + Rows(s)
    ensures |Commits(s)| <= 1 + s.deletions - |Abandoned(s)|
  {
    ReachableIsConsistent(now, stale, s);
    SubsetCard(Commits(s) + Abandoned(s), Executions(s));
    CardUnion(Commits(s), Abandoned(s));
  }

  lemma SubsetCard(a: set<Pid>, b: set<Pid>)
    requires a <= b
    ensures |a| <= |b|
  {
    CardUnion(a, b - a);
    assert b == a + (b - a);
  }

  /** The stale timeout and the exception clean-up never discard committed work: no run commits
      anything between the insertion of a row and its removal by either DELETE. */
  lemma TakeoverNeverDiscardsCommit(now: int, stale: nat, s: State, step: Step)
    requires Reaches(Init(now, stale), s) && Enabled(s, step)
    requires step.TakeOver? || step.CleanUp?
    ensures Do(s, step).row != s.row ==>
              s.row.Some? && s.row.value.status == Processing && Commits(s) == s.commitsBefore
    ensures s.row.Some? && Commits(s) != s.commitsBefore ==> Do(s, step).row == s.row
  {
    ReachableIsConsistent(now, stale, s);
  }

  /** A request that re-dispatched itself d times has been in the system for more than d - 1 stale
      windows, so the recursion is as deep as the request is old. */
  lemma TakeoverDepthIsBounded(now: int, stale: nat, s: State, p: Pid)
    requires Reaches(Init(now, stale), s) && p in s.procs && s.procs[p].depth > 0
    ensures s.now - s.procs[p].arrivedAt >= (s.procs[p].depth - 1) * stale
    ensures s.procs[p].depth > 1 ==> s.now - s.procs[p].arrivedAt > (s.procs[p].depth - 1) * stale
  {
    ReachableIsConsistent(now, stale, s);
    StaleIsFixed(Init(now, stale), s);
    assert Timely(s, s.procs[p]);
  }

  lemma StaleIsFixed(s: State, t: State)
    requires Reaches(s, t)
    ensures t.stale == s.stale
  {
    var trace, steps :| IsRun(trace, steps) && trace[0] == s && trace[|steps|] == t;
    StaleIsFixedAlong(trace, steps, |steps|);
  }

  lemma {:induction false} StaleIsFixedAlong(trace: seq<State>, steps: seq<Step>, i: nat)
    requires IsRun(trace, steps) && i <= |steps|
    ensures trace[i].stale == trace[0].stale
  {
    if i > 0 {
      StaleIsFixedAlong(trace, steps, i - 1);
      assert trace[i] == Do(trace[i - 1], steps[i - 1]);
    }
  }
}

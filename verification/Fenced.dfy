/** Exactly-once, for runs in which the steps the code leaves unfenced happen to be fenced. */
module Fenced {
  import opened Options
  import opened KeyRow
  import opened Protocol
  import opened Accounting

  /** No commit mark and no 5xx DELETE reaches the row of another execution, and no 5xx DELETE follows
      the execution's own commit. Takeovers, clean-ups and all other answers stay unrestricted. */
  predicate IsCommitFenced(s: State, step: Step)
    requires Enabled(s, step)
  {
    match step
    case Publish(p, _) => !s.procs[p].pc.marked && s.row.Some? ==> s.row.value.id == p
    case Store(p) =>
      s.procs[p].pc.response.status >= 500 ==>
        (s.row.Some? ==> s.row.value.id == p) && !s.procs[p].pc.marked
    case _ => true
  }

  /** Besides, no answer is stored on the row of another execution. */
  predicate IsFenced(s: State, step: Step)
    requires Enabled(s, step)
  {
    IsCommitFenced(s, step) && (step.Store? && s.row.Some? ==> s.row.value.id == step.p)
  }

  ghost predicate IsCommitFencedRun(trace: seq<State>, steps: seq<Step>) {
    && IsRun(trace, steps)
    && forall i :: 0 <= i < |steps| ==> IsCommitFenced(trace[i], steps[i])
  }

  ghost predicate IsFencedRun(trace: seq<State>, steps: seq<Step>) {
    && IsRun(trace, steps)
    && forall i :: 0 <= i < |steps| ==> IsFenced(trace[i], steps[i])
  }

  /** Every commit is recorded on the row that is present, by the execution that claimed it. */
  ghost predicate CommittedOnce(s: State) {
    && (s.row.Some? ==> RowSound(s, s.row.value))
    && (Commits(s) != {} ==>
          && s.row.Some?
          && s.row.value.status != Processing
          && Commits(s) == {s.row.value.id})
  }

  lemma StepKeepsCommittedOnce(s: State, step: Step)
    requires Enabled(s, step) && IsCommitFenced(s, step) && CommittedOnce(s)
    ensures CommittedOnce(Do(s, step))
    ensures Commits(s) != {} ==> Commits(Do(s, step)) == Commits(s) && Executions(Do(s, step)) == Executions(s)
  {
    StepKeepsRowSound(s, step);
    StepKeepsSets(s, step);
  }

  lemma {:induction false} RunKeepsCommittedOnce(trace: seq<State>, steps: seq<Step>, i: nat)
    requires IsCommitFencedRun(trace, steps) && CommittedOnce(trace[0]) && i <= |steps|
    ensures CommittedOnce(trace[i])
  {
    if i > 0 {
      RunKeepsCommittedOnce(trace, steps, i - 1);
      StepKeepsCommittedOnce(trace[i - 1], steps[i - 1]);
    }
  }

  /** After a commit no further execution starts, and none commits. */
  lemma {:induction false} CommittedRun(trace: seq<State>, steps: seq<Step>, i: nat, j: nat)
    requires IsCommitFencedRun(trace, steps) && CommittedOnce(trace[0]) && i <= j <= |steps|
    requires Commits(trace[i]) != {}
    ensures Commits(trace[j]) == Commits(trace[i])
    ensures Executions(trace[j]) == Executions(trace[i])
  {
    if i < j {
      CommittedRun(trace, steps, i, j - 1);
      RunKeepsCommittedOnce(trace, steps, j - 1);
      StepKeepsCommittedOnce(trace[j - 1], steps[j - 1]);
    }
  }

  /** At most one execution per key commits, whatever the retries, crashes and takeovers; and once
      one has, no request ever reaches the handler again. */
  lemma AtMostOneCommit(now: int, stale: nat, trace: seq<State>, steps: seq<Step>, i: nat, j: nat)
    requires IsCommitFencedRun(trace, steps) && trace[0] == Init(now, stale) && i <= j <= |steps|
    ensures |Commits(trace[j])| <= 1
    ensures trace[j].row.Some? && trace[j].row.value.status == Processing ==> Commits(trace[j]) == {}
    ensures Commits(trace[i]) != {} ==>
              Commits(trace[j]) == Commits(trace[i]) && Executions(trace[j]) == Executions(trace[i])
  {
    RunKeepsCommittedOnce(trace, steps, j);
    if Commits(trace[i]) != {} {
      CommittedRun(trace, steps, i, j);
    }
  }

  /** A COMPLETED row holds the very answer its execution sent. */
  ghost predicate Once(s: State) {
    && CommittedOnce(s)
    && (s.row.Some? && s.row.value.status == Completed ==>
          s.procs[s.row.value.id].pc.Ended? && s.procs[s.row.value.id].pc.sent == s.row.value.response)
  }

  lemma StepKeepsOnce(s: State, step: Step)
    requires Enabled(s, step) && IsFenced(s, step) && Once(s)
    ensures Once(Do(s, step))
  {
    StepKeepsCommittedOnce(s, step);
  }

  lemma {:induction false} RunKeepsOnce(trace: seq<State>, steps: seq<Step>, i: nat)
    requires IsFencedRun(trace, steps) && Once(trace[0]) && i <= |steps|
    ensures Once(trace[i])
  {
    if i > 0 {
      RunKeepsOnce(trace, steps, i - 1);
      StepKeepsOnce(trace[i - 1], steps[i - 1]);
    }
  }

  /** The row will not change any more: it is past PROCESSING and its execution is over. */
  predicate IsFinal(s: State) {
    && s.row.Some? && s.row.value.status != Processing
    && s.row.value.id in s.procs
    && (s.procs[s.row.value.id].pc.Ended? || s.procs[s.row.value.id].pc.Crashed?)
  }

  /** What a final row answers to a request with this payload hash. */
  function FinalVerdict(row: Row, hash: Hash): Verdict {
    if row.hash.Some? && row.hash.value != hash then Mismatch
    else if row.response.Some? then ReplayStored(row.response.value)
    else ReplayCommitted(row.resource)
  }

  /** A stored response is final, and so is a commit mark whose process died or raised. */
  lemma WhenFinal(s: State)
    requires Once(s) && s.row.Some?
    ensures s.row.value.status == Completed ==> IsFinal(s)
    ensures s.row.value.status == Committed && s.procs[s.row.value.id].pc.Crashed? ==> IsFinal(s)
  {
  }

  /** Request p was answered from the key row between s and t. */
  predicate AnsweredBetween(s: State, t: State, p: Pid) {
    p in t.procs && t.procs[p].pc.Replied? && !(p in s.procs && s.procs[p].pc.Replied?)
  }

  lemma {:induction false} FinalRun(trace: seq<State>, steps: seq<Step>, i: nat, p: Pid)
    requires IsFencedRun(trace, steps) && Once(trace[0]) && IsFinal(trace[0]) && i <= |steps|
    ensures trace[i].row == trace[0].row && IsFinal(trace[i])
    ensures AnsweredBetween(trace[0], trace[i], p) ==>
              trace[i].procs[p].pc.verdict == FinalVerdict(trace[0].row.value, trace[i].procs[p].hash)
  {
    if i > 0 {
      FinalRun(trace, steps, i - 1, p);
      RunKeepsOnce(trace, steps, i - 1);
      var s, step := trace[i - 1], steps[i - 1];
      assert trace[i] == Do(s, step);
      assert step == Read(p) ==> Inspect(s.row, s.procs[p].hash, s.now, s.stale) ==
                                 FinalVerdict(s.row.value, s.procs[p].hash);
    }
  }

  /** Replay fidelity over whole runs: once a response is stored, every later answer given to the
      same payload is the response the one execution sent, and every other payload is refused. */
  lemma ReplayIsStable(now: int, stale: nat, trace: seq<State>, steps: seq<Step>, i: nat, j: nat, p: Pid)
    requires IsFencedRun(trace, steps) && trace[0] == Init(now, stale) && i <= j <= |steps|
    requires trace[i].row.Some? && trace[i].row.value.status == Completed
    requires AnsweredBetween(trace[i], trace[j], p)
    ensures var owner := trace[i].row.value.id;
            && owner in trace[i].procs && trace[i].procs[owner].pc.Ended? && trace[i].procs[owner].pc.sent.Some?
            && trace[j].procs[p].pc.verdict ==
               if trace[j].procs[p].hash == trace[i].procs[owner].hash
               then ReplayStored(trace[i].procs[owner].pc.sent.value)
               else Mismatch
  {
    RunKeepsOnce(trace, steps, i);
    WhenFinal(trace[i]);
    FinalRun(trace[i..], steps[i..], j - i, p);
  }
}

/** Runs the code allows that break the promises of a fenced run. Each breaks the fence at one step, and
    between them they need every clause of it: the commit mark on a foreign row, the 5xx DELETE of a
    foreign row and the 5xx DELETE after the own commit for a second commit, and the storing of an answer
    on a foreign row for a changed replay. Stale window: the default 120 seconds. */
module Unfenced {
  import opened Options
  import opened KeyRow
  import opened Protocol
  import opened Fenced

  /** A run from the start in which every step but the k-th is fenced, ending in `last`. */
  ghost predicate FencedBut(trace: seq<State>, steps: seq<Step>, k: nat, last: State) {
    && IsRun(trace, steps) && trace[0] == Init(0, 120) && trace[|steps|] == last
    && forall i :: 0 <= i < |steps| ==> (i == k <==> !IsFenced(trace[i], steps[i]))
  }

  lemma Extend(trace: seq<State>, steps: seq<Step>, k: nat, last: State, step: Step)
    returns (trace': seq<State>, steps': seq<Step>, last': State)
    requires FencedBut(trace, steps, k, last) && Enabled(last, step)
    requires |steps| == k <==> !IsFenced(last, step)
    ensures last' == Do(last, step) && trace' == trace + [last'] && steps' == steps + [step]
    ensures FencedBut(trace', steps', k, last')
  {
    last' := Do(last, step);
    trace', steps' := trace + [last'], steps + [step];
  }

  /** The first request's handler is still running when its claim has gone stale and the second comes in. */
  lemma ClaimGoesStale(k: nat) returns (trace: seq<State>, steps: seq<Step>, s: State)
    requires k >= 4
    ensures FencedBut(trace, steps, k, s) && |steps| == 4
    ensures s == State(
              Some(Row(1, Some(7), 0, Processing, None, None)),
              map[1 := Proc(7, 0, 0, 0, Running(false)), 2 := Proc(7, 0, 0, 0, Arrived)],
              121, 120, 0, {})
  {
    trace, steps, s := [Init(0, 120)], [], Init(0, 120);
    trace, steps, s := Extend(trace, steps, k, s, Arrive(1, 7));
    assert Commits(s) == {};
    trace, steps, s := Extend(trace, steps, k, s, TryInsert(1));
    trace, steps, s := Extend(trace, steps, k, s, Arrive(2, 7));
    trace, steps, s := Extend(trace, steps, k, s, Tick(121));
  }

  /** The second request takes over that claim. */
  lemma SlowClaimTakenOver(k: nat) returns (trace: seq<State>, steps: seq<Step>, s: State)
    requires k >= 8
    ensures FencedBut(trace, steps, k, s) && |steps| == 8
    ensures s == State(
              Some(Row(2, Some(7), 121, Processing, None, None)),
              map[1 := Proc(7, 0, 0, 0, Running(false)), 2 := Proc(7, 0, 1, 121, Running(false))],
              121, 120, 1, {})
  {
    trace, steps, s := ClaimGoesStale(k);
    trace, steps, s := Extend(trace, steps, k, s, TryInsert(2));
    trace, steps, s := Extend(trace, steps, k, s, Read(2));
    trace, steps, s := Extend(trace, steps, k, s, TakeOver(2));
    assert Commits(s) == {};
    trace, steps, s := Extend(trace, steps, k, s, TryInsert(2));
  }

  /** An execution that outlived its claim commits onto the row of the one that took over. */
  lemma OutlivedClaimCommitsTwice() returns (trace: seq<State>, steps: seq<Step>, s: State)
    ensures FencedBut(trace, steps, 8, s) && |steps| > 8 && steps[8] == Publish(1, None)
    ensures !IsCommitFenced(trace[8], steps[8])
    ensures Commits(s) == {1, 2}
  {
    trace, steps, s := SlowClaimTakenOver(8);
    trace, steps, s := Extend(trace, steps, 8, s, Publish(1, None));
    trace, steps, s := Extend(trace, steps, 8, s, Publish(2, None));
  }

  /** An uncommitted execution that outlived its claim answers 5xx and deletes a committed row. */
  lemma OutlivedClaimDeletesCommit() returns (trace: seq<State>, steps: seq<Step>, s: State)
    ensures FencedBut(trace, steps, 10, s) && |steps| > 10 && steps[10] == Store(1)
    ensures !IsCommitFenced(trace[10], steps[10]) && !trace[10].procs[1].pc.marked
    ensures trace[10].row.Some? && trace[10].row.value.id == 2 && Commits(trace[10]) == {2}
    ensures Commits(s) == {2, 3}
  {
    trace, steps, s := SlowClaimTakenOver(10);
    trace, steps, s := Extend(trace, steps, 10, s, Publish(2, None));
    trace, steps, s := Extend(trace, steps, 10, s, Answer(1, Response(500, "", None)));
    assert Commits(s) == {2};
    trace, steps, s := Extend(trace, steps, 10, s, Store(1));
    trace, steps, s := ThirdCommits(trace, steps, 10, s);
  }

  /** A committed execution is about to answer 500. */
  lemma FailsAfterCommit() returns (trace: seq<State>, steps: seq<Step>, s: State)
    ensures FencedBut(trace, steps, 4, s) && |steps| == 4
    ensures s == State(
              Some(Row(1, Some(7), 0, Committed, None, None)),
              map[1 := Proc(7, 0, 0, 0, Answering(true, Response(500, "", None)))],
              0, 120, 0, {})
  {
    trace, steps, s := [Init(0, 120)], [], Init(0, 120);
    trace, steps, s := Extend(trace, steps, 4, s, Arrive(1, 7));
    assert Commits(s) == {};
    trace, steps, s := Extend(trace, steps, 4, s, TryInsert(1));
    trace, steps, s := Extend(trace, steps, 4, s, Publish(1, None));
    trace, steps, s := Extend(trace, steps, 4, s, Answer(1, Response(500, "", None)));
  }

  /** A committed execution that answers 5xx deletes its own row, and the retry commits again. */
  lemma ServerErrorAfterCommitReexecutes() returns (trace: seq<State>, steps: seq<Step>, s: State)
    ensures FencedBut(trace, steps, 4, s) && |steps| > 4 && steps[4] == Store(1)
    ensures !IsCommitFenced(trace[4], steps[4]) && trace[4].procs[1].pc.marked
    ensures trace[4].row.Some? && trace[4].row.value.id == 1 && Commits(trace[4]) == {1}
    ensures Commits(s) == {1, 3}
  {
    trace, steps, s := FailsAfterCommit();
    assert Commits(s) == {1};
    trace, steps, s := Extend(trace, steps, 4, s, Store(1));
    trace, steps, s := ThirdCommits(trace, steps, 4, s);
  }

  /** With the row gone, request 3 claims and commits. */
  lemma ThirdCommits(trace: seq<State>, steps: seq<Step>, k: nat, s: State)
    returns (trace': seq<State>, steps': seq<Step>, s': State)
    requires FencedBut(trace, steps, k, s) && k < |steps|
    requires s.row.None? && 3 !in s.procs
    ensures FencedBut(trace', steps', k, s') && trace <= trace' && steps <= steps'
    ensures Commits(s') == Commits(s) + {3}
  {
    trace', steps', s' := Extend(trace, steps, k, s, Arrive(3, 7));
    trace', steps', s' := Extend(trace', steps', k, s', TryInsert(3));
    trace', steps', s' := Extend(trace', steps', k, s', Publish(3, None));
  }

  /** The second request has stored its answer, and the first, which outlived its claim, is about to. */
  lemma TwoAnswers() returns (trace: seq<State>, steps: seq<Step>, s: State)
    ensures FencedBut(trace, steps, 15, s) && |steps| == 12
    ensures s == State(
              Some(Row(2, Some(7), 121, Completed, Some(Response(201, "one", None)), None)),
              map[1 := Proc(7, 0, 0, 0, Answering(false, Response(409, "two", None))),
                  2 := Proc(7, 0, 1, 121, Ended(true, Some(Response(201, "one", None))))],
              121, 120, 1, {})
  {
    trace, steps, s := SlowClaimTakenOver(15);
    trace, steps, s := Extend(trace, steps, 15, s, Publish(2, None));
    trace, steps, s := Extend(trace, steps, 15, s, Answer(2, Response(201, "one", None)));
    trace, steps, s := Extend(trace, steps, 15, s, Store(2));
    trace, steps, s := Extend(trace, steps, 15, s, Answer(1, Response(409, "two", None)));
  }

  /** An execution that outlived its claim stores its answer over the one already replayed: request 3
      gets one answer and request 4, with the same payload, another. */
  lemma OutlivedClaimOverwritesAnswer() returns (trace: seq<State>, steps: seq<Step>, s: State)
    ensures FencedBut(trace, steps, 15, s) && |steps| > 15 && steps[15] == Store(1)
    ensures IsCommitFencedRun(trace, steps)
    ensures trace[15].row.Some? && trace[15].row.value.status == Completed
    ensures 3 in s.procs && s.procs[3].hash == 7 && s.procs[3].pc == Replied(ReplayStored(Response(201, "one", None)))
    ensures 4 in s.procs && s.procs[4].hash == 7 && s.procs[4].pc == Replied(ReplayStored(Response(409, "two", None)))
  {
    trace, steps, s := TwoAnswers();
    trace, steps, s := Asks(trace, steps, 15, s, 3);
    trace, steps, s := Extend(trace, steps, 15, s, Store(1));
    trace, steps, s := Asks(trace, steps, 15, s, 4);
  }

  /** A request with the same payload is answered from the stored row. */
  lemma Asks(trace: seq<State>, steps: seq<Step>, k: nat, s: State, p: Pid)
    returns (trace': seq<State>, steps': seq<Step>, s': State)
    requires FencedBut(trace, steps, k, s) && (|steps| + 3 <= k || k < |steps|)
    requires s.row.Some? && s.row.value.status == Completed && s.row.value.hash == Some(7)
    requires s.row.value.response.Some? && p !in s.procs
    ensures FencedBut(trace', steps', k, s') && trace <= trace' && steps <= steps' && |steps'| == |steps| + 3
    ensures s' == s.(procs := s.procs[p := Proc(7, s.now, 0, s.now, Replied(ReplayStored(s.row.value.response.value)))])
  {
    trace', steps', s' := Extend(trace, steps, k, s, Arrive(p, 7));
    trace', steps', s' := Extend(trace', steps', k, s', TryInsert(p));
    trace', steps', s' := Extend(trace', steps', k, s', Read(p));
    assert s.procs[p := Proc(7, s.now, 0, s.now, Arrived)][p := Proc(7, s.now, 0, s.now, Conflicted)]
             [p := s'.procs[p]] == s.procs[p := s'.procs[p]];
  }
}

/** The claim, takeover, commit and settle protocol on one idempotency key, as a state machine.

    Any number of requests interleave at the granularity of the SQL transactions the code runs.
    The commit mark is published together with the business effect, because both are one
    transaction. Any process may die between any two steps. */
module Protocol {
  import opened Options
  import opened KeyRow

  /** Request identifiers. A request inserts at most one row, and the row carries its identifier
      (in the code: the fresh uuid4 of the INSERT). */
  type Pid = nat

  datatype Pc =
    | Arrived                                   // about to INSERT the claim
    | Conflicted                                // INSERT hit an existing row, about to SELECT it
    | TakingOver(sawAt: int)                    // read a stale PROCESSING row, about to DELETE
    | Running(marked: bool)                     // owns a claim, the handler is under way
    | Raising(marked: bool)                     // the handler raised, clean-up DELETE pending
    | Answering(marked: bool, response: Response) // the handler answered, settle pending
    | Ended(marked: bool, sent: Option<Response>) // answered `sent`, or re-raised
    | Crashed(marked: bool)
    | Replied(verdict: Verdict)                 // answered without executing
    | Gone                                      // died, or answered 503, without executing

  datatype Proc = Proc(hash: Hash, arrivedAt: int, depth: nat, lastTakeover: int, pc: Pc)

  /** `deletions` counts statements that really removed the row; `commitsBefore` is the set of
      executions already committed when the present row was inserted. Both are history only. */
  datatype State = State(
    row: Option<Row>,
    procs: map<Pid, Proc>,
    now: int,
    stale: nat,
    deletions: nat,
    commitsBefore: set<Pid>)

  datatype Step =
    | Arrive(p: Pid, hash: Hash)
    | Tick(d: nat)
    | TryInsert(p: Pid)
    | Read(p: Pid)
    | TakeOver(p: Pid)
    | Publish(p: Pid, resource: Option<Resource>)
    | Raise(p: Pid)
    | CleanUp(p: Pid)
    | Answer(p: Pid, response: Response)
    | Store(p: Pid)
    | Crash(p: Pid)

  predicate IsExecution(pc: Pc) {
    pc.Running? || pc.Raising? || pc.Answering? || pc.Ended? || pc.Crashed?
  }

  predicate IsCommitted(pc: Pc) {
    IsExecution(pc) && pc.marked
  }

  function Executions(s: State): set<Pid> {
    set p | p in s.procs && IsExecution(s.procs[p].pc)
  }

  function Commits(s: State): set<Pid> {
    set p | p in s.procs && IsCommitted(s.procs[p].pc)
  }

  /** Executions that are over and never committed. */
  function Abandoned(s: State): set<Pid> {
    set p | p in s.procs && (s.procs[p].pc.Ended? || s.procs[p].pc.Crashed?) && !s.procs[p].pc.marked
  }

  predicate At(s: State, p: Pid, pc: Pc) {
    p in s.procs && s.procs[p].pc == pc
  }

  predicate Enabled(s: State, step: Step) {
    match step
    case Arrive(p, _) => p !in s.procs
    case Tick(_) => true
    case TryInsert(p) => At(s, p, Arrived)
    case Read(p) => At(s, p, Conflicted)
    case TakeOver(p) => p in s.procs && s.procs[p].pc.TakingOver?
    case Publish(p, _) => p in s.procs && s.procs[p].pc.Running?
    case Raise(p) => p in s.procs && s.procs[p].pc.Running?
    case CleanUp(p) => p in s.procs && s.procs[p].pc.Raising?
    case Answer(p, _) => p in s.procs && s.procs[p].pc.Running?
    case Store(p) => p in s.procs && s.procs[p].pc.Answering?
    case Crash(p) => p in s.procs && !s.procs[p].pc.Ended? && !s.procs[p].pc.Crashed? &&
                     !s.procs[p].pc.Replied? && !s.procs[p].pc.Gone?
  }

  function Goto(s: State, p: Pid, pc: Pc): State
    requires p in s.procs
  {
    s.(procs := s.procs[p := s.procs[p].(pc := pc)])
  }

  /** Replaces the row, counting an effective removal. */
  function WithRow(s: State, row: Option<Row>): State {
    s.(row := row, deletions := s.deletions + if s.row.Some? && row.None? then 1 else 0)
  }

  function Do(s: State, step: Step): State
    requires Enabled(s, step)
  {
    match step
    case Arrive(p, h) => s.(procs := s.procs[p := Proc(h, s.now, 0, s.now, Arrived)])
    case Tick(d) => s.(now := s.now + d)
    case TryInsert(p) =>
      if s.row.Some? then Goto(s, p, Conflicted)
      else Goto(s, p, Running(false)).(row := Insert(s.row, p, s.procs[p].hash, s.now),
                                       commitsBefore := Commits(s))
    case Read(p) =>
      var verdict := Inspect(s.row, s.procs[p].hash, s.now, s.stale);
      if verdict.StaleClaim? then Goto(s, p, TakingOver(s.now))
      else Goto(s, p, Replied(verdict))
    case TakeOver(p) =>
      var q := s.procs[p];
      WithRow(s.(procs := s.procs[p := q.(depth := q.depth + 1, lastTakeover := s.now, pc := Arrived)]),
              DeleteProcessing(s.row))
    case Publish(p, r) =>
      // A session that has marked does not mark again; a lost claim aborts the transaction.
      if s.procs[p].pc.marked || s.row.None? then s
      else WithRow(Goto(s, p, Running(true)), Mark(s.row, r))
    case Raise(p) => Goto(s, p, Raising(s.procs[p].pc.marked))
    case CleanUp(p) => WithRow(Goto(s, p, Ended(s.procs[p].pc.marked, None)), DeleteProcessing(s.row))
    case Answer(p, r) => Goto(s, p, Answering(s.procs[p].pc.marked, r))
    case Store(p) =>
      var pc := s.procs[p].pc;
      WithRow(Goto(s, p, Ended(pc.marked, Some(pc.response))), Settle(s.row, pc.response))
    case Crash(p) =>
      Goto(s, p, if IsExecution(s.procs[p].pc) then Crashed(s.procs[p].pc.marked) else Gone)
  }

  function Init(now: int, stale: nat): State {
    State(None, map[], now, stale, 0, {})
  }

  /** Nothing schedules the requests: each may take its next step at any time, or die first, which leaves the
      row as it is. Requests may come in and time may pass whatever is under way. */
  lemma AnythingMayHappen(s: State, p: Pid)
    ensures Enabled(s, Tick(1)) && (p !in s.procs ==> Enabled(s, Arrive(p, 0)))
    ensures p in s.procs ==>
              match s.procs[p].pc
              case Arrived => Enabled(s, TryInsert(p)) && MayDie(s, p)
              case Conflicted => Enabled(s, Read(p)) && MayDie(s, p)
              case TakingOver(_) => Enabled(s, TakeOver(p)) && MayDie(s, p)
              case Running(_) =>
                && Enabled(s, Publish(p, None)) && Enabled(s, Raise(p)) && MayDie(s, p)
                && forall response :: Enabled(s, Answer(p, response))
              case Raising(_) => Enabled(s, CleanUp(p)) && MayDie(s, p)
              case Answering(_, _) => Enabled(s, Store(p)) && MayDie(s, p)
              case _ => !Enabled(s, Crash(p))
  {
  }

  /** The death of a process is a step that leaves the row and all other processes alone. */
  predicate MayDie(s: State, p: Pid) {
    && Enabled(s, Crash(p)) && Do(s, Crash(p)).row == s.row
    && Do(s, Crash(p)).procs - {p} == s.procs - {p}
  }

  /** A run: states and the steps between them. */
  ghost predicate IsRun(trace: seq<State>, steps: seq<Step>) {
    && |trace| == |steps| + 1
    && forall i :: 0 <= i < |steps| ==> Enabled(trace[i], steps[i]) && trace[i + 1] == Do(trace[i], steps[i])
  }

  ghost predicate Reaches(s: State, t: State) {
    exists trace, steps :: IsRun(trace, steps) && trace[0] == s && trace[|steps|] == t
  }

  lemma StayPut(s: State)
    ensures Reaches(s, s)
  {
    assert IsRun([s], []) && [s][0] == s;
  }

  lemma OneMore(s: State, t: State, step: Step)
    requires Reaches(s, t) && Enabled(t, step)
    ensures Reaches(s, Do(t, step))
  {
    var trace, steps :| IsRun(trace, steps) && trace[0] == s && trace[|steps|] == t;
    var trace', steps' := trace + [Do(t, step)], steps + [step];
    assert IsRun(trace', steps') && trace'[0] == s && trace'[|steps'|] == Do(t, step);
  }

  lemma ReachesOn(s: State, t: State, u: State)
    requires Reaches(s, t) && Reaches(t, u)
    ensures Reaches(s, u)
  {
    var first, steps :| IsRun(first, steps) && first[0] == s && first[|steps|] == t;
    var second, more :| IsRun(second, more) && second[0] == t && second[|more|] == u;
    JoinRuns(first, steps, second, more);
  }

  lemma JoinRuns(first: seq<State>, steps: seq<Step>, second: seq<State>, more: seq<Step>)
    requires IsRun(first, steps) && IsRun(second, more) && first[|steps|] == second[0]
    ensures IsRun(first + second[1..], steps + more)
    ensures (first + second[1..])[0] == first[0] && (first + second[1..])[|steps + more|] == second[|more|]
  {
    var trace, all := first + second[1..], steps + more;
    forall i | 0 <= i < |all|
      ensures Enabled(trace[i], all[i]) && trace[i + 1] == Do(trace[i], all[i])
    {
      if i < |steps| {
        assert trace[i] == first[i] && trace[i + 1] == first[i + 1] && all[i] == steps[i];
      } else {
        var k := i - |steps|;
        assert trace[i] == second[k] && trace[i + 1] == second[k + 1] && all[i] == more[k];
      }
    }
  }
}

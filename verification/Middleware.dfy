/** IdempotencyMiddleware.dispatch for one request at a time, from the claim onwards. */
module Middleware {
  import opened Options
  import opened KeyRow
  import opened CommitMarker
  import P = Protocol
  import Accounting

  /** What the wrapped application does with a request: whether its business transaction commits,
      the objects in that session, and how the call ends. */
  datatype Handler = Handler(commits: bool, preferred: Option<Entity>, added: seq<Entity>, outcome: Outcome)

  datatype Outcome = Raises | Answers(response: Response)

  /** Unavailable is the 503 that says the request was not executed. */
  datatype Reply = FromHandler(response: Response) | FromRow(verdict: Verdict) | Reraised | Unavailable

  /** The row afterwards, what the client gets, and whether the handler ran. */
  datatype Served = Served(row: Option<Row>, reply: Reply, executed: bool)

  /** The handler under a claim, then clean-up or settling. */
  function Execute(row: Option<Row>, h: Handler): Served {
    var after := if h.commits then Mark(row, Chosen(h.preferred, h.added)) else row;
    match h.outcome
    case Raises => Served(DeleteProcessing(after), Reraised, true)
    case Answers(response) => Served(Settle(after, response), FromHandler(response), true)
  }

  /** One dispatch with nobody else at the key. */
  function Alone(row: Option<Row>, id: nat, hash: Hash, now: int, stale: nat, h: Handler): Served
    decreases if row.Some? then 1 else 0
  {
    if row.None? then Execute(Insert(None, id, hash, now), h)
    else
      var verdict := Inspect(row, hash, now, stale);
      if verdict.StaleClaim? then
        // The dispatch started anew runs inside the claim's try block, which takes in its exceptions.
        var again := Alone(DeleteProcessing(row), id, hash, now, stale, h);
        if again.reply.Reraised? then again.(reply := Unavailable) else again
      else Served(row, FromRow(verdict), false)
  }

  class IdempotencyMiddleware {
    const keys: KeyTable
    const staleSeconds: nat

    constructor (keys: KeyTable, staleSeconds: nat)
      ensures this.keys == keys && this.staleSeconds == staleSeconds
    {
      this.keys, this.staleSeconds := keys, staleSeconds;
    }

    method Dispatch(k: ClaimKey, id: nat, hash: Hash, now: int, h: Handler)
      returns (reply: Reply, executed: bool)
      modifies keys
      decreases if k in keys.rows then 1 else 0
      ensures Served(RowAt(keys.rows, k), reply, executed) ==
              Alone(RowAt(old(keys.rows), k), id, hash, now, staleSeconds, h)
      ensures keys.rows - {k} == old(keys.rows) - {k}
    {
      var ownsRecord := false;
      var inserted := keys.InsertClaim(k, id, hash, now);
      if !inserted {
        var existing := keys.rows[k];
        if existing.status == Processing {
          if now - existing.createdAt > staleSeconds {
            keys.DeleteIfProcessing(k);
            reply, executed := Dispatch(k, id, hash, now, h);
            if reply.Reraised? {
              reply := Unavailable;
            }
            return;
          }
          return FromRow(InProgress), false;
        }
        if existing.hash.Some? && existing.hash.value != hash {
          return FromRow(Mismatch), false;
        }
        if existing.status == Committed {
          if existing.response.Some? {
            return FromRow(ReplayStored(existing.response.value)), false;
          }
          return FromRow(ReplayCommitted(existing.resource)), false;
        }
        if existing.status == Completed && existing.response.Some? {
          return FromRow(ReplayStored(existing.response.value)), false;
        }
        return FromRow(InProgress), false;
      }
      ownsRecord := true;
      executed := true;
      CallNext(k, h);
      if h.outcome.Raises? {
        if ownsRecord {
          keys.DeleteIfProcessing(k);
        }
        reply := Reraised;
      } else {
        if ownsRecord {
          keys.StoreOutcome(k, h.outcome.response);
        }
        reply := FromHandler(h.outcome.response);
      }
    }

    /** The business transaction of the handler, with this request's claim in flight. */
    method CallNext(k: ClaimKey, h: Handler)
      requires k in keys.rows
      modifies keys
      ensures keys.rows == if h.commits
                           then PutRow(old(keys.rows), k,
                                       Mark(RowAt(old(keys.rows), k), Chosen(h.preferred, h.added)))
                           else old(keys.rows)
    {
      if h.commits {
        var session := new BusinessSession(false, h.preferred, h.added);
        var lost := session.AfterFlush(keys, Some(k), true);
      }
    }
  }

  /** A lone request runs the handler exactly when there is no row or a stale PROCESSING one,
      whatever payload that abandoned claim carried. */
  lemma LoneRequestExecutesIff(row: Option<Row>, id: nat, hash: Hash, now: int, stale: nat, h: Handler)
    ensures Alone(row, id, hash, now, stale, h).executed <==>
            row.None? || (row.value.status == Processing && now - row.value.createdAt > stale)
  {
  }

  predicate IsReplay(verdict: Verdict) {
    verdict.ReplayStored? || verdict.ReplayCommitted?
  }

  /** A lone request is turned away with 409 exactly while a PROCESSING row is within the stale window, or
      on a COMPLETED row of its payload without a response, which no run reaches. Otherwise the handler
      runs, the row is replayed, or another payload is refused. */
  lemma LoneRequestConflictsIff(row: Option<Row>, id: nat, hash: Hash, now: int, stale: nat, h: Handler)
    ensures var served := Alone(row, id, hash, now, stale, h);
            && (served.reply == FromRow(InProgress) <==>
                  row.Some? &&
                  if row.value.status == Processing then now - row.value.createdAt <= stale
                  else row.value.status == Completed && row.value.response.None? && row.value.hash.GetOr(hash) == hash)
            && (served.reply == FromRow(Mismatch) <==>
                  row.Some? && row.value.status != Processing && row.value.hash.Some? && row.value.hash.value != hash)
            && (!served.executed && row.value.hash == Some(hash) && served.reply != FromRow(InProgress) ==>
                  served.reply.FromRow? && IsReplay(served.reply.verdict))
  {
  }

  /** After one lone execution, a retry with the same payload executes again exactly when the first
      answered 5xx, committed or not, or raised without committing. Otherwise it replays the answer,
      or, if the handler raised after committing, names the resource the commit recorded. */
  lemma RetryExecutesAgainIff(id: nat, hash: Hash, now: int, h: Handler,
                              id': nat, now': int, stale: nat, h': Handler)
    ensures var first := Alone(None, id, hash, now, stale, h);
            var retry := Alone(first.row, id', hash, now', stale, h');
            && first.executed
            && (retry.executed <==>
                  if h.outcome.Raises? then !h.commits else h.outcome.response.status >= 500)
            && (!retry.executed ==>
                  && retry.row == first.row
                  && retry.reply == FromRow(if h.outcome.Raises? then ReplayCommitted(Chosen(h.preferred, h.added))
                                            else ReplayStored(h.outcome.response)))
  {
  }

  /** With the database at hand, a lone request is answered that it was not executed if and only if the row it met
      was a stale PROCESSING one and its handler raised. It always was executed, and if its transaction committed,
      the row says so and a retry is told. */
  lemma UnavailableIff(row: Option<Row>, id: nat, hash: Hash, now: int, stale: nat, h: Handler)
    ensures var served := Alone(row, id, hash, now, stale, h);
            && (served.reply == Unavailable <==>
                  h.outcome.Raises? && row.Some? && row.value.status == Processing && now - row.value.createdAt > stale)
            && (served.reply == Unavailable ==> served.executed)
            && (served.reply == Unavailable && h.commits ==> served.row.Some? && served.row.value.status == Committed)
  {
  }

  /** How a lone dispatch ends in the protocol, where an exception of the handler is an end without answer. */
  function EndOf(served: Served, committed: bool): P.Pc {
    match served.reply
    case FromHandler(response) => P.Ended(committed, Some(response))
    case Reraised => P.Ended(committed, None)
    case Unavailable => P.Ended(committed, None)
    case FromRow(verdict) => P.Replied(verdict)
  }

  /** A lone dispatch is a run of the interleaving protocol, with the same row and the same answer,
      so whatever holds of all runs holds of the code above. */
  lemma LoneDispatchIsRun(s: P.State, p: P.Pid, hash: Hash, h: Handler) returns (t: P.State)
    requires p !in s.procs
    ensures P.Reaches(s, t)
    ensures var served := Alone(s.row, p, hash, s.now, s.stale, h);
            && t.row == served.row && p in t.procs && t.procs[p].pc == EndOf(served, h.commits)
            && (served.reply == Unavailable <==> t.procs[p].pc == P.Ended(h.commits, None) && t.procs[p].depth > 0)
  {
    P.StayPut(s);
    t := Advance(s, s, P.Arrive(p, hash));
    if s.row.Some? {
      t := Advance(s, t, P.TryInsert(p));
      t := Advance(s, t, P.Read(p));
      if t.procs[p].pc.TakingOver? {
        t := Advance(s, t, P.TakeOver(p));
        t := ClaimIsRun(s, t, p, h);
      }
    } else {
      t := ClaimIsRun(s, t, p, h);
    }
  }

  /** A request that meets no row claims it and runs its handler. */
  lemma ClaimIsRun(s: P.State, t: P.State, p: P.Pid, h: Handler) returns (u: P.State)
    requires P.Reaches(s, t) && t.row.None? && P.At(t, p, P.Arrived)
    ensures var served := Execute(Insert(None, p, t.procs[p].hash, t.now), h);
            && P.Reaches(s, u) && u.row == served.row && p in u.procs
            && u.procs[p].depth == t.procs[p].depth && u.procs[p].pc == EndOf(served, h.commits)
  {
    var claimed := Advance(s, t, P.TryInsert(p));
    u := ExecuteIsRun(s, claimed, p, h);
  }

  lemma Advance(s: P.State, t: P.State, step: P.Step) returns (u: P.State)
    requires P.Reaches(s, t) && P.Enabled(t, step)
    ensures P.Reaches(s, u) && u == P.Do(t, step)
  {
    P.OneMore(s, t, step);
    u := P.Do(t, step);
  }

  lemma ExecuteIsRun(s: P.State, t: P.State, p: P.Pid, h: Handler) returns (u: P.State)
    requires P.Reaches(s, t) && t.row.Some? && P.At(t, p, P.Running(false))
    ensures P.Reaches(s, u) && u.row == Execute(t.row, h).row && p in u.procs && u.procs[p].depth == t.procs[p].depth
    ensures p in u.procs && u.procs[p].pc == EndOf(Execute(t.row, h), h.commits)
  {
    u := t;
    if h.commits {
      u := Advance(s, u, P.Publish(p, Chosen(h.preferred, h.added)));
    }
    if h.outcome.Raises? {
      u := Advance(s, u, P.Raise(p));
      u := Advance(s, u, P.CleanUp(p));
    } else {
      u := Advance(s, u, P.Answer(p, h.outcome.response));
      u := Advance(s, u, P.Store(p));
    }
  }

  /** No key is ever wedged: in any state any run reaches, a lone request is turned away with 409 only
      while a PROCESSING row is inside the stale window; and with the payload of that row it otherwise
      executes or replays. What it does is itself a run from there. */
  lemma NoWedgedKey(start: int, stale: nat, s: P.State, p: P.Pid, hash: Hash, h: Handler) returns (t: P.State)
    requires P.Reaches(P.Init(start, stale), s) && p !in s.procs
    ensures P.Reaches(s, t) && p in t.procs
    ensures t.procs[p].pc == P.Replied(InProgress) <==>
              s.row.Some? && s.row.value.status == Processing && s.now - s.row.value.createdAt <= s.stale
    ensures s.row.Some? && s.row.value.hash == Some(hash) && t.procs[p].pc != P.Replied(InProgress) ==>
              t.procs[p].pc.Ended? ||
              (t.procs[p].pc.Replied? && IsReplay(t.procs[p].pc.verdict))
  {
    Accounting.ReachableIsConsistent(start, stale, s);
    t := LoneDispatchIsRun(s, p, hash, h);
    LoneRequestConflictsIff(s.row, p, hash, s.now, s.stale, h);
  }
}

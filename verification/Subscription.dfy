/** The subscription guard, which advances the status lazily, on the requests it judges. */
module Subscription {
  import opened Options

  datatype Status = Trialing | PastDue | Suspended | Cancelled | Other(name: string)

  /** Times and durations are in one unit; `graceDays` is grace_period_days in that unit. */
  datatype Record = Record(
    status: Status,
    trialEnd: Option<int>,
    graceEnd: Option<int>,
    graceDays: int,
    periodEnd: Option<int>)

  predicate Before(t: Option<int>, now: int) {
    t.Some? && t.value < now
  }

  /** trial_end to grace_period_end if the latter is already set, else the default days. */
  function GraceLength(r: Record): int
    requires r.trialEnd.Some?
  {
    if r.graceEnd.Some? then r.graceEnd.value - r.trialEnd.value else r.graceDays
  }

  /** One request at time `now`: the record afterwards and whether it was let through. */
  function Judge(r: Record, now: int): (Record, bool) {
    match r.status
    case Suspended => (r, false)
    case Cancelled => (r, !Before(r.periodEnd, now))
    case PastDue => if Before(r.graceEnd, now) then (r.(status := Suspended), false) else (r, true)
    case Trialing =>
      if Before(r.trialEnd, now) then
        var end := Some(now + GraceLength(r));
        (r.(status := PastDue, graceEnd := end, periodEnd := end), false)
      else (r, true)
    case Other(_) => (r, true)
  }

  class TenantSubscription {
    var status: Status
    var trialEnd: Option<int>
    var graceEnd: Option<int>
    var graceDays: int
    var periodEnd: Option<int>
    var commits: nat

    function Fields(): Record reads this {
      Record(status, trialEnd, graceEnd, graceDays, periodEnd)
    }

    constructor (r: Record)
      ensures Fields() == r && commits == 0
    {
      status, trialEnd, graceEnd := r.status, r.trialEnd, r.graceEnd;
      graceDays, periodEnd, commits := r.graceDays, r.periodEnd, 0;
    }

    /** The guard of a tenant with a record. The row is written exactly when the status moves. */
    method RequireActive(now: int) returns (allowed: bool)
      modifies this
      ensures (Fields(), allowed) == Judge(old(Fields()), now)
      ensures commits == old(commits) + if status != old(status) then 1 else 0
      ensures status == old(status) ==> Fields() == old(Fields())
    {
      if status == Suspended {
        return false;
      }
      if status == Cancelled {
        if periodEnd.Some? && periodEnd.value < now {
          return false;
        }
      }
      if status == PastDue {
        if graceEnd.Some? && graceEnd.value < now {
          status := Suspended;
          commits := commits + 1;
          return false;
        }
      }
      if status == Trialing {
        if trialEnd.Some? && trialEnd.value < now {
          status := PastDue;
          var graceLength := if graceEnd.Some? then graceEnd.value - trialEnd.value else graceDays;
          graceEnd := Some(now + graceLength);
          periodEnd := graceEnd;
          commits := commits + 1;
          return false;
        }
      }
      return true;
    }
  }

  /** The guard of a request: a tenant without a subscription record is on the free tier. */
  method RequireActiveSubscription(sub: TenantSubscription?, now: int) returns (allowed: bool)
    modifies if sub == null then {} else {sub}
    ensures sub == null ==> allowed
    ensures sub != null ==> (sub.Fields(), allowed) == Judge(old(sub.Fields()), now)
  {
    if sub == null {
      return true;
    }
    allowed := sub.RequireActive(now);
  }

  /** A run of requests: the verdicts, and the record at the end. */
  function Verdicts(r: Record, times: seq<int>): seq<bool>
    decreases |times|
  {
    if times == [] then [] else [Judge(r, times[0]).1] + Verdicts(Judge(r, times[0]).0, times[1..])
  }

  function After(r: Record, times: seq<int>): Record
    decreases |times|
  {
    if times == [] then r else After(Judge(r, times[0]).0, times[1..])
  }

  predicate NonDecreasing(times: seq<int>) {
    forall i, j :: 0 <= i < j < |times| ==> times[i] <= times[j]
  }

  /** The first request after the trial's end, if any. */
  function FirstAfter(end: int, times: seq<int>): nat {
    if times == [] || times[0] > end then 0 else 1 + FirstAfter(end, times[1..])
  }

  lemma {:induction false} FirstAfterIsFirst(end: int, times: seq<int>)
    ensures FirstAfter(end, times) <= |times|
    ensures forall i :: 0 <= i < FirstAfter(end, times) ==> times[i] <= end
    ensures FirstAfter(end, times) < |times| ==> times[FirstAfter(end, times)] > end
  {
    if times != [] && times[0] <= end {
      FirstAfterIsFirst(end, times[1..]);
    }
  }

  /** Past due until time `end`: let through up to it, refused ever after. */
  lemma {:induction false} PastDueVerdicts(r: Record, end: int, times: seq<int>, i: nat)
    requires r.status == PastDue && r.graceEnd == Some(end) && NonDecreasing(times) && i < |times|
    ensures |Verdicts(r, times)| == |times| && Verdicts(r, times)[i] == (times[i] <= end)
  {
    if times[0] > end {
      SuspendedVerdicts(r.(status := Suspended), times[1..]);
    } else if i > 0 {
      PastDueVerdicts(r, end, times[1..], i - 1);
    } else if |times| > 1 {
      PastDueVerdicts(r, end, times[1..], 0);
    }
  }

  lemma {:induction false} SuspendedVerdicts(r: Record, times: seq<int>)
    requires r.status == Suspended
    ensures |Verdicts(r, times)| == |times| && forall i :: 0 <= i < |times| ==> !Verdicts(r, times)[i]
  {
    if times != [] {
      SuspendedVerdicts(r, times[1..]);
    }
  }

  /** The lazily advanced guard is a closed form of the request times alone. Trial to T, grace g: up to
      T every request passes; the first later one, at f, is refused; those up to f + g pass; all later
      ones are refused. */
  lemma {:induction false} GuardIsClosedForm(r: Record, times: seq<int>, i: nat)
    requires r.status == Trialing && r.trialEnd.Some? && NonDecreasing(times) && i < |times|
    ensures |Verdicts(r, times)| == |times|
    ensures var first := FirstAfter(r.trialEnd.value, times);
            Verdicts(r, times)[i] <==>
              i < first ||
              (first < i && times[i] <= times[first] + if r.graceEnd.Some? then r.graceEnd.value - r.trialEnd.value
                                                       else r.graceDays)
  {
    var end := r.trialEnd.value;
    FirstAfterIsFirst(end, times);
    if times[0] > end {
      if |times| > 1 {
        PastDueVerdicts(Judge(r, times[0]).0, times[0] + GraceLength(r), times[1..], if i > 0 then i - 1 else 0);
      }
    } else if i > 0 {
      GuardIsClosedForm(r, times[1..], i - 1);
    } else if |times| > 1 {
      GuardIsClosedForm(r, times[1..], 0);
    }
  }

  /** And the record it leaves once the trial has lapsed at f: the grace period, and with it the current one,
      ends at f + g, and the status is past due up to then and suspended after. */
  lemma {:induction false} RecordIsClosedForm(r: Record, times: seq<int>)
    requires r.status == Trialing && r.trialEnd.Some? && NonDecreasing(times)
    ensures FirstAfter(r.trialEnd.value, times) <= |times|
    ensures var first := FirstAfter(r.trialEnd.value, times);
            After(r, times) ==
            if first == |times| then r
            else
              var end := times[first] + if r.graceEnd.Some? then r.graceEnd.value - r.trialEnd.value else r.graceDays;
              Record(if times[|times| - 1] <= end || |times| == first + 1 then PastDue else Suspended,
                     r.trialEnd, Some(end), r.graceDays, Some(end))
    decreases |times|
  {
    var end := r.trialEnd.value;
    FirstAfterIsFirst(end, times);
    if times != [] {
      if times[0] > end {
        PastDueRecord(Judge(r, times[0]).0, times[0] + GraceLength(r), times[1..]);
      } else {
        RecordIsClosedForm(r, times[1..]);
      }
    }
  }

  lemma {:induction false} PastDueRecord(r: Record, end: int, times: seq<int>)
    requires r.status == PastDue && r.graceEnd == Some(end) && NonDecreasing(times)
    ensures After(r, times) == if times == [] || times[|times| - 1] <= end then r else r.(status := Suspended)
    decreases |times|
  {
    if times != [] {
      if times[0] > end {
        SettledRecord(r.(status := Suspended), times[1..]);
      } else {
        PastDueRecord(r, end, times[1..]);
      }
    }
  }

  /** The records a run of requests leaves alone: suspended and cancelled ones, those of any other status, and
      those whose trial or grace period has no end. */
  predicate IsSettled(r: Record) {
    match r.status
    case Suspended => true
    case Cancelled => true
    case Other(_) => true
    case Trialing => r.trialEnd.None?
    case PastDue => r.graceEnd.None?
  }

  /** They are judged request by request: suspended tenants are refused, cancelled ones from the end of their
      paid period on, and all others let through. */
  lemma {:induction false} SettledRecord(r: Record, times: seq<int>)
    requires IsSettled(r)
    ensures After(r, times) == r && |Verdicts(r, times)| == |times|
    ensures forall i :: 0 <= i < |times| ==>
              (Verdicts(r, times)[i] <==>
                 r.status != Suspended &&
                 (r.status == Cancelled && r.periodEnd.Some? ==> times[i] <= r.periodEnd.value))
    decreases |times|
  {
    if times != [] {
      SettledRecord(r, times[1..]);
    }
  }

  /** How far along the lapse a status is; the guard moves no status outside this line. */
  function Rank(s: Status): nat {
    match s
    case PastDue => 1
    case Suspended => 2
    case _ => 0
  }

  /** Writes made by a run of requests: one per change of status. */
  function Writes(r: Record, times: seq<int>): nat
    decreases |times|
  {
    if times == [] then 0
    else
      var next := Judge(r, times[0]).0;
      (if next.status != r.status then 1 else 0) + Writes(next, times[1..])
  }

  /** Over any run of requests the status only moves forward, one write for each step, so at most two. */
  lemma {:induction false} StatusOnlyAdvances(r: Record, times: seq<int>)
    ensures Rank(After(r, times).status) == Rank(r.status) + Writes(r, times)
    ensures Writes(r, times) <= 2 - Rank(r.status)
    decreases |times|
  {
    if times != [] {
      StatusOnlyAdvances(Judge(r, times[0]).0, times[1..]);
    }
  }
}

/** The backfill of missing postings: one savepoint per document, one commit for the batch. */
module Backfill {
  datatype Kind = Invoice | Bill | CustomerPayment | VendorPayment

  datatype Doc = Doc(kind: Kind, id: int)

  datatype Direction = Debit | Credit

  /** Amounts are in units of 1/10000. */
  datatype Line = Line(account: int, amount: int, direction: Direction)

  /** The lines of the journal entry each document has, if any. */
  type Ledger = map<Doc, seq<Line>>

  predicate Extends(l: Ledger, m: Ledger) {
    forall d :: d in l ==> d in m && m[d] == l[d]
  }

  function Total(lines: seq<Line>, side: Direction): int {
    if lines == [] then 0
    else (if lines[0].direction == side then lines[0].amount else 0) + Total(lines[1..], side)
  }

  /** What JournalEntryDraft.validate and, at the commit, the deferred trigger demand. */
  predicate IsBalanced(lines: seq<Line>) {
    |lines| >= 2 && Total(lines, Debit) == Total(lines, Credit)
  }

  /** How a posting helper ends, with whatever it had written by then. */
  datatype Outcome =
    | Returned(ledger: Ledger)
    | RaisedValueError(ledger: Ledger)
    | RaisedOther(ledger: Ledger, message: string)

  /** The lines a posting engine asks for, or the failure to resolve an account. */
  datatype Draft = NoAccount(message: string) | Drafted(lines: seq<Line>)

  /** quantize(Decimal("0.01")), a tie going to the even cent. */
  function Quantized(amount: int): int {
    var cents, rest := amount / 100, amount % 100;
    100 * if rest > 50 || (rest == 50 && cents % 2 == 1) then cents + 1 else cents
  }

  function QuantizedLines(lines: seq<Line>): seq<Line> {
    seq(|lines|, i requires 0 <= i < |lines| => lines[i].(amount := Quantized(lines[i].amount)))
  }

  /** JournalLineDraft and JournalEntryDraft check the lines; commit_ledger_draft flushes them as they are,
      where a line of less than half a cent has become zero and violates the column's check. */
  function Posted(l: Ledger, d: Doc, lines: seq<Line>): Outcome {
    if exists line :: line in lines && line.amount <= 0 then
      RaisedOther(l, "Journal Line amount must be greater than zero.")
    else
      var quantized := QuantizedLines(lines);
      if |quantized| < 2 then RaisedOther(l, "A double-entry Journal Entry must contain at least two lines.")
      else if Total(quantized, Debit) != Total(quantized, Credit) then RaisedOther(l, "Ledger out of balance.")
      else if exists line :: line in quantized && line.amount <= 0 then
        RaisedOther(l[d := quantized], "violates check constraint")
      else Returned(l[d := quantized])
  }

  /** The post_*_if_missing helpers, over the documents without a positive total and the lines drafted for the
      rest. An invoice resolves its accounts before it looks for an existing posting, the others after. */
  function PostIfMissing(unpostable: Doc -> bool, draft: (Ledger, Doc) -> Draft, l: Ledger, d: Doc): Outcome {
    if unpostable(d) then RaisedValueError(l)
    else if d in l && (d.kind != Invoice || draft(l, d).Drafted?) then RaisedValueError(l)
    else
      match draft(l, d)
      case NoAccount(message) => RaisedOther(l, message)
      case Drafted(lines) => Posted(l, d, lines)
  }

  /** What the batch relies on: a return means that exactly this document's entry was added, balanced, and none
      existed; and a document refused with ValueError is never posted over a ledger that has only gained. */
  ghost predicate PostsIfMissing(post: (Ledger, Doc) -> Outcome) {
    && (forall l: Ledger, d: Doc :: post(l, d).Returned? ==>
          && d !in l && d in post(l, d).ledger && post(l, d).ledger == l[d := post(l, d).ledger[d]]
          && IsBalanced(post(l, d).ledger[d]))
    && (forall l: Ledger, m: Ledger, d: Doc ::
          post(l, d).RaisedValueError? && Extends(l, m) ==> !post(m, d).Returned?)
  }

  /** The nearest full cent, of two equally near ones the even. */
  lemma QuantizedIsNearest(amount: int, cents: int)
    ensures Quantized(amount) == 100 * cents <==>
              -50 < amount - 100 * cents < 50 || (cents % 2 == 0 && -50 <= amount - 100 * cents <= 50)
  {
  }

  /** The total of a side grows by the amount of each line on it, and by nothing else. */
  lemma {:induction false} TotalGrows(lines: seq<Line>, line: Line, side: Direction)
    ensures Total([], side) == 0
    ensures Total(lines + [line], side) == Total(lines, side) + if line.direction == side then line.amount else 0
  {
    if lines == [] {
      assert [] + [line] == [line] && [line][1..] == [];
    } else {
      TotalGrows(lines[1..], line, side);
      assert (lines + [line])[1..] == lines[1..] + [line];
    }
  }

  /** The drafted lines, rounded to cents, make an entry: at least two of them, all positive before and after,
      as much debit as credit. */
  ghost predicate MakeEntry(lines: seq<Line>, rounded: seq<Line>) {
    && |rounded| == |lines| >= 2
    && (forall i :: 0 <= i < |lines| ==>
          && rounded[i] == Line(lines[i].account, Quantized(lines[i].amount), lines[i].direction)
          && lines[i].amount > 0 && rounded[i].amount > 0)
    && Total(rounded, Debit) == Total(rounded, Credit)
  }

  /** Exactly when a document is posted, and with which lines; exactly when it is refused with ValueError; and
      everything else is an error to report. */
  lemma PostedExactlyIf(unpostable: Doc -> bool, draft: (Ledger, Doc) -> Draft, l: Ledger, d: Doc, rounded: seq<Line>)
    ensures var out := PostIfMissing(unpostable, draft, l, d);
            && (out.RaisedValueError? <==> unpostable(d) || (d in l && (d.kind == Invoice ==> draft(l, d).Drafted?)))
            && (out == Returned(l[d := rounded]) <==>
                  !unpostable(d) && d !in l && draft(l, d).Drafted? && MakeEntry(draft(l, d).lines, rounded))
            && (out.Returned? ==> out == Returned(l[d := QuantizedLines(draft(l, d).lines)]))
  {
    var out := PostIfMissing(unpostable, draft, l, d);
    if !unpostable(d) && d !in l && draft(l, d).Drafted? {
      PostedIff(l, d, draft(l, d).lines, rounded);
    }
  }

  lemma PostedIff(l: Ledger, d: Doc, lines: seq<Line>, rounded: seq<Line>)
    requires d !in l
    ensures Posted(l, d, lines) == Returned(l[d := rounded]) <==> MakeEntry(lines, rounded)
    ensures !Posted(l, d, lines).RaisedValueError?
    ensures Posted(l, d, lines).Returned? ==> Posted(l, d, lines) == Returned(l[d := QuantizedLines(lines)])
  {
    var quantized := QuantizedLines(lines);
    if MakeEntry(lines, rounded) {
      assert quantized == rounded;
    }
    if Posted(l, d, lines) == Returned(l[d := rounded]) {
      assert l[d := rounded][d] == l[d := quantized][d];
      forall i | 0 <= i < |lines| ensures lines[i].amount > 0 && quantized[i].amount > 0 {
        assert lines[i] in lines && quantized[i] in quantized;
      }
    }
  }

  lemma ReturnedIsBalanced(unpostable: Doc -> bool, draft: (Ledger, Doc) -> Draft, l: Ledger, d: Doc)
    requires PostIfMissing(unpostable, draft, l, d).Returned?
    ensures d !in l && draft(l, d).Drafted?
    ensures var lines := QuantizedLines(draft(l, d).lines);
            PostIfMissing(unpostable, draft, l, d).ledger == l[d := lines] && IsBalanced(lines)
  {
  }

  lemma RefusedStaysRefused(unpostable: Doc -> bool, draft: (Ledger, Doc) -> Draft, l: Ledger, m: Ledger, d: Doc)
    requires PostIfMissing(unpostable, draft, l, d).RaisedValueError? && Extends(l, m)
    ensures !PostIfMissing(unpostable, draft, m, d).Returned?
  {
    assert unpostable(d) || d in l;
  }

  /** The helpers do what their documentation says, whatever the documents, accounts and engines. */
  lemma HelpersPostIfMissing(unpostable: Doc -> bool, draft: (Ledger, Doc) -> Draft)
    ensures PostsIfMissing((l, d) => PostIfMissing(unpostable, draft, l, d))
  {
    var post := (l: Ledger, d: Doc) => PostIfMissing(unpostable, draft, l, d);
    forall l: Ledger, d: Doc | post(l, d).Returned?
      ensures d !in l && d in post(l, d).ledger && post(l, d).ledger == l[d := post(l, d).ledger[d]]
      ensures IsBalanced(post(l, d).ledger[d])
    {
      ReturnedIsBalanced(unpostable, draft, l, d);
    }
    forall l: Ledger, m: Ledger, d: Doc | post(l, d).RaisedValueError? && Extends(l, m)
      ensures !post(m, d).Returned?
    {
      RefusedStaysRefused(unpostable, draft, l, m, d);
    }
  }

  datatype Report = Report(ledger: Ledger, posted: seq<Doc>, skipped: seq<Doc>, errors: seq<(Doc, string)>)

  /** One document: posted, skipped or reported, its failed writes rolled back. */
  function Attempt(post: (Ledger, Doc) -> Outcome, r: Report, d: Doc): Report {
    match post(r.ledger, d)
    case Returned(l) => r.(ledger := l, posted := r.posted + [d])
    case RaisedValueError(_) => r.(skipped := r.skipped + [d])
    case RaisedOther(_, message) => r.(errors := r.errors + [(d, message)])
  }

  function Run(post: (Ledger, Doc) -> Outcome, r: Report, docs: seq<Doc>): Report
    decreases |docs|
  {
    if docs == [] then r else Run(post, Attempt(post, r, docs[0]), docs[1..])
  }

  /** The deferred checks, of the entries this transaction added and kept. */
  predicate PassesChecks(r: Report) {
    forall d :: d in r.posted && d in r.ledger ==> IsBalanced(r.ledger[d])
  }

  /** The committed ledger after the one commit at the end. */
  function Kept(start: Ledger, r: Report): Ledger {
    if PassesChecks(r) then r.ledger else start
  }

  function Count(docs: seq<Doc>, kind: Kind): nat {
    if docs == [] then 0 else (if docs[0].kind == kind then 1 else 0) + Count(docs[1..], kind)
  }

  function Failed(errors: seq<(Doc, string)>): seq<Doc> {
    seq(|errors|, i requires 0 <= i < |errors| => errors[i].0)
  }

  lemma {:induction false} CountAppend(docs: seq<Doc>, d: Doc, kind: Kind)
    ensures Count(docs + [d], kind) == Count(docs, kind) + if d.kind == kind then 1 else 0
  {
    if docs == [] {
      assert [] + [d] == [d];
    } else {
      CountAppend(docs[1..], d, kind);
      assert (docs + [d])[1..] == docs[1..] + [d];
    }
  }

  /** The counters of a response: one per kind. */
  function Counts(docs: seq<Doc>): map<Kind, nat> {
    map[Invoice := Count(docs, Invoice), Bill := Count(docs, Bill),
        CustomerPayment := Count(docs, CustomerPayment), VendorPayment := Count(docs, VendorPayment)]
  }

  lemma CountsAppend(docs: seq<Doc>, d: Doc)
    ensures d.kind in Counts(docs)
    ensures Counts(docs + [d]) == Counts(docs)[d.kind := Counts(docs)[d.kind] + 1]
  {
    CountAppend(docs, d, Invoice);
    CountAppend(docs, d, Bill);
    CountAppend(docs, d, CustomerPayment);
    CountAppend(docs, d, VendorPayment);
  }

  lemma {:induction false} RunAppend(post: (Ledger, Doc) -> Outcome, r: Report, docs: seq<Doc>, more: seq<Doc>)
    ensures Run(post, r, docs + more) == Run(post, Run(post, r, docs), more)
    decreases |docs|
  {
    if docs == [] {
      assert docs + more == more;
    } else {
      RunAppend(post, Attempt(post, r, docs[0]), docs[1..], more);
      assert (docs + more)[1..] == docs[1..] + more;
    }
  }

  /** The committed ledger, and the session and the counters of one backfill request. `posted` lists the
      documents whose new entries await the deferred check. */
  class BackfillRun {
    var committed: Ledger
    var ledger: Ledger
    var postedCount: map<Kind, nat>
    var skippedCount: map<Kind, nat>
    var errors: seq<(Doc, string)>
    var posted: seq<Doc>
    ghost var skipped: seq<Doc>

    ghost predicate Valid() reads this {
      postedCount == Counts(posted) && skippedCount == Counts(skipped)
    }

    ghost function Now(): Report reads this {
      Report(ledger, posted, skipped, errors)
    }

    constructor (committed: Ledger)
      ensures Valid() && Now() == Report(committed, [], [], []) && this.committed == committed
    {
      this.committed, ledger := committed, committed;
      postedCount := map[Invoice := 0, Bill := 0, CustomerPayment := 0, VendorPayment := 0];
      skippedCount := map[Invoice := 0, Bill := 0, CustomerPayment := 0, VendorPayment := 0];
      errors, posted, skipped := [], [], [];
    }

    method AttemptDocument(post: (Ledger, Doc) -> Outcome, d: Doc)
      requires Valid()
      modifies this
      ensures committed == old(committed)
      ensures Valid() && Now() == Attempt(post, old(Now()), d)
    {
      CountsAppend(posted, d);
      CountsAppend(skipped, d);
      var savepoint := ledger;
      var outcome := post(ledger, d);
      ledger := outcome.ledger;
      match outcome
      case Returned(_) =>
        postedCount := postedCount[d.kind := postedCount[d.kind] + 1];
        posted := posted + [d];
      case RaisedValueError(_) =>
        ledger := savepoint;
        skippedCount := skippedCount[d.kind := skippedCount[d.kind] + 1];
        skipped := skipped + [d];
      case RaisedOther(_, message) =>
        ledger := savepoint;
        errors := errors + [(d, message)];
    }

    method AttemptAll(post: (Ledger, Doc) -> Outcome, docs: seq<Doc>)
      requires Valid()
      modifies this
      ensures committed == old(committed)
      ensures Valid() && Now() == Run(post, old(Now()), docs)
    {
      for i := 0 to |docs|
        invariant committed == old(committed)
        invariant Valid() && Run(post, Now(), docs[i..]) == Run(post, old(Now()), docs)
      {
        AttemptDocument(post, docs[i]);
      }
    }

    /** db.commit(): the deferred checks, and then all of the session or nothing. */
    method Commit() returns (raised: bool)
      requires Valid()
      modifies this`committed
      ensures raised <==> !PassesChecks(Now())
      ensures raised <==> exists d :: d in posted && d in ledger &&
                            (|ledger[d]| < 2 || Total(ledger[d], Debit) != Total(ledger[d], Credit))
      ensures committed == Kept(old(committed), Now()) == if raised then old(committed) else ledger
    {
      for i := 0 to |posted|
        invariant committed == old(committed)
        invariant forall d :: d in posted[..i] && d in ledger ==> IsBalanced(ledger[d])
      {
        assert posted[..i + 1] == posted[..i] + [posted[i]];
        if posted[i] in ledger && !IsBalanced(ledger[posted[i]]) {
          return true;
        }
      }
      assert posted[..|posted|] == posted;
      committed := ledger;
      raised := false;
    }

    /** backfill_postings: invoices, bills, customer payments, vendor payments, in that order, and one
        commit for all of them. */
    method BackfillPostings(post: (Ledger, Doc) -> Outcome, invoices: seq<Doc>, bills: seq<Doc>,
                            payments: seq<Doc>, billPayments: seq<Doc>)
      returns (raised: bool)
      requires Valid()
      modifies this
      ensures raised <==> !PassesChecks(Now())
      ensures committed == Kept(old(committed), Now())
      ensures Valid() && Now() == Run(post, old(Now()), invoices + bills + payments + billPayments)
    {
      AttemptAll(post, invoices);
      AttemptAll(post, bills);
      AttemptAll(post, payments);
      AttemptAll(post, billPayments);
      RunAppend(post, old(Now()), invoices, bills);
      RunAppend(post, old(Now()), invoices + bills, payments);
      RunAppend(post, old(Now()), invoices + bills + payments, billPayments);
      raised := Commit();
    }
  }

  lemma FailedAppend(errors: seq<(Doc, string)>, e: (Doc, string))
    ensures Failed(errors + [e]) == Failed(errors) + [e.0]
  {
  }

  /** Every attempted document is posted, skipped or reported, once, kind by kind. */
  lemma {:induction false} NothingIsLost(post: (Ledger, Doc) -> Outcome, r: Report, docs: seq<Doc>, kind: Kind)
    ensures var done := Run(post, r, docs);
            Count(done.posted, kind) + Count(done.skipped, kind) + Count(Failed(done.errors), kind) ==
            Count(r.posted, kind) + Count(r.skipped, kind) + Count(Failed(r.errors), kind) + Count(docs, kind)
    decreases |docs|
  {
    if docs != [] {
      var d, next := docs[0], Attempt(post, r, docs[0]);
      CountAppend(r.posted, d, kind);
      CountAppend(r.skipped, d, kind);
      CountAppend(Failed(r.errors), d, kind);
      if post(r.ledger, d).RaisedOther? {
        FailedAppend(r.errors, (d, post(r.ledger, d).message));
      }
      assert Count(next.posted, kind) + Count(next.skipped, kind) + Count(Failed(next.errors), kind) ==
             Count(r.posted, kind) + Count(r.skipped, kind) + Count(Failed(r.errors), kind) + Count([d], kind);
      NothingIsLost(post, next, docs[1..], kind);
    }
  }

  /** Every reported error is the message one of the documents raised when it was attempted. */
  lemma {:induction false} ErrorsWereRaised(post: (Ledger, Doc) -> Outcome, r: Report, docs: seq<Doc>, e: (Doc, string))
    requires e in Run(post, r, docs).errors && e !in r.errors
    ensures e.0 in docs && exists l: Ledger :: post(l, e.0).RaisedOther? && post(l, e.0).message == e.1
    decreases |docs|
  {
    if docs != [] {
      var next := Attempt(post, r, docs[0]);
      if e in next.errors {
        assert post(r.ledger, docs[0]).RaisedOther? && e == (docs[0], post(r.ledger, docs[0]).message);
      } else {
        ErrorsWereRaised(post, next, docs[1..], e);
      }
    }
  }

  /** A fresh run over docs. */
  function Fresh(ledger: Ledger): Report {
    Report(ledger, [], [], [])
  }

  /** The documents posted are those a run over the posted ones alone would post, with the same ledger:
      skipped and failing documents leave no trace on the others. */
  lemma {:induction false} FailuresAreIndependent(post: (Ledger, Doc) -> Outcome, r: Report, docs: seq<Doc>)
    returns (posted: seq<Doc>)
    ensures Run(post, r, docs).posted == r.posted + posted
    ensures forall q: Report :: q.ledger == r.ledger ==>
              Run(post, q, posted) == Report(Run(post, r, docs).ledger, q.posted + posted, q.skipped, q.errors)
    decreases |docs|
  {
    if docs == [] {
      posted := [];
    } else {
      var next := Attempt(post, r, docs[0]);
      var rest := FailuresAreIndependent(post, next, docs[1..]);
      posted := if post(r.ledger, docs[0]).Returned? then [docs[0]] + rest else rest;
      forall q: Report | q.ledger == r.ledger
        ensures Run(post, q, posted) == Report(Run(post, r, docs).ledger, q.posted + posted, q.skipped, q.errors)
      {
        if post(r.ledger, docs[0]).Returned? {
          assert posted[1..] == rest;
          assert q.posted + [docs[0]] + rest == q.posted + posted;
        }
      }
      assert r.posted + [docs[0]] + rest == r.posted + ([docs[0]] + rest);
    }
  }

  lemma {:induction false} LedgerGrows(post: (Ledger, Doc) -> Outcome, r: Report, docs: seq<Doc>)
    requires PostsIfMissing(post)
    ensures Extends(r.ledger, Run(post, r, docs).ledger) && r.posted <= Run(post, r, docs).posted
    decreases |docs|
  {
    if docs != [] {
      var next := Attempt(post, r, docs[0]);
      assert Extends(r.ledger, next.ledger) && r.posted <= next.posted;
      LedgerGrows(post, next, docs[1..]);
    }
  }

  lemma AttemptGains(post: (Ledger, Doc) -> Outcome, r: Report, d: Doc)
    requires PostsIfMissing(post)
    ensures var next := Attempt(post, r, d);
            if post(r.ledger, d).Returned?
            then next.posted == r.posted + [d] && d !in r.ledger && next.ledger.Keys == r.ledger.Keys + {d}
            else next.posted == r.posted && next.ledger == r.ledger
  {
  }

  /** Existing postings stay as they are; the ledger gains exactly the posted documents, each once. */
  lemma {:induction false} LedgerGainsPosted(post: (Ledger, Doc) -> Outcome, r: Report, docs: seq<Doc>)
    returns (gained: seq<Doc>)
    requires PostsIfMissing(post)
    ensures var done := Run(post, r, docs);
            && Extends(r.ledger, done.ledger)
            && done.posted == r.posted + gained
            && done.ledger.Keys == r.ledger.Keys + (set d | d in gained)
            && (forall i :: 0 <= i < |gained| ==> gained[i] !in r.ledger)
            && (forall i, j :: 0 <= i < j < |gained| ==> gained[i] != gained[j])
    decreases |docs|
  {
    gained := [];
    LedgerGrows(post, r, docs);
    if docs != [] {
      var d, next := docs[0], Attempt(post, r, docs[0]);
      AttemptGains(post, r, d);
      var rest := LedgerGainsPosted(post, next, docs[1..]);
      gained := if post(r.ledger, d).Returned? then [d] + rest else rest;
      assert post(r.ledger, d).Returned? ==> r.posted + [d] + rest == r.posted + gained;
    }
  }

  /** No document already in the ledger, and none refused before over a smaller ledger, is posted. */
  lemma {:induction false} NeverPosted(post: (Ledger, Doc) -> Outcome, r: Report, docs: seq<Doc>,
                                       before: Ledger, d: Doc)
    requires PostsIfMissing(post)
    requires d in r.ledger || (post(before, d).RaisedValueError? && Extends(before, r.ledger))
    requires d !in r.posted
    ensures d !in Run(post, r, docs).posted
    decreases |docs|
  {
    if docs != [] {
      var next := Attempt(post, r, docs[0]);
      AttemptGains(post, r, docs[0]);
      assert Extends(r.ledger, next.ledger);
      NeverPosted(post, next, docs[1..], before, d);
    }
  }

  lemma {:induction false} WhenSkipped(post: (Ledger, Doc) -> Outcome, r: Report, docs: seq<Doc>, d: Doc)
    returns (before: Ledger)
    requires PostsIfMissing(post) && d !in r.skipped && d in Run(post, r, docs).skipped
    ensures post(before, d).RaisedValueError? && Extends(before, Run(post, r, docs).ledger)
    decreases |docs|
  {
    if docs == [] {
      before := r.ledger;
    } else if post(r.ledger, docs[0]).RaisedValueError? && docs[0] == d {
      before := r.ledger;
      LedgerGrows(post, r, docs);
    } else {
      before := WhenSkipped(post, Attempt(post, r, docs[0]), docs[1..], d);
    }
  }

  /** Every posted document's entry is balanced where the commit checks it. */
  lemma {:induction false} PostedIsBalanced(post: (Ledger, Doc) -> Outcome, r: Report, docs: seq<Doc>)
    requires PostsIfMissing(post) && PassesChecks(r)
    ensures PassesChecks(Run(post, r, docs))
    decreases |docs|
  {
    if docs != [] {
      AttemptGains(post, r, docs[0]);
      PostedIsBalanced(post, Attempt(post, r, docs[0]), docs[1..]);
    }
  }

  /** A failing document never blocks the rest, the commit included: the deferred checks pass, and the committed
      ledger is the one a run over the posted documents alone would leave. */
  lemma BatchIsKept(post: (Ledger, Doc) -> Outcome, start: Ledger, docs: seq<Doc>)
    requires PostsIfMissing(post)
    ensures var done := Run(post, Fresh(start), docs);
            && Kept(start, done) == done.ledger
            && Kept(start, done) == Run(post, Fresh(start), done.posted).ledger
            && forall d :: d in Kept(start, done) <==> d in start || d in done.posted
  {
    var done := Run(post, Fresh(start), docs);
    PostedIsBalanced(post, Fresh(start), docs);
    var posted := FailuresAreIndependent(post, Fresh(start), docs);
    var gained := LedgerGainsPosted(post, Fresh(start), docs);
    assert done.posted == posted == gained;
    assert forall d :: d in done.ledger <==> d in done.ledger.Keys;
  }

  /** A second run, over any list and over what the first one committed, posts nothing that the first posted or
      skipped. */
  lemma SecondRunPostsNothingTwice(post: (Ledger, Doc) -> Outcome, start: Ledger, docs: seq<Doc>,
                                   again: seq<Doc>, d: Doc)
    requires PostsIfMissing(post)
    requires d in Run(post, Fresh(start), docs).posted || d in Run(post, Fresh(start), docs).skipped
    ensures d !in Run(post, Fresh(Kept(start, Run(post, Fresh(start), docs))), again).posted
  {
    BatchIsKept(post, start, docs);
    var first := Run(post, Fresh(start), docs);
    var gained := LedgerGainsPosted(post, Fresh(start), docs);
    if d in first.posted {
      assert d in gained;
      NeverPosted(post, Fresh(first.ledger), again, start, d);
    } else {
      var before := WhenSkipped(post, Fresh(start), docs, d);
      NeverPosted(post, Fresh(first.ledger), again, before, d);
    }
  }
}

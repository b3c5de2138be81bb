/** Allocation of payment numbers by the importers: the base number, or the first free "base-n". */
module PaymentNumbers {
  import opened Options

  /** str(n) in base ten. */
  function Decimal(n: nat): string {
    var last := ['0' + (n % 10) as char];
    if n < 10 then last else Decimal(n / 10) + last
  }

  function Parse(s: string): int {
    if s == "" then 0 else 10 * Parse(s[..|s| - 1]) + (s[|s| - 1] as int - '0' as int)
  }

  lemma {:induction false} ParseDecimal(n: nat)
    ensures Parse(Decimal(n)) == n
  {
    var d := Decimal(n);
    assert d[|d| - 1] as int == '0' as int + n % 10;
    if n < 10 {
      assert d[..|d| - 1] == "";
    } else {
      ParseDecimal(n / 10);
      assert d[..|d| - 1] == Decimal(n / 10);
    }
  }

  /** The k-th number tried for a base: base, base-2, base-3, ... */
  function Candidate(base: string, k: nat): string {
    if k < 2 then base else base + "-" + Decimal(k)
  }

  /** "base", then "base-2", "base-3" and so on. */
  lemma CandidatesAreSuffixed(base: string, k: nat)
    requires k >= 1
    ensures Candidate(base, k) == if k == 1 then base else base + "-" + Decimal(k)
    ensures forall i :: 0 <= i < |Decimal(k)| ==> '0' <= Decimal(k)[i] <= '9'
    ensures Decimal(2) == "2" && Decimal(19) == "19"
  {
    DecimalIsDigits(k);
    assert Decimal(1) == "1" && Decimal(19) == Decimal(1) + "9";
  }

  lemma {:induction false} DecimalIsDigits(n: nat)
    ensures forall i :: 0 <= i < |Decimal(n)| ==> '0' <= Decimal(n)[i] <= '9'
  {
    if n >= 10 {
      DecimalIsDigits(n / 10);
    }
  }

  lemma CandidatesDiffer(base: string, i: nat, j: nat)
    requires 1 <= i && 1 <= j && Candidate(base, i) == Candidate(base, j)
    ensures i == j
  {
    if i >= 2 && j >= 2 {
      assert Candidate(base, i)[|base| + 1..] == Decimal(i);
      assert Candidate(base, j)[|base| + 1..] == Decimal(j);
      ParseDecimal(i);
      ParseDecimal(j);
    }
  }

  function Tried(base: string, k: nat): set<string> {
    set i | 1 <= i < k :: Candidate(base, i)
  }

  /** Every busy candidate brings the search closer to its end: no candidate is met twice. */
  lemma SearchShrinks(base: string, busy: set<string>, k: nat)
    requires 1 <= k && Candidate(base, k) in busy
    ensures busy - Tried(base, k + 1) < busy - Tried(base, k)
  {
    if Candidate(base, k) in Tried(base, k) {
      var i :| 1 <= i < k && Candidate(base, i) == Candidate(base, k);
      CandidatesDiffer(base, i, k);
    }
    assert Tried(base, k) <= Tried(base, k + 1);
    assert Candidate(base, k) in Tried(base, k + 1);
  }

  function FirstFree(base: string, busy: set<string>, k: nat): string
    requires 1 <= k
    decreases busy - Tried(base, k)
  {
    if Candidate(base, k) !in busy then Candidate(base, k)
    else
      SearchShrinks(base, busy, k);
      FirstFree(base, busy, k + 1)
  }

  /** The search ends at a free candidate, all earlier ones being busy. */
  lemma {:induction false} FirstFreeIsFirst(base: string, busy: set<string>, k: nat) returns (n: nat)
    requires 1 <= k
    ensures k <= n && FirstFree(base, busy, k) == Candidate(base, n) && Candidate(base, n) !in busy
    ensures forall i :: k <= i < n ==> Candidate(base, i) in busy
    decreases busy - Tried(base, k)
  {
    n := k;
    if Candidate(base, k) in busy {
      SearchShrinks(base, busy, k);
      n := FirstFreeIsFirst(base, busy, k + 1);
    }
  }

  /** Receipts are numbered in payments, disbursements in bill_payments; one run serves both. */
  datatype Book = Receipts | Disbursements

  datatype Number = Number(book: Book, text: string)

  /** A payment row, as far as re-import detection compares it. */
  datatype Payment = Payment(contact: Option<int>, amount: int)

  /** The live payments of the tenant, by table and number. */
  type Stored = map<Number, Payment>

  datatype Request = Request(book: Book, base: string, payment: Payment)

  function Own(r: Request): Number {
    Number(r.book, r.base)
  }

  predicate IsReimport(r: Request, stored: Stored) {
    Own(r) in stored && stored[Own(r)] == r.payment
  }

  /** The numbers neither this run nor the table of this request may get again. */
  function Busy(book: Book, stored: Stored, used: set<string>): set<string> {
    used + set n | n in stored && n.book == book :: n.text
  }

  function Next(r: Request, stored: Stored, used: set<string>): Option<string> {
    if IsReimport(r, stored) then None else Some(FirstFree(r.base, Busy(r.book, stored, used), 1))
  }

  /** The database once the payment is flushed under its number: the next lookup sees it. */
  function Flushed(r: Request, number: Option<string>, stored: Stored): Stored {
    if number.Some? then stored[Number(r.book, number.value) := r.payment] else stored
  }

  function Noted(number: Option<string>, used: set<string>): set<string> {
    if number.Some? then used + {number.value} else used
  }

  /** A whole import: the numbers handed out, in order. */
  function NumbersOf(rs: seq<Request>, stored: Stored, used: set<string>): seq<Option<string>> {
    if rs == [] then []
    else
      var number := Next(rs[0], stored, used);
      [number] + NumbersOf(rs[1..], Flushed(rs[0], number, stored), Noted(number, used))
  }

  /** The payments part of one import. */
  class ImportRun {
    var used: set<string>
    var stored: Stored

    constructor (stored: Stored)
      ensures used == {} && this.stored == stored
    {
      used, this.stored := {}, stored;
    }

    method NextPaymentNumber(r: Request) returns (number: Option<string>)
      modifies this`used
      ensures number == Next(r, stored, old(used)) && used == Noted(number, old(used))
    {
      if Own(r) in stored {
        var existing := stored[Own(r)];
        if existing.contact == r.payment.contact && existing.amount == r.payment.amount {
          return None;
        }
      }
      ghost var busy := Busy(r.book, stored, used);
      var candidate, suffix := r.base, 2;
      while candidate in used || Number(r.book, candidate) in stored
        invariant used == old(used)
        invariant suffix >= 2 && candidate == Candidate(r.base, suffix - 1)
        invariant FirstFree(r.base, busy, 1) == FirstFree(r.base, busy, suffix - 1)
        decreases busy - Tried(r.base, suffix - 1)
      {
        assert candidate in busy;
        SearchShrinks(r.base, busy, suffix - 1);
        candidate := r.base + "-" + Decimal(suffix);
        suffix := suffix + 1;
      }
      used := used + {candidate};
      number := Some(candidate);
    }

    /** Every payment gets its number and is flushed before the next one looks its number up. */
    method ImportPayments(rs: seq<Request>) returns (numbers: seq<Option<string>>)
      modifies this
      ensures numbers == NumbersOf(rs, old(stored), old(used))
    {
      numbers := [];
      for i := 0 to |rs|
        invariant numbers + NumbersOf(rs[i..], stored, used) == NumbersOf(rs, old(stored), old(used))
      {
        var number := NextPaymentNumber(rs[i]);
        numbers := numbers + [number];
        if number.None? {
          continue;
        }
        stored := stored[Number(rs[i].book, number.value) := rs[i].payment];
      }
    }
  }

  /** Request i repeats the payment that an earlier request of the run was given i's own base for. */
  predicate RepeatsWithin(rs: seq<Request>, ns: seq<Option<string>>, i: nat)
    requires i < |rs| == |ns|
  {
    exists j :: 0 <= j < i && ns[j] == Some(rs[i].base) && rs[j].book == rs[i].book && rs[j].payment == rs[i].payment
  }

  lemma NextIsFree(r: Request, stored: Stored, used: set<string>) returns (n: nat)
    requires Next(r, stored, used).Some?
    ensures n >= 1 && Next(r, stored, used) == Some(Candidate(r.base, n))
    ensures Number(r.book, Candidate(r.base, n)) !in stored && Candidate(r.base, n) !in used
    ensures forall i :: 1 <= i < n ==> Candidate(r.base, i) in Busy(r.book, stored, used)
  {
    n := FirstFreeIsFirst(r.base, Busy(r.book, stored, used), 1);
    assert Number(r.book, Candidate(r.base, n)).text == Candidate(r.base, n);
  }

  /** Over a whole import the numbers handed out are pairwise distinct, new to their table and to the
      run, and a payment gets none exactly if the database held it under its base before the import,
      or the import itself has already stored an equal one there. */
  lemma {:induction false} NumbersAreFreshAndDistinct(rs: seq<Request>, stored: Stored, used: set<string>)
    ensures var ns := NumbersOf(rs, stored, used);
            && |ns| == |rs|
            && (forall i :: 0 <= i < |ns| ==>
                  (ns[i] == None <==> IsReimport(rs[i], stored) || RepeatsWithin(rs, ns, i)))
            && (forall i :: 0 <= i < |ns| && ns[i].Some? ==>
                  Number(rs[i].book, ns[i].value) !in stored && ns[i].value !in used)
            && (forall i, j :: 0 <= i < j < |ns| && ns[i].Some? ==> ns[i] != ns[j])
  {
    if rs != [] {
      var r, number, ns := rs[0], Next(rs[0], stored, used), NumbersOf(rs, stored, used);
      var stored', used' := Flushed(r, number, stored), Noted(number, used);
      if number.Some? {
        var _ := NextIsFree(r, stored, used);
      }
      NumbersAreFreshAndDistinct(rs[1..], stored', used');
      var ms := NumbersOf(rs[1..], stored', used');
      assert ns == [number] + ms;
      forall i | 1 <= i < |ns| ensures ns[i] == None <==> IsReimport(rs[i], stored) || RepeatsWithin(rs, ns, i) {
        assert ns[i] == ms[i - 1];
        RepeatsLater(rs, number, ms, i);
        assert IsReimport(rs[i], stored') <==>
               IsReimport(rs[i], stored)
               || (number == Some(rs[i].base) && r.book == rs[i].book && r.payment == rs[i].payment);
      }
      assert ns[0] == None <==> IsReimport(rs[0], stored);
    }
  }

  /** An earlier equal request is the first one, or one after it. */
  lemma RepeatsLater(rs: seq<Request>, number: Option<string>, ms: seq<Option<string>>, i: nat)
    requires 1 <= i < |rs| == |ms| + 1
    ensures RepeatsWithin(rs, [number] + ms, i) <==>
            (number == Some(rs[i].base) && rs[0].book == rs[i].book && rs[0].payment == rs[i].payment)
            || RepeatsWithin(rs[1..], ms, i - 1)
  {
    var ns := [number] + ms;
    if RepeatsWithin(rs, ns, i) {
      var j :| 0 <= j < i && ns[j] == Some(rs[i].base) && rs[j].book == rs[i].book && rs[j].payment == rs[i].payment;
      if j > 0 {
        assert ms[j - 1] == ns[j] && rs[1..][j - 1] == rs[j];
      }
    }
    if RepeatsWithin(rs[1..], ms, i - 1) {
      var j :| 0 <= j < i - 1 && ms[j] == Some(rs[1..][i - 1].base) && rs[1..][j].book == rs[1..][i - 1].book
               && rs[1..][j].payment == rs[1..][i - 1].payment;
      assert ns[j + 1] == ms[j] && rs[j + 1] == rs[1..][j];
    }
    assert ns[0] == number;
  }

  /** Two equal instalments of one transaction, imported into an empty database: the second, a genuine
      payment no database has seen, gets no number and is dropped. */
  lemma EqualInstalmentIsDropped(base: string, payment: Payment)
    ensures var r := Request(Receipts, base, payment);
            NumbersOf([r, r], map[], {}) == [Some(base), None] && !IsReimport(r, map[])
  {
    var r := Request(Receipts, base, payment);
    assert Candidate(base, 1) == base && FirstFree(base, {}, 1) == base;
    assert Busy(Receipts, map[], {}) == {};
    assert Next(r, map[], {}) == Some(base);
    var stored, used := Flushed(r, Some(base), map[]), Noted(Some(base), {});
    assert Own(r) in stored && stored[Own(r)] == payment;
    assert [r, r][1..] == [r] && [r][1..] == [];
    assert NumbersOf([r], stored, used) == [None];
  }

  /** Bases as the importer makes them: no base is a suffixed form of another, and each is of one book. */
  ghost predicate AreUnrelated(rs: seq<Request>) {
    && (forall i, j :: 0 <= i < |rs| && 0 <= j < |rs| && rs[i].base == rs[j].base ==> rs[i].book == rs[j].book)
    && (forall i, j, k :: 0 <= i < |rs| && 0 <= j < |rs| && 2 <= k ==> rs[i].base != Candidate(rs[j].base, k))
  }

  /** The first request for a base. */
  function FirstFor(rs: seq<Request>, base: string): nat {
    if rs == [] || rs[0].base == base then 0 else 1 + FirstFor(rs[1..], base)
  }

  lemma {:induction false} FirstForIsFirst(rs: seq<Request>, i: nat)
    requires i < |rs|
    ensures FirstFor(rs, rs[i].base) <= i && rs[FirstFor(rs, rs[i].base)].base == rs[i].base
  {
    if rs[0].base != rs[i].base {
      FirstForIsFirst(rs[1..], i - 1);
    }
  }

  /** A base still free goes to the first request for it. */
  lemma {:induction false} FirstGetsBase(rs: seq<Request>, stored: Stored, used: set<string>, i: nat)
    requires AreUnrelated(rs) && i < |rs| && Own(rs[i]) !in stored && rs[i].base !in used
    ensures |NumbersOf(rs, stored, used)| == |rs| && FirstFor(rs, rs[i].base) < |rs|
    ensures NumbersOf(rs, stored, used)[FirstFor(rs, rs[i].base)] == Some(rs[i].base)
  {
    NumbersAreFreshAndDistinct(rs, stored, used);
    FirstForIsFirst(rs, i);
    var r, number := rs[0], Next(rs[0], stored, used);
    if r.base == rs[i].base {
      assert Candidate(r.base, 1) == r.base && r.base !in Busy(r.book, stored, used);
    } else {
      if number.Some? {
        var n := NextIsFree(r, stored, used);
        assert number.value != rs[i].base;
      }
      FirstGetsBase(rs[1..], Flushed(r, number, stored), Noted(number, used), i - 1);
    }
  }

  /** Request i is a second payment, equal to the first of its base in an import that had the base free. */
  predicate IsEqualInstalment(rs: seq<Request>, stored: Stored, i: nat)
    requires i < |rs|
  {
    Own(rs[i]) !in stored && FirstFor(rs, rs[i].base) < i && rs[FirstFor(rs, rs[i].base)].payment == rs[i].payment
  }

  /** Exactly which payments of an import are dropped, read off its input: the re-imports, as intended,
      and besides them exactly the equal instalments. */
  lemma DroppedIff(rs: seq<Request>, stored: Stored, i: nat)
    requires AreUnrelated(rs) && i < |rs|
    ensures |NumbersOf(rs, stored, {})| == |rs|
    ensures NumbersOf(rs, stored, {})[i] == None <==> IsReimport(rs[i], stored) || IsEqualInstalment(rs, stored, i)
  {
    var ns, first := NumbersOf(rs, stored, {}), FirstFor(rs, rs[i].base);
    NumbersAreFreshAndDistinct(rs, stored, {});
    FirstForIsFirst(rs, i);
    if RepeatsWithin(rs, ns, i) {
      var j :| 0 <= j < i && ns[j] == Some(rs[i].base) && rs[j].book == rs[i].book && rs[j].payment == rs[i].payment;
      assert Own(rs[i]) == Number(rs[j].book, ns[j].value);
      FirstGetsBase(rs, stored, {}, i);
      assert first == j;
    }
    if IsEqualInstalment(rs, stored, i) {
      FirstGetsBase(rs, stored, {}, i);
      assert RepeatsWithin(rs, ns, i);
    }
  }

  /** An import drops re-imports only, if and only if it has no equal instalments. */
  lemma OnlyReimportsDroppedIff(rs: seq<Request>, stored: Stored)
    requires AreUnrelated(rs)
    ensures |NumbersOf(rs, stored, {})| == |rs|
    ensures (forall i :: 0 <= i < |rs| ==> (NumbersOf(rs, stored, {})[i] == None <==> IsReimport(rs[i], stored)))
            <==> (forall i :: 0 <= i < |rs| ==> !IsEqualInstalment(rs, stored, i))
  {
    NumbersAreFreshAndDistinct(rs, stored, {});
    forall i | 0 <= i < |rs|
      ensures NumbersOf(rs, stored, {})[i] == None <==> IsReimport(rs[i], stored) || IsEqualInstalment(rs, stored, i)
    {
      DroppedIff(rs, stored, i);
    }
  }

  /** The importer's base for a payment of a transaction. */
  function BaseFor(book: Book, transaction: nat): string {
    (match book case Receipts => "VYP-PAY-" case Disbursements => "VYP-BPAY-") + Decimal(transaction)
  }

  /** Requests numbered by transaction are unrelated. */
  lemma TransactionBasesAreUnrelated(rs: seq<Request>, transactions: seq<nat>)
    requires |rs| == |transactions|
    requires forall i :: 0 <= i < |rs| ==> rs[i].base == BaseFor(rs[i].book, transactions[i])
    ensures AreUnrelated(rs)
  {
    forall i, j | 0 <= i < |rs| && 0 <= j < |rs| && rs[i].base == rs[j].base ensures rs[i].book == rs[j].book {
      assert rs[i].base[4] == if rs[i].book.Receipts? then 'P' else 'B';
      assert rs[j].base[4] == if rs[j].book.Receipts? then 'P' else 'B';
    }
    forall i, j, k | 0 <= i < |rs| && 0 <= j < |rs| && 2 <= k ensures rs[i].base != Candidate(rs[j].base, k) {
      var a, b := rs[i].base, rs[j].base;
      DecimalIsDigits(transactions[i]);
      assert a[4] == if rs[i].book.Receipts? then 'P' else 'B';
      assert Candidate(b, k)[4] == if rs[j].book.Receipts? then 'P' else 'B';
      var prefix := if rs[i].book.Receipts? then 8 else 9;
      assert a[prefix..] == Decimal(transactions[i]);
      assert rs[i].book == rs[j].book ==> Candidate(b, k)[prefix..][|b| - prefix] == '-';
    }
  }
}

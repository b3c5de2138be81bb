/** Double entry in every committed state: the deferred check sees only the entries on its queue, and
    the immutability guards make those all that can have changed. */
module JournalBalance {
  import opened Options
  import opened FiniteSums
  import opened LedgerRows
  import opened Tenancy

  ghost predicate AllBalanced(rows: Rows) {
    forall e :: Key(JournalEntries, e) in rows ==> IsBalanced(rows, e)
  }

  /** Entry e has the same lines, and no new header. */
  ghost predicate SameEntry(before: Rows, after: Rows, e: Id) {
    && LinesOf(after, e) == LinesOf(before, e)
    && (forall k :: k in LinesOf(before, e) ==> k in after && after[k] == before[k])
    && (Key(JournalEntries, e) in after ==> Key(JournalEntries, e) in before)
  }

  lemma SameEntrySameBalance(before: Rows, after: Rows, e: Id)
    requires SameEntry(before, after, e)
    ensures IsBalanced(after, e) == IsBalanced(before, e)
  {
    var lines := LinesOf(before, e);
    SumSame(lines, Side(before, Debit), Side(after, Debit));
    SumSame(lines, Side(before, Credit), Side(after, Credit));
  }

  /** A statement changes an entry's lines or creates its header only by queueing it. */
  lemma ExecQueuesChanges(s: Session, st: Statement, e: Id)
    requires Exec(s, st).Some?
    ensures s.pending <= Exec(s, st).value.pending
    ensures e !in Exec(s, st).value.pending ==> SameEntry(s.rows, Exec(s, st).value.rows, e)
  {
  }

  lemma {:induction false} ExecAllQueuesChanges(s: Session, sts: seq<Statement>, e: Id)
    requires ExecAll(s, sts).Some?
    ensures s.pending <= ExecAll(s, sts).value.pending
    ensures e !in ExecAll(s, sts).value.pending ==> SameEntry(s.rows, ExecAll(s, sts).value.rows, e)
    decreases |sts|
  {
    if sts != [] {
      ExecQueuesChanges(s, sts[0], e);
      ExecAllQueuesChanges(Exec(s, sts[0]).value, sts[1..], e);
    }
  }

  /** No transaction, whatever it inserts, updates, re-keys or purges, under whatever settings, can
      commit an entry with fewer than two lines or unequal debits and credits. */
  lemma TransactKeepsBalance(rows: Rows, context: Option<Tenant>, sts: seq<Statement>)
    requires AllBalanced(rows)
    ensures AllBalanced(Transact(rows, context, sts))
  {
    var begun := Session(rows, context, None, {});
    if ExecAll(begun, sts).Some? {
      var s := ExecAll(begun, sts).value;
      if PassesCommitCheck(s.rows, s.pending) {
        forall e | Key(JournalEntries, e) in s.rows ensures IsBalanced(s.rows, e) {
          if e !in s.pending {
            ExecAllQueuesChanges(begun, sts, e);
            SameEntrySameBalance(rows, s.rows, e);
          }
        }
      }
    }
  }

  lemma {:induction false} CommittedHistoryBalances(rows: Rows, works: seq<Work>)
    requires AllBalanced(rows)
    ensures AllBalanced(TransactAll(rows, works))
    decreases |works|
  {
    if works != [] {
      TransactKeepsBalance(rows, works[0].context, works[0].sts);
      CommittedHistoryBalances(Transact(rows, works[0].context, works[0].sts), works[1..]);
    }
  }

  /** A purge that deletes some lines of an entry but leaves the entry unbalanced does not commit. */
  lemma PartialPurgeAborts(rows: Rows, context: Option<Tenant>, sts: seq<Statement>, e: Id)
    requires AllBalanced(rows) && ExecAll(Session(rows, context, None, {}), sts).Some?
    requires var last := ExecAll(Session(rows, context, None, {}), sts).value.rows;
             Key(JournalEntries, e) in last && !IsBalanced(last, e)
    ensures Transact(rows, context, sts) == rows
  {
    var s := ExecAll(Session(rows, context, None, {}), sts).value;
    if e !in s.pending {
      ExecAllQueuesChanges(Session(rows, context, None, {}), sts, e);
      SameEntrySameBalance(rows, s.rows, e);
    }
  }

  /** The lines of one tenant. */
  function TenantLines(rows: Rows, t: Tenant): set<Key> {
    set k | k in rows && k.table.JournalLines? && rows[k].LineRow? && rows[k].tenant == Some(t)
  }

  function AccountOf(rows: Rows): Key -> Id {
    k => if k in rows && rows[k].LineRow? then rows[k].account else 0
  }

  function EntryOf(rows: Rows): Key -> Id {
    k => if k in rows && rows[k].LineRow? then rows[k].parent else 0
  }

  /** Debits minus credits of a row. */
  function Signed(rows: Rows): Key -> int {
    k => Side(rows, Debit)(k) - Side(rows, Credit)(k)
  }

  /** Debits minus credits of one account of one tenant. */
  ghost function AccountBalance(rows: Rows, t: Tenant, account: Id): int {
    Sum(Group(TenantLines(rows, t), AccountOf(rows), account), Signed(rows))
  }

  lemma {:induction false} SignedTotal(rows: Rows, lines: set<Key>)
    ensures Sum(lines, Signed(rows)) == Total(rows, lines, Debit) - Total(rows, lines, Credit)
  {
    if lines != {} {
      var x :| x in lines;
      SumPick(lines, x, Signed(rows));
      SumPick(lines, x, Side(rows, Debit));
      SumPick(lines, x, Side(rows, Credit));
      SignedTotal(rows, lines - {x});
    }
  }

  /** An account's balance is the total of its debit lines less the total of its credit lines. */
  lemma AccountBalanceIs(rows: Rows, t: Tenant, account: Id)
    ensures var own := set k | k in rows && k.table.JournalLines? && rows[k].LineRow? &&
                               rows[k].tenant == Some(t) && rows[k].account == account;
            AccountBalance(rows, t, account) == Total(rows, own, Debit) - Total(rows, own, Credit)
  {
    var own := set k | k in rows && k.table.JournalLines? && rows[k].LineRow? &&
                       rows[k].tenant == Some(t) && rows[k].account == account;
    assert Group(TenantLines(rows, t), AccountOf(rows), account) == own;
    SignedTotal(rows, own);
  }

  /** The part of an entry that one tenant sees is the whole entry or nothing, so it nets to zero. */
  lemma EntryNetsToZero(rows: Rows, t: Tenant, e: Id)
    requires AllBalanced(rows) && Agrees(rows)
    ensures Sum(Group(TenantLines(rows, t), EntryOf(rows), e), Signed(rows)) == 0
  {
    var part := Group(TenantLines(rows, t), EntryOf(rows), e);
    if part != {} {
      var x :| x in part;
      assert MatchesParents(rows, x.table, rows[x]);
      assert Key(JournalEntries, e) in ParentsOf(x.table, rows[x]);
      forall k | k in LinesOf(rows, e) ensures k in part {
        assert MatchesParents(rows, k.table, rows[k]);
        assert Key(JournalEntries, e) in ParentsOf(k.table, rows[k]);
      }
      assert part == LinesOf(rows, e);
      SignedTotal(rows, part);
    }
  }

  /** The trial balance: over any chart of accounts covering a tenant's lines, the account balances
      add up to zero. */
  lemma TrialBalanceIsZero(rows: Rows, t: Tenant, accounts: set<Id>)
    requires AllBalanced(rows) && Agrees(rows)
    requires forall k :: k in TenantLines(rows, t) ==> rows[k].account in accounts
    ensures Sum(accounts, a => AccountBalance(rows, t, a)) == 0
  {
    var lines := TenantLines(rows, t);
    var entries := set k | k in lines :: EntryOf(rows)(k);
    SumByGroup(lines, EntryOf(rows), entries, Signed(rows));
    forall e | e in entries ensures GroupTotals(lines, EntryOf(rows), Signed(rows))(e) == 0 {
      EntryNetsToZero(rows, t, e);
    }
    SumOfZeros(entries, GroupTotals(lines, EntryOf(rows), Signed(rows)));
    SumByGroup(lines, AccountOf(rows), accounts, Signed(rows));
    SumSame(accounts, GroupTotals(lines, AccountOf(rows), Signed(rows)), a => AccountBalance(rows, t, a));
  }

  /** In every committed state reached from an empty ledger, every tenant's trial balance is zero. */
  lemma CommittedTrialBalanceIsZero(works: seq<Work>, t: Tenant, accounts: set<Id>)
    requires forall k :: k in TenantLines(TransactAll(map[], works), t) ==>
                           TransactAll(map[], works)[k].account in accounts
    ensures Sum(accounts, a => AccountBalance(TransactAll(map[], works), t, a)) == 0
  {
    CommittedHistoryBalances(map[], works);
    TransactAllKeepsAgreement(map[], works);
    TrialBalanceIsZero(TransactAll(map[], works), t, accounts);
  }

  /** Running totals over the lines taken so far. */
  ghost predicate Totals(rows: Rows, done: set<Key>, lineCount: nat, debitTotal: int, creditTotal: int) {
    lineCount == |done| && debitTotal == Total(rows, done, Debit) && creditTotal == Total(rows, done, Credit)
  }

  lemma OneMoreLine(rows: Rows, done: set<Key>, k: Key, lineCount: nat, debitTotal: int, creditTotal: int)
    requires k in rows && rows[k].LineRow? && k !in done
    requires Totals(rows, done, lineCount, debitTotal, creditTotal)
    ensures if rows[k].direction == Debit
            then Totals(rows, done + {k}, lineCount + 1, debitTotal + rows[k].amount, creditTotal)
            else Totals(rows, done + {k}, lineCount + 1, debitTotal, creditTotal + rows[k].amount)
  {
    assert done + {k} - {k} == done;
    SumPick(done + {k}, k, Side(rows, Debit));
    SumPick(done + {k}, k, Side(rows, Credit));
  }

  lemma NoLineYet(rows: Rows)
    ensures Totals(rows, {}, 0, 0, 0)
  {
  }

  /** Moving one element over keeps two sets a partition. */
  lemma MoveOver(done: set<Key>, left: set<Key>, lines: set<Key>, k: Key)
    requires done !! left && done + left == lines && k in left
    ensures done + {k} !! left - {k} && (done + {k}) + (left - {k}) == lines && left - {k} < left && k !in done
  {
  }

  /** count(*), sum(amount) FILTER (DEBIT) and sum(amount) FILTER (CREDIT) over the selected lines. */
  method Aggregate(rows: Rows, lines: set<Key>) returns (lineCount: nat, debitTotal: int, creditTotal: int)
    requires forall k :: k in lines ==> k in rows && rows[k].LineRow?
    ensures Totals(rows, lines, lineCount, debitTotal, creditTotal)
  {
    lineCount, debitTotal, creditTotal := 0, 0, 0;
    var left := lines;
    ghost var done: set<Key> := {};
    NoLineYet(rows);
    while left != {}
      invariant done !! left && done + left == lines
      invariant Totals(rows, done, lineCount, debitTotal, creditTotal)
      decreases left
    {
      var k :| k in left;
      MoveOver(done, left, lines, k);
      OneMoreLine(rows, done, k, lineCount, debitTotal, creditTotal);
      lineCount := lineCount + 1;
      if rows[k].direction == Debit {
        debitTotal := debitTotal + rows[k].amount;
      } else {
        creditTotal := creditTotal + rows[k].amount;
      }
      left, done := left - {k}, done + {k};
    }
    assert done == lines;
  }

  /** The body of the deferred trigger: raises unless the entry is gone or balances. */
  method ValidateJournalBalance(rows: Rows, target: Id) returns (raised: bool)
    ensures raised <==> Key(JournalEntries, target) in rows && !IsBalanced(rows, target)
  {
    if Key(JournalEntries, target) !in rows {
      return false;
    }
    var lineCount, debitTotal, creditTotal := Aggregate(rows, LinesOf(rows, target));
    raised := lineCount < 2 || debitTotal != creditTotal;
  }
}

/** Concurrent posting transactions under snapshots: each statement, and each of the two queries of each
    deferred check at commit, sees some already committed state plus the transaction's own rows, while
    other transactions go on committing. No purge flag is set. */
module JournalConcurrency {
  import opened Options
  import opened FiniteSums
  import opened LedgerRows
  import opened Tenancy
  import opened JournalBalance
  import opened LedgerHistory

  /** `seen`: the latest snapshot used so far; `inserted`: the keys it inserted itself. */
  datatype Txn = Txn(seen: nat, own: Rows, inserted: set<Key>, context: Option<Tenant>, pending: set<Id>)

  /** `history` holds every committed state, the last being current. */
  datatype System = System(history: seq<Rows>, open: map<nat, Txn>)

  /** The snapshots of a balance check: of its look for the header, and of its sums over the lines. */
  datatype CheckReads = CheckReads(header: nat, lines: nat)

  datatype Step =
    | Begin(x: nat, context: Option<Tenant>)
    | Run(x: nat, snapshot: nat, st: Statement)
    | Commit(x: nat, checks: map<Id, CheckReads>)
    | Abort(x: nat)

  predicate IsJournal(table: Table) {
    table.JournalEntries? || table.JournalLines?
  }

  /** Every table of one owner per row. */
  predicate IsOwned(table: Table) {
    HasPolicy(table) && !IsGlobal(table)
  }

  /** The statements of a posting transaction: it inserts and updates rows of any owned table, and sets its
      tenant. Only journal rows are asked to go or to change their id. */
  predicate IsPosting(st: Statement) {
    match st
    case BindTenant(_) => true
    case FlagPurge(_) => false
    case Insert(key, _) => IsOwned(key.table)
    case Update(key, _) => IsOwned(key.table)
    case Rekey(key, _) => IsJournal(key.table)
    case Delete(key) => IsJournal(key.table)
  }

  /** Snapshots never go back, and none holds a key this transaction inserted: a second insert of a
      key another transaction has committed fails on the primary key. */
  predicate MaySee(sys: System, x: nat, snapshot: nat) {
    && x in sys.open && sys.open[x].seen <= snapshot < |sys.history|
    && sys.open[x].inserted !! sys.history[snapshot].Keys
  }

  function View(sys: System, x: nat, snapshot: nat): Rows
    requires MaySee(sys, x, snapshot)
  {
    sys.history[snapshot] + sys.open[x].own
  }

  /** The transaction's own rows once its view has become `after`. */
  function Overlay(own: Rows, before: Rows, after: Rows): Rows {
    (own - (before.Keys - after.Keys)) +
    map k | k in after && (k !in before || after[k] != before[k]) :: after[k]
  }

  /** Own rows once a statement has run: the overlay of its effect. */
  function Written(t: Txn, view: Rows, s: Session): Txn {
    var own := Overlay(t.own, view, s.rows);
    Txn(t.seen, own, own.Keys * (t.inserted + (own.Keys - view.Keys)), s.context, s.pending)
  }

  predicate Enabled(sys: System, step: Step) {
    match step
    case Begin(x, _) => x !in sys.open && |sys.history| > 0
    case Run(x, snapshot, st) => MaySee(sys, x, snapshot) && IsPosting(st)
    case Commit(x, checks) =>
      |sys.history| > 0 && x in sys.open && sys.open[x].pending <= checks.Keys &&
      forall e :: e in sys.open[x].pending ==> MaySee(sys, x, checks[e].header) && MaySee(sys, x, checks[e].lines)
    case Abort(x) => x in sys.open
  }

  ghost function Do(sys: System, step: Step): System
    requires Enabled(sys, step)
  {
    match step
    case Begin(x, context) =>
      sys.(open := sys.open[x := Txn(|sys.history| - 1, map[], {}, context, {})])
    case Abort(x) => sys.(open := sys.open - {x})
    case Run(x, snapshot, st) =>
      var t, view := sys.open[x], View(sys, x, snapshot);
      (match Exec(Session(view, t.context, None, t.pending), st)
       case None => sys.(open := sys.open - {x})
       case Some(s) => sys.(open := sys.open[x := Written(t, view, s).(seen := snapshot)]))
    case Commit(x, checks) =>
      var t, current := sys.open[x], sys.history[|sys.history| - 1];
      if PassesChecks(sys, x, checks) && t.inserted !! current.Keys
      then System(sys.history + [current + t.own], sys.open - {x})
      else sys.(open := sys.open - {x})
  }

  /** Every queued check, one after the other. */
  ghost predicate PassesChecks(sys: System, x: nat, checks: map<Id, CheckReads>)
    requires Enabled(sys, Commit(x, checks))
  {
    forall e :: e in sys.open[x].pending ==>
      PassesCheck(sys.history[checks[e].header], sys.history[checks[e].lines], sys.open[x], e)
  }

  /** The check of one entry, its two queries over two snapshots. */
  ghost predicate PassesCheck(header: Rows, lines: Rows, t: Txn, e: Id) {
    e in t.pending && Key(JournalEntries, e) in header + t.own ==> IsBalanced(lines + t.own, e)
  }

  /** What the guards protect of a committed row: its tenant, the whole of a line, the guarded columns of an
      entry and of a stock movement. */
  predicate KeepsRow(table: Table, before: Row, after: Row) {
    && after.tenant == before.tenant
    && (table.JournalLines? ==> after == before)
    && (table.JournalEntries? ==> KeepsEntry(before, after))
    && (table.StockLedger? && before.MovementRow? ==> after.MovementRow? && after.movement == before.movement)
  }

  ghost predicate Grows(a: Rows, b: Rows) {
    forall k :: k in a ==> k in b && KeepsRow(k.table, a[k], b[k])
  }

  ghost predicate IsSound(rows: Rows) {
    AllBalanced(rows) && Agrees(rows) && WellTyped(rows)
  }

  ghost predicate HistorySound(history: seq<Rows>) {
    && |history| > 0
    && (forall i :: 0 <= i < |history| ==> IsSound(history[i]))
    && (forall i, j :: 0 <= i <= j < |history| ==> Grows(history[i], history[j]))
  }

  /** An open transaction's own rows: inserted, or committed and with all that its guards protect; each child
      under parents it can see, of the same tenant; and everything written is queued. */
  ghost predicate TxnSound(base: Rows, t: Txn) {
    && t.inserted <= t.own.Keys && t.inserted !! base.Keys
    && forall k :: k in t.own ==> OwnRowSound(base, t, k)
  }

  ghost predicate OwnRowSound(base: Rows, t: Txn, k: Key)
    requires k in t.own
  {
    && IsOwned(k.table) && Fits(k.table, t.own[k])
    && Queued(k, t.own[k]) <= t.pending
    && (k in t.inserted || (!k.table.JournalLines? && k in base && KeepsRow(k.table, base[k], t.own[k])))
    && MatchesParents(base + t.own, k.table, t.own[k])
  }

  ghost predicate Sound(sys: System) {
    && HistorySound(sys.history)
    && forall x :: x in sys.open ==>
         sys.open[x].seen < |sys.history| && TxnSound(sys.history[sys.open[x].seen], sys.open[x])
  }

  /** What a transaction holds stays sound when it is seen over a later snapshot. */
  lemma LaterSnapshot(base: Rows, later: Rows, t: Txn)
    requires TxnSound(base, t) && Grows(base, later) && WellTyped(base) && t.inserted !! later.Keys
    ensures TxnSound(later, t)
  {
    forall k | k in t.own ensures OwnRowSound(later, t, k) {
      assert OwnRowSound(base, t, k);
    }
  }

  /** A visible header with committed lines is referenced, so it cannot be re-keyed. */
  lemma HeadersAreReferenced(base: Rows, own: Rows, key: Key)
    requires AllBalanced(base) && key.table.JournalEntries? && key in base
    requires forall k :: k in own && k.table.JournalLines? ==> k !in base
    ensures IsReferenced(base + own, key)
  {
    assert key == Key(JournalEntries, key.id);
    assert IsBalanced(base, key.id);
    assert LinesOf(base, key.id) != {};
    var k :| k in LinesOf(base, key.id);
    assert k in base + own && key in ParentsOf(k.table, (base + own)[k]);
  }

  lemma OverlayIsAfter(base: Rows, own: Rows, after: Rows)
    requires base.Keys <= after.Keys
    ensures base + Overlay(own, base + own, after) == after
  {
  }

  /** Without a purge flag a posting statement removes no line, and no referenced header. */
  lemma PostingKeepsKey(s: Session, st: Statement, k: Key)
    requires IsPosting(st) && s.purge.None? && Exec(s, st).Some?
    requires k in s.rows && (k.table.JournalEntries? ==> IsReferenced(s.rows, k))
    ensures k in Exec(s, st).value.rows
  {
  }

  lemma OwnLinesAreNew(base: Rows, t: Txn)
    requires TxnSound(base, t)
    ensures forall k :: k in t.own && k.table.JournalLines? ==> k !in base
  {
    forall k | k in t.own && k.table.JournalLines? ensures k !in base {
      assert OwnRowSound(base, t, k);
    }
  }

  lemma OverlayIsView(base: Rows, t: Txn, st: Statement)
    requires TxnSound(base, t) && AllBalanced(base) && IsPosting(st)
    requires Exec(Session(base + t.own, t.context, None, t.pending), st).Some?
    ensures var s := Exec(Session(base + t.own, t.context, None, t.pending), st).value;
            base + Overlay(t.own, base + t.own, s.rows) == s.rows
  {
    var before := Session(base + t.own, t.context, None, t.pending);
    OwnLinesAreNew(base, t);
    forall k | k in base ensures k in Exec(before, st).value.rows {
      if k.table.JournalEntries? {
        HeadersAreReferenced(base, t.own, k);
      }
      PostingKeepsKey(before, st, k);
    }
    OverlayIsAfter(base, t.own, Exec(before, st).value.rows);
  }

  /** A row that a statement inserted or changed. */
  predicate IsWritten(before: Rows, after: Rows, k: Key) {
    k in after && (k !in before || after[k] != before[k])
  }

  /** Whatever a posting statement writes is well-formed and queued; and what it rewrites is no line and
      keeps all that its guards protect. */
  lemma PostingWrites(s: Session, st: Statement, k: Key)
    requires IsPosting(st) && Exec(s, st).Some? && IsWritten(s.rows, Exec(s, st).value.rows, k)
    requires st.Rekey? && st.key in s.rows ==> Fits(st.key.table, s.rows[st.key])
    ensures var s' := Exec(s, st).value;
            && IsOwned(k.table) && Fits(k.table, s'.rows[k]) && Queued(k, s'.rows[k]) <= s'.pending
            && (k in s.rows ==> !k.table.JournalLines? && KeepsRow(k.table, s.rows[k], s'.rows[k]))
  {
  }

  lemma PendingGrows(s: Session, st: Statement)
    requires Exec(s, st).Some?
    ensures s.pending <= Exec(s, st).value.pending
  {
  }

  lemma RunKeepsOwnRow(base: Rows, t: Txn, st: Statement, s: Session, k: Key)
    requires TxnSound(base, t) && IsPosting(st)
    requires Exec(Session(base + t.own, t.context, None, t.pending), st) == Some(s)
    requires base + Written(t, base + t.own, s).own == s.rows && Agrees(s.rows)
    requires k in Written(t, base + t.own, s).own
    ensures OwnRowSound(base, Written(t, base + t.own, s), k)
  {
    var view := base + t.own;
    assert MatchesParents(s.rows, k.table, s.rows[k]);
    if k in t.own {
      assert OwnRowSound(base, t, k);
    }
    if IsWritten(view, s.rows, k) {
      if st.Rekey? && st.key in view {
        assert st.key !in s.rows;
        assert OwnRowSound(base, t, st.key);
      }
      PostingWrites(Session(view, t.context, None, t.pending), st, k);
    } else {
      PendingGrows(Session(view, t.context, None, t.pending), st);
    }
  }

  lemma ViewAgrees(base: Rows, t: Txn)
    requires Agrees(base) && WellTyped(base) && TxnSound(base, t)
    ensures Agrees(base + t.own) && WellTyped(base + t.own)
  {
    CommitKeepsAgreement(base, t);
  }

  lemma RunKeepsTxnSound(base: Rows, t: Txn, st: Statement, s: Session)
    requires TxnSound(base, t) && IsSound(base) && IsPosting(st)
    requires Exec(Session(base + t.own, t.context, None, t.pending), st) == Some(s)
    ensures TxnSound(base, Written(t, base + t.own, s))
  {
    OverlayIsView(base, t, st);
    ViewAgrees(base, t);
    ExecKeepsAgreement(Session(base + t.own, t.context, None, t.pending), st);
    forall k | k in Written(t, base + t.own, s).own ensures OwnRowSound(base, Written(t, base + t.own, s), k) {
      RunKeepsOwnRow(base, t, st, s, k);
    }
  }

  lemma SplitTotal(base: Rows, own: Rows, e: Id, side: Direction)
    requires LinesOf(base + own, e) == LinesOf(base, e) + LinesOf(own, e) && LinesOf(base, e) !! LinesOf(own, e)
    requires forall k :: k in LinesOf(base, e) ==> k !in own
    ensures Total(base + own, LinesOf(base + own, e), side) ==
            Total(base, LinesOf(base, e), side) + Total(own, LinesOf(own, e), side)
  {
    var a, b := LinesOf(base, e), LinesOf(own, e);
    SumUnion(a, b, Side(base + own, side));
    SumSame(a, Side(base + own, side), Side(base, side));
    SumSame(b, Side(base + own, side), Side(own, side));
  }

  lemma LinesSplit(base: Rows, t: Txn, e: Id)
    requires TxnSound(base, t)
    ensures LinesOf(base + t.own, e) == LinesOf(base, e) + LinesOf(t.own, e)
    ensures LinesOf(base, e) !! LinesOf(t.own, e)
    ensures forall k :: k in LinesOf(base, e) ==> k !in t.own
  {
    OwnLinesAreNew(base, t);
  }

  /** Journal lines of an entry over a snapshot: the committed ones and the transaction's own. */
  lemma Split(base: Rows, t: Txn, e: Id)
    requires TxnSound(base, t)
    ensures |LinesOf(base + t.own, e)| == |LinesOf(base, e)| + |LinesOf(t.own, e)|
    ensures Total(base + t.own, LinesOf(base + t.own, e), Debit) ==
            Total(base, LinesOf(base, e), Debit) + Total(t.own, LinesOf(t.own, e), Debit)
    ensures Total(base + t.own, LinesOf(base + t.own, e), Credit) ==
            Total(base, LinesOf(base, e), Credit) + Total(t.own, LinesOf(t.own, e), Credit)
  {
    LinesSplit(base, t, e);
    CardUnion(LinesOf(base, e), LinesOf(t.own, e));
    SplitTotal(base, t.own, e, Debit);
    SplitTotal(base, t.own, e, Credit);
  }

  lemma NoLinesWithoutHeader(rows: Rows, e: Id)
    requires Agrees(rows) && Key(JournalEntries, e) !in rows
    ensures LinesOf(rows, e) == {} && Total(rows, LinesOf(rows, e), Debit) == Total(rows, LinesOf(rows, e), Credit) == 0
  {
    forall k | k in rows && k.table.JournalLines? && rows[k].LineRow? ensures rows[k].parent != e {
      assert MatchesParents(rows, k.table, rows[k]);
      assert Key(JournalEntries, rows[k].parent) in ParentsOf(k.table, rows[k]);
    }
  }

  /** An entry with no own line and no own header is untouched; any other is queued and visible. */
  lemma TouchedIsQueued(base: Rows, t: Txn, e: Id)
    requires TxnSound(base, t)
    requires LinesOf(t.own, e) != {} || Key(JournalEntries, e) in t.own
    ensures e in t.pending && Key(JournalEntries, e) in base + t.own
  {
    if Key(JournalEntries, e) in t.own {
      assert OwnRowSound(base, t, Key(JournalEntries, e));
    } else {
      var k :| k in LinesOf(t.own, e);
      assert OwnRowSound(base, t, k);
      assert Key(JournalEntries, e) in ParentsOf(k.table, t.own[k]);
    }
  }

  /** What a transaction adds to an entry is itself balanced, by the check over its snapshots. */
  lemma AddedIsBalanced(header: Rows, lines: Rows, t: Txn, e: Id)
    requires TxnSound(header, t) && IsSound(lines) && TxnSound(lines, t)
    requires PassesCheck(header, lines, t, e)
    ensures Total(t.own, LinesOf(t.own, e), Debit) == Total(t.own, LinesOf(t.own, e), Credit)
    ensures Key(JournalEntries, e) !in lines && Key(JournalEntries, e) in t.own ==> |LinesOf(t.own, e)| >= 2
  {
    var entry := Key(JournalEntries, e);
    if LinesOf(t.own, e) != {} || entry in t.own {
      TouchedIsQueued(header, t, e);
      assert IsBalanced(lines + t.own, e);
      Split(lines, t, e);
      if entry in lines {
        assert IsBalanced(lines, e);
      } else {
        NoLinesWithoutHeader(lines, e);
      }
    }
  }

  /** The write-skew step: the check passed over older snapshots, yet the entry balances in the
      newer state, because the rows this transaction adds are themselves balanced. */
  lemma CommitKeepsBalance(header: Rows, lines: Rows, current: Rows, t: Txn, e: Id)
    requires IsSound(lines) && IsSound(current) && Grows(lines, current)
    requires TxnSound(header, t) && TxnSound(lines, t) && TxnSound(current, t)
    requires PassesCheck(header, lines, t, e)
    requires Key(JournalEntries, e) in current + t.own
    ensures IsBalanced(current + t.own, e)
  {
    AddedIsBalanced(header, lines, t, e);
    Split(current, t, e);
    if Key(JournalEntries, e) in current {
      assert IsBalanced(current, e);
    } else {
      NoLinesWithoutHeader(current, e);
      assert Key(JournalEntries, e) in t.own;
    }
  }

  lemma CommitKeepsAgreement(current: Rows, t: Txn)
    requires Agrees(current) && WellTyped(current) && TxnSound(current, t)
    ensures Agrees(current + t.own) && WellTyped(current + t.own) && Grows(current, current + t.own)
  {
    var rows := current + t.own;
    forall k | k in rows ensures MatchesParents(rows, k.table, rows[k]) {
      if k in t.own {
        assert OwnRowSound(current, t, k);
      } else if IsChild(k.table) {
        assert MatchesParents(current, k.table, current[k]);
        forall p | p in ParentsOf(k.table, rows[k]) ensures p in rows && rows[p].tenant == rows[k].tenant {
          if p in t.own {
            assert OwnRowSound(current, t, p);
          }
        }
      }
    }
    forall k | k in t.own
      ensures Fits(k.table, rows[k])
      ensures k in current ==> KeepsRow(k.table, current[k], rows[k])
    {
      assert OwnRowSound(current, t, k);
    }
  }

  lemma GrowsOn(a: Rows, b: Rows, c: Rows)
    requires Grows(a, b) && Grows(b, c)
    ensures Grows(a, c)
  {
  }

  lemma HistoryGrows(history: seq<Rows>, next: Rows)
    requires HistorySound(history) && IsSound(next) && Grows(history[|history| - 1], next)
    ensures HistorySound(history + [next])
  {
    var longer, last := history + [next], |history| - 1;
    forall i, j | 0 <= i <= j < |longer| ensures Grows(longer[i], longer[j]) {
      if j <= last {
        assert Grows(history[i], history[j]);
      } else if i <= last {
        GrowsOn(history[i], history[last], next);
      }
    }
  }

  lemma RunStepKeepsSound(sys: System, x: nat, snapshot: nat, st: Statement)
    requires Sound(sys) && Enabled(sys, Run(x, snapshot, st))
    ensures Sound(Do(sys, Run(x, snapshot, st)))
  {
    var t, base := sys.open[x], sys.history[snapshot];
    SoundOver(sys, x, snapshot);
    var after := Exec(Session(base + t.own, t.context, None, t.pending), st);
    if after.Some? {
      RunKeepsTxnSound(base, t, st, after.value);
      LastSeen(base, Written(t, base + t.own, after.value), snapshot);
    }
  }

  /** What an open transaction holds is sound over every snapshot it may see. */
  lemma SoundOver(sys: System, x: nat, snapshot: nat)
    requires Sound(sys) && MaySee(sys, x, snapshot)
    ensures IsSound(sys.history[snapshot]) && TxnSound(sys.history[snapshot], sys.open[x])
    ensures Grows(sys.history[snapshot], sys.history[|sys.history| - 1])
  {
    var t, base := sys.open[x], sys.history[snapshot];
    assert IsSound(sys.history[t.seen]) && IsSound(base);
    assert Grows(sys.history[t.seen], base) && Grows(base, sys.history[|sys.history| - 1]);
    LaterSnapshot(sys.history[t.seen], base, t);
  }

  lemma CommittedEntryBalances(sys: System, x: nat, checks: map<Id, CheckReads>, e: Id)
    requires Sound(sys) && Enabled(sys, Commit(x, checks)) && PassesChecks(sys, x, checks)
    requires sys.open[x].inserted !! sys.history[|sys.history| - 1].Keys
    requires Key(JournalEntries, e) in sys.history[|sys.history| - 1] + sys.open[x].own
    ensures IsBalanced(sys.history[|sys.history| - 1] + sys.open[x].own, e)
  {
    var last := |sys.history| - 1;
    var check := if e in sys.open[x].pending then checks[e] else CheckReads(last, last);
    SoundOver(sys, x, check.header);
    SoundOver(sys, x, check.lines);
    SoundOver(sys, x, last);
    CommitKeepsBalance(sys.history[check.header], sys.history[check.lines], sys.history[last], sys.open[x], e);
  }

  lemma CommittedStateBalances(sys: System, x: nat, checks: map<Id, CheckReads>)
    requires Sound(sys) && Enabled(sys, Commit(x, checks)) && PassesChecks(sys, x, checks)
    requires sys.open[x].inserted !! sys.history[|sys.history| - 1].Keys
    ensures AllBalanced(sys.history[|sys.history| - 1] + sys.open[x].own)
  {
    forall e | Key(JournalEntries, e) in sys.history[|sys.history| - 1] + sys.open[x].own
      ensures IsBalanced(sys.history[|sys.history| - 1] + sys.open[x].own, e)
    {
      CommittedEntryBalances(sys, x, checks, e);
    }
  }

  lemma CommitKeepsHistory(history: seq<Rows>, t: Txn)
    requires HistorySound(history) && TxnSound(history[|history| - 1], t)
    requires AllBalanced(history[|history| - 1] + t.own)
    ensures HistorySound(history + [history[|history| - 1] + t.own])
  {
    assert IsSound(history[|history| - 1]);
    CommitKeepsAgreement(history[|history| - 1], t);
    HistoryGrows(history, history[|history| - 1] + t.own);
  }

  lemma CommittedStateIsSound(sys: System, x: nat, checks: map<Id, CheckReads>)
    requires Sound(sys) && Enabled(sys, Commit(x, checks)) && PassesChecks(sys, x, checks)
    requires sys.open[x].inserted !! sys.history[|sys.history| - 1].Keys
    ensures HistorySound(sys.history + [sys.history[|sys.history| - 1] + sys.open[x].own])
  {
    assert TxnSound(sys.history[|sys.history| - 1], sys.open[x]) by {
      SoundOver(sys, x, |sys.history| - 1);
    }
    assert AllBalanced(sys.history[|sys.history| - 1] + sys.open[x].own) by {
      CommittedStateBalances(sys, x, checks);
    }
    CommitKeepsHistory(sys.history, sys.open[x]);
  }

  lemma CommitStepKeepsSound(sys: System, x: nat, checks: map<Id, CheckReads>)
    requires Sound(sys) && Enabled(sys, Commit(x, checks))
    ensures Sound(Do(sys, Commit(x, checks)))
  {
    if PassesChecks(sys, x, checks) && sys.open[x].inserted !! sys.history[|sys.history| - 1].Keys {
      CommittedStateIsSound(sys, x, checks);
    }
  }

  lemma StepKeepsSound(sys: System, step: Step)
    requires Sound(sys) && Enabled(sys, step)
    ensures Sound(Do(sys, step))
  {
    match step
    case Begin(x, context) =>
    case Abort(x) =>
    case Run(x, snapshot, st) => RunStepKeepsSound(sys, x, snapshot, st);
    case Commit(x, checks) => CommitStepKeepsSound(sys, x, checks);
  }

  lemma LastSeen(base: Rows, t: Txn, seen: nat)
    requires TxnSound(base, t)
    ensures TxnSound(base, t.(seen := seen))
  {
    forall k | k in t.own ensures OwnRowSound(base, t.(seen := seen), k) {
      assert OwnRowSound(base, t, k);
    }
  }

  /** Nothing makes a transaction see more than it has: a statement of a posting on any owned table, and every
      check at the commit, may use any snapshot from its latest on that lacks its own new keys. */
  lemma AnySnapshotWillDo(sys: System, x: nat, snapshot: nat, key: Key, row: Row, checks: map<Id, CheckReads>)
    requires x in sys.open && sys.open[x].seen <= snapshot < |sys.history|
    requires sys.open[x].inserted !! sys.history[snapshot].Keys
    requires !key.table.TenantMemberships? && !key.table.Unowned? && !key.table.AuditLogs?
    requires !key.table.TermsTemplates? && !key.table.TaxTemplates? && !key.table.PaymentTerms?
    requires sys.open[x].pending <= checks.Keys
    requires forall e :: e in checks ==> checks[e] == CheckReads(snapshot, snapshot)
    ensures Enabled(sys, Run(x, snapshot, Insert(key, row))) && Enabled(sys, Run(x, snapshot, Update(key, row)))
    ensures Enabled(sys, Commit(x, checks))
  {
  }

  ghost predicate IsRun(trace: seq<System>, steps: seq<Step>) {
    && |trace| == |steps| + 1
    && forall i :: 0 <= i < |steps| ==> Enabled(trace[i], steps[i]) && trace[i + 1] == Do(trace[i], steps[i])
  }

  lemma {:induction false} RunKeepsSound(trace: seq<System>, steps: seq<Step>, i: nat)
    requires IsRun(trace, steps) && Sound(trace[0]) && i <= |steps|
    ensures Sound(trace[i])
  {
    if i > 0 {
      RunKeepsSound(trace, steps, i - 1);
      StepKeepsSound(trace[i - 1], steps[i - 1]);
    }
  }

  /** Double entry survives write skew: in every interleaving, every committed state has all entries balanced
      with at least two lines, every child under parents of its own tenant, and every tenant's trial balance
      zero; and every row committed earlier is still there with its tenant, a line unchanged, an entry with
      its lock state and, once locked, all guarded columns, a stock movement with all guarded columns. */
  lemma DoubleEntrySurvivesWriteSkew(start: Rows, trace: seq<System>, steps: seq<Step>, i: nat, m: nat, n: nat,
                                     t: Tenant, accounts: set<Id>)
    requires IsSound(start) && IsRun(trace, steps) && trace[0] == System([start], map[]) && i <= |steps|
    requires m <= n < |trace[i].history|
    requires forall k :: k in TenantLines(trace[i].history[n], t) ==> trace[i].history[n][k].account in accounts
    ensures AllBalanced(trace[i].history[n]) && OwnersAgree(trace[i].history[n])
    ensures Sum(accounts, a => AccountBalance(trace[i].history[n], t, a)) == 0
    ensures forall k :: k in trace[i].history[m] ==>
              k in trace[i].history[n] && KeepsRow(k.table, trace[i].history[m][k], trace[i].history[n][k])
  {
    RunKeepsSound(trace, steps, i);
    assert IsSound(trace[i].history[n]);
    assert Grows(trace[i].history[m], trace[i].history[n]);
    AgreesIff(trace[i].history[n]);
    TrialBalanceIsZero(trace[i].history[n], t, accounts);
  }

  ghost predicate Reaches(a: System, b: System) {
    exists trace, steps :: IsRun(trace, steps) && trace[0] == a && trace[|steps|] == b
  }

  lemma StayPut(a: System)
    ensures Reaches(a, a)
  {
    assert IsRun([a], []) && [a][0] == a;
  }

  lemma OneMore(a: System, b: System, step: Step)
    requires Reaches(a, b) && Enabled(b, step)
    ensures Reaches(a, Do(b, step))
  {
    var trace, steps :| IsRun(trace, steps) && trace[0] == a && trace[|steps|] == b;
    var trace', steps' := trace + [Do(b, step)], steps + [step];
    assert IsRun(trace', steps') && trace'[0] == a && trace'[|steps'|] == Do(b, step);
  }

  /** Transaction x is open with what session s has seen and done, over the latest committed state. */
  ghost predicate IsAt(sys: System, x: nat, s: Session) {
    && Sound(sys) && MaySee(sys, x, |sys.history| - 1)
    && s == Session(View(sys, x, |sys.history| - 1), sys.open[x].context, None, sys.open[x].pending)
  }

  /** A sound transaction whose latest snapshot is the latest state. */
  lemma LatestIsAt(sys: System, x: nat, s: Session)
    requires Sound(sys) && x in sys.open && sys.open[x].seen == |sys.history| - 1
    requires s == Session(sys.history[|sys.history| - 1] + sys.open[x].own, sys.open[x].context, None,
                          sys.open[x].pending)
    ensures IsAt(sys, x, s)
  {
    assert TxnSound(sys.history[sys.open[x].seen], sys.open[x]);
  }

  lemma RunIs(sys: System, x: nat, s: Session, st: Statement)
    requires IsAt(sys, x, s) && IsPosting(st)
    ensures Enabled(sys, Run(x, |sys.history| - 1, st))
    ensures var next := Do(sys, Run(x, |sys.history| - 1, st));
            && next.history == sys.history && next.open - {x} == sys.open - {x}
            && match Exec(s, st)
               case None => x !in next.open
               case Some(s') =>
                 x in next.open && next.open[x] == Written(sys.open[x], s.rows, s').(seen := |sys.history| - 1)
  {
  }

  /** One statement, run over the latest state. */
  lemma RunLatest(sys: System, x: nat, s: Session, st: Statement) returns (next: System)
    requires IsAt(sys, x, s) && IsPosting(st)
    ensures Enabled(sys, Run(x, |sys.history| - 1, st)) && next == Do(sys, Run(x, |sys.history| - 1, st))
    ensures next.history == sys.history && next.open - {x} == sys.open - {x}
    ensures match Exec(s, st)
            case None => x !in next.open
            case Some(s') => IsAt(next, x, s')
  {
    RunIs(sys, x, s, st);
    next := Do(sys, Run(x, |sys.history| - 1, st));
    if Exec(s, st).Some? {
      RunIsAt(sys, x, s, st, next);
    }
  }

  lemma RunIsAt(sys: System, x: nat, s: Session, st: Statement, next: System)
    requires IsAt(sys, x, s) && IsPosting(st) && Exec(s, st).Some? && next.history == sys.history
    requires Enabled(sys, Run(x, |sys.history| - 1, st)) && next == Do(sys, Run(x, |sys.history| - 1, st))
    requires x in next.open
    requires next.open[x] == Written(sys.open[x], s.rows, Exec(s, st).value).(seen := |sys.history| - 1)
    ensures IsAt(next, x, Exec(s, st).value)
  {
    var base := sys.history[|sys.history| - 1];
    assert Sound(next) by {
      StepKeepsSound(sys, Run(x, |sys.history| - 1, st));
    }
    assert base + next.open[x].own == Exec(s, st).value.rows by {
      WrittenIsView(sys, x, s, st);
    }
    PurgeStaysUnset(s, st);
    LatestIsAt(next, x, Exec(s, st).value);
  }

  lemma WrittenIsView(sys: System, x: nat, s: Session, st: Statement)
    requires IsAt(sys, x, s) && IsPosting(st) && Exec(s, st).Some?
    ensures sys.history[|sys.history| - 1] + Overlay(sys.open[x].own, s.rows, Exec(s, st).value.rows) ==
            Exec(s, st).value.rows
  {
    SoundOver(sys, x, |sys.history| - 1);
    OverlayIsView(sys.history[|sys.history| - 1], sys.open[x], st);
  }

  lemma PurgeStaysUnset(s: Session, st: Statement)
    requires IsPosting(st) && s.purge.None? && Exec(s, st).Some?
    ensures Exec(s, st).value.purge.None?
  {
  }

  lemma {:induction false} RunAllLatest(start: System, sys: System, x: nat, s: Session, sts: seq<Statement>)
    returns (after: System)
    requires Reaches(start, sys) && IsAt(sys, x, s) && forall st :: st in sts ==> IsPosting(st)
    ensures Reaches(start, after) && after.history == sys.history && after.open - {x} == sys.open - {x}
    ensures match ExecAll(s, sts)
            case None => x !in after.open
            case Some(s') => IsAt(after, x, s')
    decreases |sts|
  {
    after := sys;
    if sts != [] {
      assert sts[0] in sts && forall st :: st in sts[1..] ==> st in sts;
      after := RunLatest(sys, x, s, sts[0]);
      OneMore(start, sys, Run(x, |sys.history| - 1, sts[0]));
      if Exec(s, sts[0]).Some? {
        after := RunAllLatest(start, after, x, Exec(s, sts[0]).value, sts[1..]);
      }
    }
  }

  lemma ChecksOverLatest(sys: System, x: nat, s: Session, checks: map<Id, CheckReads>)
    requires IsAt(sys, x, s)
    requires checks == map e | e in s.pending :: CheckReads(|sys.history| - 1, |sys.history| - 1)
    ensures Enabled(sys, Commit(x, checks))
    ensures PassesChecks(sys, x, checks) <==> PassesCommitCheck(s.rows, s.pending)
  {
    forall e | e in s.pending
      ensures PassesCheck(sys.history[checks[e].header], sys.history[checks[e].lines], sys.open[x], e) <==>
              (Key(JournalEntries, e) in s.rows ==> IsBalanced(s.rows, e))
    {
    }
  }

  /** The commit, checked over the latest state. */
  lemma CommitLatest(start: System, sys: System, x: nat, s: Session) returns (after: System)
    requires Reaches(start, sys) && IsAt(sys, x, s)
    ensures Reaches(start, after) && after.open == sys.open - {x}
    ensures after.history == if PassesCommitCheck(s.rows, s.pending) then sys.history + [s.rows] else sys.history
  {
    var last := |sys.history| - 1;
    var checks := map e | e in s.pending :: CheckReads(last, last);
    ChecksOverLatest(sys, x, s, checks);
    CommitIs(sys, x, s, checks);
    OneMore(start, sys, Commit(x, checks));
    after := Do(sys, Commit(x, checks));
  }

  lemma CommitIs(sys: System, x: nat, s: Session, checks: map<Id, CheckReads>)
    requires IsAt(sys, x, s) && Enabled(sys, Commit(x, checks))
    requires PassesChecks(sys, x, checks) <==> PassesCommitCheck(s.rows, s.pending)
    ensures var after := Do(sys, Commit(x, checks));
            && after.open == sys.open - {x}
            && after.history == if PassesCommitCheck(s.rows, s.pending) then sys.history + [s.rows] else sys.history
  {
  }

  lemma BeginIs(sys: System, x: nat, context: Option<Tenant>)
    requires |sys.history| > 0 && x !in sys.open
    ensures Enabled(sys, Begin(x, context))
    ensures var begun := Do(sys, Begin(x, context));
            && begun.history == sys.history && begun.open - {x} == sys.open
            && x in begun.open && begun.open[x] == Txn(|sys.history| - 1, map[], {}, context, {})
  {
  }

  lemma BeginLatest(sys: System, x: nat, context: Option<Tenant>) returns (begun: System)
    requires Sound(sys) && x !in sys.open
    ensures Reaches(sys, begun) && begun.history == sys.history && begun.open - {x} == sys.open
    ensures IsAt(begun, x, Session(sys.history[|sys.history| - 1], context, None, {}))
  {
    BeginIs(sys, x, context);
    begun := Do(sys, Begin(x, context));
    assert Reaches(sys, begun) by {
      StayPut(sys);
      OneMore(sys, sys, Begin(x, context));
    }
    assert Sound(begun) by {
      StepKeepsSound(sys, Begin(x, context));
    }
    var current := sys.history[|sys.history| - 1];
    assert current + map[] == current;
    LatestIsAt(begun, x, Session(current, context, None, {}));
  }

  /** The history after a transaction that nothing interrupted. */
  ghost predicate Follows(history: seq<Rows>, context: Option<Tenant>, sts: seq<Statement>, later: seq<Rows>)
    requires |history| > 0
  {
    match ExecAll(Session(history[|history| - 1], context, None, {}), sts)
    case None => later == history
    case Some(s) => later == if PassesCommitCheck(s.rows, s.pending) then history + [s.rows] else history
  }

  lemma FollowsIsTransact(history: seq<Rows>, context: Option<Tenant>, sts: seq<Statement>, later: seq<Rows>)
    requires |history| > 0 && Follows(history, context, sts, later)
    ensures |later| > 0 && (later == history || later[..|later| - 1] == history)
    ensures later[|later| - 1] == Transact(history[|history| - 1], context, sts)
  {
  }

  lemma NothingToRemove(open: map<nat, Txn>, x: nat)
    requires x !in open
    ensures open - {x} == open
  {
  }

  lemma RunUninterrupted(sys: System, x: nat, context: Option<Tenant>, sts: seq<Statement>) returns (after: System)
    requires Sound(sys) && x !in sys.open && forall st :: st in sts ==> IsPosting(st)
    ensures Reaches(sys, after) && after.open - {x} == sys.open && x !in after.open
    ensures Follows(sys.history, context, sts, after.history)
  {
    var first := Session(sys.history[|sys.history| - 1], context, None, {});
    var begun := BeginLatest(sys, x, context);
    after := RunAllLatest(sys, begun, x, first, sts);
    if ExecAll(first, sts).Some? {
      after := CommitLatest(sys, after, x, ExecAll(first, sts).value);
    }
  }

  /** The serial specification is a special case of the interleaving one: whatever others have open, a posting
      transaction that starts now and is not interrupted leaves the committed state as Transact says. */
  lemma UninterruptedIsTransact(sys: System, x: nat, context: Option<Tenant>, sts: seq<Statement>)
    returns (after: System)
    requires Sound(sys) && x !in sys.open && forall st :: st in sts ==> IsPosting(st)
    ensures Reaches(sys, after) && after.open == sys.open
    ensures |after.history| > 0 &&
            (after.history == sys.history || after.history[..|after.history| - 1] == sys.history)
    ensures after.history[|after.history| - 1] == Transact(sys.history[|sys.history| - 1], context, sts)
  {
    after := RunUninterrupted(sys, x, context, sts);
    NothingToRemove(after.open, x);
    FollowsIsTransact(sys.history, context, sts, after.history);
  }
}

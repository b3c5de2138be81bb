/** What the database lets through: which statements succeed, column by column and table by table, and that
    postings, reversal marks and purges commit. */
module LedgerAcceptance {
  import opened Options
  import opened FiniteSums
  import opened LedgerRows
  import opened Tenancy
  import opened JournalBalance

  /** A session sees and writes its own tenant's rows; besides, rows without a tenant in the four shared
      tables, and everything in the registry of memberships and in tables without tenants. */
  lemma VisibleIff(table: Table, tenant: Option<Tenant>, context: Option<Tenant>)
    ensures Visible(table, tenant, context) <==>
              match table
              case TenantMemberships => true
              case Unowned(_) => true
              case AuditLogs => tenant.None? || tenant == context
              case TermsTemplates => tenant.None? || tenant == context
              case TaxTemplates => tenant.None? || tenant == context
              case PaymentTerms => tenant.None? || tenant == context
              case _ => tenant.Some? && tenant == context
  {
  }

  /** An INSERT into an owned table succeeds exactly for a new key, a row of the table's columns, with a
      positive amount on a journal line, of the session's tenant, under parents of that tenant. */
  lemma InsertSucceedsIff(s: Session, key: Key, row: Row)
    requires HasPolicy(key.table) && !IsGlobal(key.table)
    ensures Exec(s, Insert(key, row)).Some? <==>
              && key !in s.rows && row.tenant.Some? && row.tenant == s.context && OwnersMatch(s.rows, key.table, row)
              && match key.table
                 case JournalEntries => row.EntryRow?
                 case JournalLines => row.LineRow? && row.amount > 0
                 case StockLedger => row.MovementRow?
                 case Detail(_) => row.ChildRow?
                 case PaymentAllocations => row.AllocationRow?
                 case BillPaymentAllocations => row.AllocationRow?
                 case _ => row.PlainRow?
  {
    if Fits(key.table, row) {
      MatchesParentsIff(s.rows, key.table, row);
    }
  }

  /** An UPDATE of an entry succeeds exactly if it changes nothing but the unguarded columns and, unlocked, the
      facts. */
  lemma EntryUpdateSucceedsIff(s: Session, key: Key, row: Row)
    requires key.table.JournalEntries? && Found(s, key) && s.rows[key].EntryRow?
    ensures var was := s.rows[key];
            Exec(s, Update(key, row)).Some? <==>
              row.EntryRow? &&
              row == EntryRow(was.tenant, was.locked, if was.locked then was.facts else row.facts, row.meta)
  {
  }

  /** One of a stock movement exactly if it changes nothing but the reversal linkage. */
  lemma MovementUpdateSucceedsIff(s: Session, key: Key, row: Row)
    requires key.table.StockLedger? && Found(s, key) && s.rows[key].MovementRow?
    ensures var was := s.rows[key];
            Exec(s, Update(key, row)).Some? <==>
              row.MovementRow? && row == MovementRow(was.tenant, was.movement, row.linkage)
  {
  }

  /** Journal lines and audit rows admit none, and other owned rows any that keeps their tenant and names
      parents of it. */
  lemma OtherUpdateSucceedsIff(s: Session, key: Key, row: Row)
    requires Found(s, key) && Fits(key.table, s.rows[key]) && OwnersMatch(s.rows, key.table, s.rows[key])
    ensures key.table.JournalLines? || key.table.AuditLogs? ==> Exec(s, Update(key, row)).None?
    ensures key.table.Detail? ==>
              (Exec(s, Update(key, row)).Some? <==>
                 row.ChildRow? && row.tenant == s.rows[key].tenant &&
                 HasOwner(s.rows, Key(Header(key.table.document), row.parent), row.tenant))
    ensures key.table.PaymentAllocations? ==>
              (Exec(s, Update(key, row)).Some? <==>
                 row.AllocationRow? && row.tenant == s.rows[key].tenant &&
                 HasOwner(s.rows, Key(Payments, row.payment), row.tenant) &&
                 HasOwner(s.rows, Key(Header(Invoice), row.against), row.tenant))
    ensures key.table.BillPaymentAllocations? ==>
              (Exec(s, Update(key, row)).Some? <==>
                 row.AllocationRow? && row.tenant == s.rows[key].tenant &&
                 HasOwner(s.rows, Key(BillPayments, row.payment), row.tenant) &&
                 HasOwner(s.rows, Key(Header(Bill), row.against), row.tenant))
    ensures key.table.Header? || key.table.Payments? || key.table.BillPayments? || key.table.OtherOwned? ==>
              (Exec(s, Update(key, row)).Some? <==> row.PlainRow? && row.tenant == s.rows[key].tenant)
  {
    MatchesParentsIff(s.rows, key.table, s.rows[key]);
    if Fits(key.table, row) {
      MatchesParentsIff(s.rows, key.table, row);
    }
  }

  predicate IsLedger(table: Table) {
    table.JournalEntries? || table.JournalLines? || table.StockLedger?
  }

  /** A DELETE from the ledger succeeds exactly under a purge flag of the row's tenant and, for an entry, once
      its lines are gone. */
  lemma LedgerDeleteSucceedsIff(s: Session, key: Key)
    requires IsLedger(key.table) && Found(s, key) && WellTyped(s.rows)
    ensures Exec(s, Delete(key)).Some? <==>
              && s.purge.Some? && s.purge == s.rows[key].tenant
              && (key.table.JournalEntries? ==>
                    forall k :: k in s.rows && k.table.JournalLines? ==> s.rows[k].parent != key.id)
    ensures Exec(s, Delete(key)).Some? ==> Exec(s, Delete(key)).value.rows == s.rows - {key}
  {
    assert key == Key(key.table, key.id);
    forall k | k in s.rows
      ensures key in ParentsOf(k.table, s.rows[k]) <==>
              key.table.JournalEntries? && k.table.JournalLines? && s.rows[k].parent == key.id
    {
      assert Fits(k.table, s.rows[k]);
    }
    if IsReferenced(s.rows, key) {
      var k :| k in s.rows && key in ParentsOf(k.table, s.rows[k]);
      assert s.rows[k].parent == key.id;
    }
  }

  /** A row of another table that nobody references can be deleted by its tenant: a header without detail rows
      and allocations, a payment without allocations, and any detail row, allocation or other row. */
  lemma OtherDeleteSucceedsIff(s: Session, key: Key)
    requires Found(s, key) && WellTyped(s.rows) && !IsLedger(key.table) && !key.table.AuditLogs?
    ensures Exec(s, Delete(key)).Some? <==>
              forall k :: k in s.rows ==> !References(k.table, s.rows[k], key)
  {
    forall k | k in s.rows ensures key in ParentsOf(k.table, s.rows[k]) <==> References(k.table, s.rows[k], key) {
      assert Fits(k.table, s.rows[k]) && key == Key(key.table, key.id);
    }
  }

  predicate References(table: Table, row: Row, key: Key) {
    match key.table
    case JournalEntries => table.JournalLines? && row.LineRow? && row.parent == key.id
    case Header(d) =>
      || (table == Detail(d) && row.ChildRow? && row.parent == key.id)
      || (d.Invoice? && table.PaymentAllocations? && row.AllocationRow? && row.against == key.id)
      || (d.Bill? && table.BillPaymentAllocations? && row.AllocationRow? && row.against == key.id)
    case Payments => table.PaymentAllocations? && row.AllocationRow? && row.payment == key.id
    case BillPayments => table.BillPaymentAllocations? && row.AllocationRow? && row.payment == key.id
    case _ => false
  }

  /** An id can be changed, except of a line or an audit row, to a free one and while nobody references it. */
  lemma RekeySucceedsIff(s: Session, key: Key, id: Id)
    requires Found(s, key) && WellTyped(s.rows)
    ensures Exec(s, Rekey(key, id)).Some? <==>
              && !key.table.JournalLines? && !key.table.AuditLogs? && Key(key.table, id) !in s.rows
              && forall k :: k in s.rows ==> !References(k.table, s.rows[k], key)
    ensures Exec(s, Rekey(key, id)).Some? ==>
              Exec(s, Rekey(key, id)).value.rows == (s.rows - {key})[Key(key.table, id) := s.rows[key]]
  {
    forall k | k in s.rows ensures key in ParentsOf(k.table, s.rows[k]) <==> References(k.table, s.rows[k], key) {
      assert Fits(k.table, s.rows[k]) && key == Key(key.table, key.id);
    }
  }

  /** A hidden row is not found: a statement on it does nothing. And settings change nothing but themselves. */
  lemma OtherStatements(s: Session, key: Key, row: Row, id: Id, t: Option<Tenant>)
    ensures key !in s.rows || !Visible(key.table, s.rows[key].tenant, s.context) ==>
              && Exec(s, Update(key, row)) == Some(s)
              && Exec(s, Rekey(key, id)) == Some(s)
              && Exec(s, Delete(key)) == Some(s)
    ensures Exec(s, BindTenant(t)) == Some(Session(s.rows, t, s.purge, s.pending))
    ensures Exec(s, FlagPurge(t)) == Some(Session(s.rows, s.context, t, s.pending))
  {
  }

  /** A transaction of one UPDATE that leaves the lines alone commits if the UPDATE succeeds. */
  lemma UpdateCommits(rows: Rows, t: Tenant, key: Key, row: Row)
    requires AllBalanced(rows) && key in rows && !key.table.JournalLines?
    requires Exec(Session(rows, Some(t), None, {}), Update(key, row)).Some? && rows[key].tenant == Some(t)
    ensures Transact(rows, Some(t), [Update(key, row)]) == rows[key := row]
  {
    var begun := Session(rows, Some(t), None, {});
    var updated := Exec(begun, Update(key, row)).value;
    assert updated.rows == rows[key := row];
    assert [Update(key, row)][1..] == [] && ExecAll(updated, []) == Some(updated);
    forall e | Key(JournalEntries, e) in updated.rows ensures IsBalanced(updated.rows, e) {
      SameEntrySameBalance(rows, updated.rows, e);
    }
  }

  /** A posted entry can be marked reversed, or given any other linkage, by a transaction of its tenant. */
  lemma LinkageUpdateCommits(rows: Rows, t: Tenant, key: Key, meta: EntryMeta)
    requires AllBalanced(rows) && key in rows && key.table.JournalEntries?
    requires rows[key].EntryRow? && rows[key].tenant == Some(t)
    ensures var row := EntryRow(Some(t), rows[key].locked, rows[key].facts, meta);
            Transact(rows, Some(t), [Update(key, row)]) == rows[key := row]
  {
    var row := EntryRow(Some(t), rows[key].locked, rows[key].facts, meta);
    EntryUpdateSucceedsIff(Session(rows, Some(t), None, {}), key, row);
    UpdateCommits(rows, t, key, row);
  }

  /** And so can a stock movement. */
  lemma MovementLinkageUpdateCommits(rows: Rows, t: Tenant, key: Key, linkage: MovementMeta)
    requires AllBalanced(rows) && key in rows && key.table.StockLedger?
    requires rows[key].MovementRow? && rows[key].tenant == Some(t)
    ensures var row := MovementRow(Some(t), rows[key].movement, linkage);
            Transact(rows, Some(t), [Update(key, row)]) == rows[key := row]
  {
    var row := MovementRow(Some(t), rows[key].movement, linkage);
    MovementUpdateSucceedsIff(Session(rows, Some(t), None, {}), key, row);
    UpdateCommits(rows, t, key, row);
  }

  /** A line of a posting: its key, its account, its amount and its side. */
  datatype PostedLine = PostedLine(id: Id, account: Id, amount: int, direction: Direction)

  function LineKey(line: PostedLine): Key {
    Key(JournalLines, line.id)
  }

  function AsRow(t: Tenant, entry: Id, line: PostedLine): Row {
    LineRow(Some(t), entry, line.account, line.amount, line.direction)
  }

  function Inserts(t: Tenant, entry: Id, lines: seq<PostedLine>): seq<Statement> {
    seq(|lines|, i requires 0 <= i < |lines| => Insert(LineKey(lines[i]), AsRow(t, entry, lines[i])))
  }

  function WithLines(rows: Rows, t: Tenant, entry: Id, lines: seq<PostedLine>): Rows
    decreases |lines|
  {
    if lines == [] then rows
    else WithLines(rows[LineKey(lines[0]) := AsRow(t, entry, lines[0])], t, entry, lines[1..])
  }

  /** The sum of the amounts on one side. */
  function SideSum(lines: seq<PostedLine>, side: Direction): int {
    if lines == [] then 0
    else SideSum(lines[1..], side) + if lines[0].direction == side then lines[0].amount else 0
  }

  predicate AreNew(rows: Rows, lines: seq<PostedLine>) {
    && (forall i :: 0 <= i < |lines| ==> LineKey(lines[i]) !in rows)
    && (forall i, j :: 0 <= i < j < |lines| ==> lines[i].id != lines[j].id)
  }

  predicate ArePositive(lines: seq<PostedLine>) {
    forall i :: 0 <= i < |lines| ==> lines[i].amount > 0
  }

  lemma NextAreNew(rows: Rows, t: Tenant, entry: Id, lines: seq<PostedLine>)
    requires AreNew(rows, lines) && lines != []
    ensures AreNew(rows[LineKey(lines[0]) := AsRow(t, entry, lines[0])], lines[1..])
  {
    forall i | 0 <= i < |lines[1..]| ensures lines[1..][i] == lines[i + 1] && lines[i + 1].id != lines[0].id {
    }
  }

  lemma InsertLine(s: Session, t: Tenant, entry: Id, line: PostedLine)
    requires s.context == Some(t) && HasOwner(s.rows, Key(JournalEntries, entry), Some(t))
    requires LineKey(line) !in s.rows
    ensures Exec(s, Insert(LineKey(line), AsRow(t, entry, line))) ==
            if line.amount > 0
            then Some(s.(rows := s.rows[LineKey(line) := AsRow(t, entry, line)], pending := s.pending + {entry}))
            else None
  {
    InsertSucceedsIff(s, LineKey(line), AsRow(t, entry, line));
  }

  lemma {:induction false} InsertLines(s: Session, t: Tenant, entry: Id, lines: seq<PostedLine>)
    requires s.context == Some(t) && HasOwner(s.rows, Key(JournalEntries, entry), Some(t))
    requires AreNew(s.rows, lines) && entry in s.pending
    ensures ExecAll(s, Inserts(t, entry, lines)) ==
            if ArePositive(lines) then Some(s.(rows := WithLines(s.rows, t, entry, lines))) else None
    decreases |lines|
  {
    if lines != [] {
      var line, rest := lines[0], lines[1..];
      var next := s.(rows := s.rows[LineKey(line) := AsRow(t, entry, line)]);
      assert s.pending + {entry} == s.pending;
      InsertLine(s, t, entry, line);
      assert Inserts(t, entry, lines)[0] == Insert(LineKey(line), AsRow(t, entry, line));
      assert Inserts(t, entry, lines)[1..] == Inserts(t, entry, rest);
      NextAreNew(s.rows, t, entry, lines);
      InsertLines(next, t, entry, rest);
      assert ArePositive(lines) <==> line.amount > 0 && ArePositive(rest);
    }
  }

  lemma OneMoreLineTotal(rows: Rows, t: Tenant, entry: Id, line: PostedLine, side: Direction)
    requires LineKey(line) !in rows
    ensures var next := rows[LineKey(line) := AsRow(t, entry, line)];
            && LinesOf(next, entry) == LinesOf(rows, entry) + {LineKey(line)}
            && Total(next, LinesOf(next, entry), side) ==
               Total(rows, LinesOf(rows, entry), side) + if line.direction == side then line.amount else 0
  {
    var next := rows[LineKey(line) := AsRow(t, entry, line)];
    assert LinesOf(next, entry) - {LineKey(line)} == LinesOf(rows, entry);
    SumPick(LinesOf(next, entry), LineKey(line), Side(next, side));
    SumSame(LinesOf(rows, entry), Side(next, side), Side(rows, side));
  }

  lemma {:induction false} PostedTotal(rows: Rows, t: Tenant, entry: Id, lines: seq<PostedLine>, side: Direction)
    requires AreNew(rows, lines)
    ensures var after := WithLines(rows, t, entry, lines);
            && |LinesOf(after, entry)| == |LinesOf(rows, entry)| + |lines|
            && Total(after, LinesOf(after, entry), side) ==
               Total(rows, LinesOf(rows, entry), side) + SideSum(lines, side)
    decreases |lines|
  {
    if lines != [] {
      OneMoreLineTotal(rows, t, entry, lines[0], side);
      NextAreNew(rows, t, entry, lines);
      PostedTotal(rows[LineKey(lines[0]) := AsRow(t, entry, lines[0])], t, entry, lines[1..], side);
    }
  }

  /** A new entry has no lines yet, every child having its parents. */
  lemma NewEntryIsEmpty(rows: Rows, entry: Id, header: Row)
    requires WellTyped(rows) && OwnersAgree(rows) && Key(JournalEntries, entry) !in rows && header.EntryRow?
    ensures LinesOf(rows[Key(JournalEntries, entry) := header], entry) == {}
  {
    var next := rows[Key(JournalEntries, entry) := header];
    forall k | k in next && k.table.JournalLines? ensures !(next[k].LineRow? && next[k].parent == entry) {
      assert OwnersMatch(rows, k.table, rows[k]);
    }
  }

  lemma {:induction false} WithLinesKeepsHeader(rows: Rows, t: Tenant, entry: Id, lines: seq<PostedLine>)
    ensures forall k :: k in rows && !k.table.JournalLines? ==>
              k in WithLines(rows, t, entry, lines) && WithLines(rows, t, entry, lines)[k] == rows[k]
    decreases |lines|
  {
    if lines != [] {
      WithLinesKeepsHeader(rows[LineKey(lines[0]) := AsRow(t, entry, lines[0])], t, entry, lines[1..]);
    }
  }

  lemma PostingRuns(rows: Rows, t: Tenant, entry: Id, header: Row, lines: seq<PostedLine>)
    requires header.EntryRow? && header.tenant == Some(t) && Key(JournalEntries, entry) !in rows && AreNew(rows, lines)
    ensures var posted := rows[Key(JournalEntries, entry) := header];
            ExecAll(Session(rows, Some(t), None, {}),
                    [Insert(Key(JournalEntries, entry), header)] + Inserts(t, entry, lines)) ==
            if ArePositive(lines) then Some(Session(WithLines(posted, t, entry, lines), Some(t), None, {entry}))
            else None
  {
    var key, inserts := Key(JournalEntries, entry), Inserts(t, entry, lines);
    var begun := Session(rows, Some(t), None, {});
    var posted := Session(rows[key := header], Some(t), None, {entry});
    InsertSucceedsIff(begun, key, header);
    assert {} + Queued(key, header) == {entry};
    assert Exec(begun, Insert(key, header)) == Some(posted);
    assert ([Insert(key, header)] + inserts)[1..] == inserts;
    InsertLines(posted, t, entry, lines);
  }

  lemma PostingPassesIff(rows: Rows, t: Tenant, entry: Id, header: Row, lines: seq<PostedLine>)
    requires WellTyped(rows) && OwnersAgree(rows) && header.EntryRow?
    requires Key(JournalEntries, entry) !in rows && AreNew(rows, lines)
    ensures var after := WithLines(rows[Key(JournalEntries, entry) := header], t, entry, lines);
            PassesCommitCheck(after, {entry}) <==> |lines| >= 2 && SideSum(lines, Debit) == SideSum(lines, Credit)
  {
    var posted := rows[Key(JournalEntries, entry) := header];
    var after := WithLines(posted, t, entry, lines);
    NewEntryIsEmpty(rows, entry, header);
    PostedTotal(posted, t, entry, lines, Debit);
    PostedTotal(posted, t, entry, lines, Credit);
    WithLinesKeepsHeader(posted, t, entry, lines);
    assert PassesCommitCheck(after, {entry}) <==> IsBalanced(after, entry);
  }

  /** A posting commits if and only if it has at least two lines, all of positive amount, and as much debit as
      credit; otherwise it leaves no trace. */
  lemma PostingCommitsIff(rows: Rows, t: Tenant, entry: Id, header: Row, lines: seq<PostedLine>)
    requires WellTyped(rows) && OwnersAgree(rows)
    requires header.EntryRow? && header.tenant == Some(t) && Key(JournalEntries, entry) !in rows && AreNew(rows, lines)
    ensures Transact(rows, Some(t), [Insert(Key(JournalEntries, entry), header)] + Inserts(t, entry, lines)) ==
            if |lines| >= 2 && ArePositive(lines) && SideSum(lines, Debit) == SideSum(lines, Credit)
            then WithLines(rows[Key(JournalEntries, entry) := header], t, entry, lines)
            else rows
  {
    PostingRuns(rows, t, entry, header, lines);
    if ArePositive(lines) {
      PostingPassesIff(rows, t, entry, header, lines);
    }
  }

  function Deletes(keys: seq<Key>): seq<Statement> {
    seq(|keys|, i requires 0 <= i < |keys| => Delete(keys[i]))
  }

  /** Ledger rows of the session's tenant that no row outside them names as its parent. */
  predicate CanGo(s: Session, keys: seq<Key>, t: Tenant) {
    && s.context == Some(t) && s.purge == Some(t)
    && forall k :: k in keys ==>
         && IsLedger(k.table) && (k in s.rows ==> s.rows[k].tenant == Some(t))
         && (k.table.JournalEntries? ==>
               forall j :: j in s.rows && j.table.JournalLines? ==> s.rows[j].LineRow? && s.rows[j].parent != k.id)
  }

  lemma DeleteOne(s: Session, key: Key, t: Tenant)
    requires CanGo(s, [key], t) && WellTyped(s.rows)
    ensures Exec(s, Delete(key)).Some?
    ensures var after := Exec(s, Delete(key)).value;
            && after.rows == s.rows - {key} && after.context == s.context && after.purge == s.purge
            && forall e :: e in after.pending ==>
                 e in s.pending || (key in s.rows && key.table.JournalLines? && s.rows[key].parent == e)
  {
    assert key in [key];
    if key in s.rows {
      LedgerDeleteSucceedsIff(s, key);
    } else {
      assert s.rows - {key} == s.rows;
    }
  }

  /** All of them go, and the entries queued are those of the lines that went. */
  lemma {:induction false} DeleteAll(s: Session, keys: seq<Key>, t: Tenant)
    requires CanGo(s, keys, t) && WellTyped(s.rows)
    ensures ExecAll(s, Deletes(keys)).Some?
    ensures var after := ExecAll(s, Deletes(keys)).value;
            && after.rows == s.rows - (set k | k in keys)
            && after.context == s.context && after.purge == s.purge
            && forall e :: e in after.pending ==>
                 e in s.pending ||
                 exists k :: k in keys && k in s.rows && k.table.JournalLines? && s.rows[k].parent == e
    decreases |keys|
  {
    if keys == [] {
      assert s.rows - (set k | k in keys) == s.rows;
    } else {
      assert keys[0] in keys && forall k :: k in keys[1..] ==> k in keys;
      DeleteOne(s, keys[0], t);
      var next := Exec(s, Delete(keys[0])).value;
      assert Deletes(keys)[0] == Delete(keys[0]) && Deletes(keys)[1..] == Deletes(keys[1..]);
      DeleteAll(next, keys[1..], t);
      assert (set k | k in keys) == {keys[0]} + (set k | k in keys[1..]);
      assert next.rows - (set k | k in keys[1..]) == s.rows - (set k | k in keys);
    }
  }

  /** What is left when a tenant's ledger is gone. */
  function Purged(rows: Rows, t: Tenant): Rows {
    map k | k in rows && !(IsLedger(k.table) && rows[k].tenant == Some(t)) :: rows[k]
  }

  /** The rows of a purge: all ledger rows of the tenant, entries after everything else. */
  predicate ListsLedger(rows: Rows, t: Tenant, first: seq<Key>, entries: seq<Key>) {
    && (forall k :: k in first ==> k in rows && (k.table.JournalLines? || k.table.StockLedger?))
    && (forall k :: k in entries ==> k in rows && k.table.JournalEntries?)
    && forall k :: k in rows ==>
         (k in first + entries <==> IsLedger(k.table) && rows[k].tenant == Some(t))
  }

  lemma PurgeRuns(rows: Rows, t: Tenant, first: seq<Key>, entries: seq<Key>) returns (after: Session)
    requires WellTyped(rows) && OwnersAgree(rows) && ListsLedger(rows, t, first, entries)
    ensures ExecAll(Session(rows, Some(t), Some(t), {}), Deletes(first) + Deletes(entries)) == Some(after)
    ensures after.rows == Purged(rows, t)
    ensures forall e :: e in after.pending ==> Key(JournalEntries, e) !in after.rows
  {
    var s := Session(rows, Some(t), Some(t), {});
    forall k | k in first ensures rows[k].tenant == Some(t) {
      assert k in first + entries;
    }
    DeleteAll(s, first, t);
    var middle := ExecAll(s, Deletes(first)).value;
    forall k, j | k in entries && j in middle.rows && j.table.JournalLines?
      ensures middle.rows[j].LineRow? && middle.rows[j].parent != k.id
    {
      assert k in first + entries && OwnersMatch(rows, j.table, rows[j]);
      assert k == Key(JournalEntries, k.id);
      assert rows[j].parent == k.id ==> j in first + entries;
    }
    forall k | k in entries ensures k in middle.rows ==> middle.rows[k].tenant == Some(t) {
      assert k in first + entries;
    }
    DeleteAll(middle, entries, t);
    ExecAllAppend(s, Deletes(first), Deletes(entries));
    after := ExecAll(middle, Deletes(entries)).value;
    assert after.rows == Purged(rows, t);
    forall e | e in after.pending ensures Key(JournalEntries, e) !in after.rows {
      var k :| k in first && k.table.JournalLines? && rows[k].parent == e;
      assert OwnersMatch(rows, k.table, rows[k]) && k in first + entries;
    }
  }

  lemma {:induction false} ExecAllAppend(s: Session, first: seq<Statement>, second: seq<Statement>)
    requires ExecAll(s, first).Some?
    ensures ExecAll(s, first + second) == ExecAll(ExecAll(s, first).value, second)
    decreases |first|
  {
    if first == [] {
      assert first + second == second;
    } else {
      ExecAllAppend(Exec(s, first[0]).value, first[1..], second);
      assert (first + second)[0] == first[0] && (first + second)[1..] == first[1..] + second;
    }
  }

  /** A tenant's whole ledger can go, in one transaction of that tenant, if and only if the purge flag names it:
      then exactly its ledger rows are gone, and under any other flag nothing is. */
  lemma PurgeCommitsIff(rows: Rows, t: Tenant, flag: Option<Tenant>, first: seq<Key>, entries: seq<Key>)
    requires WellTyped(rows) && OwnersAgree(rows) && AllBalanced(rows) && ListsLedger(rows, t, first, entries)
    ensures Transact(rows, Some(t), [FlagPurge(flag)] + (Deletes(first) + Deletes(entries))) ==
            if flag == Some(t) then Purged(rows, t) else rows
  {
    var sts := Deletes(first) + Deletes(entries);
    var flagged := Session(rows, Some(t), flag, {});
    assert ([FlagPurge(flag)] + sts)[0] == FlagPurge(flag) && ([FlagPurge(flag)] + sts)[1..] == sts;
    if flag == Some(t) {
      var after := PurgeRuns(rows, t, first, entries);
    } else if sts == [] {
      assert ExecAll(flagged, sts) == Some(flagged);
    } else {
      var keys := first + entries;
      assert sts[0] == Delete(keys[0]) && keys[0] in keys && keys[0] in rows;
      assert Found(flagged, keys[0]);
      LedgerDeleteSucceedsIff(flagged, keys[0]);
      assert ExecAll(flagged, sts) == None;
    }
  }
}

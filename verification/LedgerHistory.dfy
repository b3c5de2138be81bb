/** Append-only history, tenant by tenant: what no transaction can do to the journal and the stock
    ledger of a tenant the purge flag never names, whichever other tenants are purged. */
module LedgerHistory {
  import opened Options
  import opened LedgerRows
  import opened Tenancy
  import opened JournalBalance

  predicate NeverFlags(sts: seq<Statement>, u: Tenant) {
    forall st :: st in sts ==> st != FlagPurge(Some(u))
  }

  predicate OwnedRow(rows: Rows, k: Key, u: Tenant) {
    k in rows && rows[k].tenant == Some(u)
  }

  /** Lock state and owner stay, and a locked entry keeps every guarded column. */
  predicate KeepsEntry(before: Row, after: Row) {
    before.EntryRow? ==>
      && after.EntryRow? && after.tenant == before.tenant && after.locked == before.locked
      && (before.locked ==> after.facts == before.facts)
  }

  lemma ExecKeepsLine(s: Session, st: Statement, u: Tenant, k: Key)
    requires s.purge != Some(u) && Exec(s, st).Some?
    requires k.table.JournalLines? && OwnedRow(s.rows, k, u)
    ensures k in Exec(s, st).value.rows && Exec(s, st).value.rows[k] == s.rows[k]
  {
  }

  lemma ExecKeepsEntry(s: Session, st: Statement, u: Tenant, k: Key, line: Key)
    requires s.purge != Some(u) && Exec(s, st).Some?
    requires k.table.JournalEntries? && OwnedRow(s.rows, k, u)
    requires line in LinesOf(s.rows, k.id)
    ensures k in Exec(s, st).value.rows && KeepsEntry(s.rows[k], Exec(s, st).value.rows[k])
    ensures Exec(s, st).value.rows[k].tenant == Some(u)
  {
    assert k in ParentsOf(line.table, s.rows[line]);
    assert IsReferenced(s.rows, k);
  }

  lemma {:induction false} ExecAllKeepsLine(s: Session, sts: seq<Statement>, u: Tenant, k: Key)
    requires s.purge != Some(u) && NeverFlags(sts, u) && ExecAll(s, sts).Some?
    requires k.table.JournalLines? && OwnedRow(s.rows, k, u)
    ensures k in ExecAll(s, sts).value.rows && ExecAll(s, sts).value.rows[k] == s.rows[k]
    decreases |sts|
  {
    if sts != [] {
      assert sts[0] in sts && forall st :: st in sts[1..] ==> st in sts;
      ExecKeepsLine(s, sts[0], u, k);
      ExecAllKeepsLine(Exec(s, sts[0]).value, sts[1..], u, k);
    }
  }

  lemma {:induction false} ExecAllKeepsEntry(s: Session, sts: seq<Statement>, u: Tenant, k: Key, line: Key)
    requires s.purge != Some(u) && NeverFlags(sts, u) && ExecAll(s, sts).Some?
    requires k.table.JournalEntries? && OwnedRow(s.rows, k, u)
    requires line in LinesOf(s.rows, k.id) && OwnedRow(s.rows, line, u)
    ensures k in ExecAll(s, sts).value.rows && KeepsEntry(s.rows[k], ExecAll(s, sts).value.rows[k])
    ensures ExecAll(s, sts).value.rows[k].tenant == Some(u)
    decreases |sts|
  {
    if sts != [] {
      assert sts[0] in sts && forall st :: st in sts[1..] ==> st in sts;
      ExecKeepsLine(s, sts[0], u, line);
      ExecKeepsEntry(s, sts[0], u, k, line);
      ExecAllKeepsEntry(Exec(s, sts[0]).value, sts[1..], u, k, line);
    }
  }

  /** Every journal line of u is still there, unchanged, and every entry of u as KeepsEntry says. */
  ghost predicate JournalKept(before: Rows, after: Rows, u: Tenant) {
    forall k :: OwnedRow(before, k, u) ==>
      && (k.table.JournalLines? ==> k in after && after[k] == before[k])
      && (k.table.JournalEntries? ==>
            k in after && after[k].tenant == Some(u) && KeepsEntry(before[k], after[k]))
  }

  lemma TransactKeepsJournal(rows: Rows, context: Option<Tenant>, sts: seq<Statement>, u: Tenant)
    requires Agrees(rows) && AllBalanced(rows) && NeverFlags(sts, u)
    ensures JournalKept(rows, Transact(rows, context, sts), u)
  {
    var begun := Session(rows, context, None, {});
    if ExecAll(begun, sts).Some? {
      var after := ExecAll(begun, sts).value.rows;
      forall k | OwnedRow(rows, k, u)
        ensures k.table.JournalLines? ==> k in after && after[k] == rows[k]
        ensures k.table.JournalEntries? ==>
                  k in after && after[k].tenant == Some(u) && KeepsEntry(rows[k], after[k])
      {
        if k.table.JournalLines? {
          ExecAllKeepsLine(begun, sts, u, k);
        } else if k.table.JournalEntries? {
          var line := LineOfEntry(rows, k);
          ExecAllKeepsEntry(begun, sts, u, k, line);
        }
      }
    }
  }

  /** A committed entry has lines, of its own tenant. */
  lemma LineOfEntry(rows: Rows, k: Key) returns (line: Key)
    requires Agrees(rows) && AllBalanced(rows) && k in rows && k.table.JournalEntries?
    ensures line in LinesOf(rows, k.id) && rows[line].tenant == rows[k].tenant
  {
    assert k == Key(JournalEntries, k.id) && IsBalanced(rows, k.id);
    assert LinesOf(rows, k.id) != {};
    line :| line in LinesOf(rows, k.id);
    assert MatchesParents(rows, line.table, rows[line]);
    assert k in ParentsOf(line.table, rows[line]);
  }

  lemma KeptTwice(a: Rows, b: Rows, c: Rows, u: Tenant)
    requires JournalKept(a, b, u) && JournalKept(b, c, u)
    ensures JournalKept(a, c, u)
  {
    forall k | OwnedRow(a, k, u) && (k.table.JournalLines? || k.table.JournalEntries?) ensures OwnedRow(b, k, u) {
    }
  }

  /** Append-only: along any run of transactions that never flags u for purging, whatever else they
      purge, u's committed lines persist unchanged, and its entries with lock state, owner and, once
      locked, all guarded columns. */
  lemma {:induction false} JournalIsAppendOnly(rows: Rows, works: seq<Work>, u: Tenant)
    requires Agrees(rows) && AllBalanced(rows)
    requires forall w :: w in works ==> NeverFlags(w.sts, u)
    ensures JournalKept(rows, TransactAll(rows, works), u)
    ensures forall k :: k in rows && k.table.JournalLines? && rows[k].tenant == Some(u) ==>
              k in TransactAll(rows, works) && TransactAll(rows, works)[k] == rows[k]
    decreases |works|
  {
    if works != [] {
      assert works[0] in works && forall w :: w in works[1..] ==> w in works;
      var next := Transact(rows, works[0].context, works[0].sts);
      TransactKeepsJournal(rows, works[0].context, works[0].sts, u);
      TransactKeepsBalance(rows, works[0].context, works[0].sts);
      TransactKeepsAgreement(rows, works[0].context, works[0].sts);
      JournalIsAppendOnly(next, works[1..], u);
      KeptTwice(rows, next, TransactAll(rows, works), u);
    }
  }

  /** What append-only promises of an entry: nothing but the correction linkage and updated_at differs. */
  predicate OnlyLinkageDiffers(before: Row, after: Row) {
    before.EntryRow? && after.EntryRow? &&
    after == before.(meta := after.meta.(createdAt := before.meta.createdAt))
  }

  /** The columns that no guard protects: created_at, and the facts of an unlocked entry. */
  predicate UnguardedAgree(before: Row, after: Row) {
    before.EntryRow? && after.EntryRow? &&
    after.meta.createdAt == before.meta.createdAt && (!before.locked ==> after.facts == before.facts)
  }

  /** An UPDATE that the guards let through leaves everything but the linkage as it was if and only if
      it leaves created_at alone and, on an unlocked entry, the facts. */
  lemma UpdateAppendsOnlyIff(s: Session, key: Key, row: Row)
    requires key.table.JournalEntries? && Found(s, key) && s.rows[key].EntryRow?
    requires Exec(s, Update(key, row)).Some?
    ensures OnlyLinkageDiffers(s.rows[key], row) <==> UnguardedAgree(s.rows[key], row)
    ensures Exec(s, Update(key, row)).value.rows[key] == row
  {
  }

  /** Over any run that never flags its tenant, a committed entry is still there, and it differs in its
      linkage only if and only if its created_at and, unlocked, its facts are the same. */
  lemma EntryIsAppendOnlyIff(rows: Rows, works: seq<Work>, u: Tenant, k: Key)
    requires Agrees(rows) && AllBalanced(rows) && k.table.JournalEntries? && OwnedRow(rows, k, u) && rows[k].EntryRow?
    requires forall w :: w in works ==> NeverFlags(w.sts, u)
    ensures k in TransactAll(rows, works)
    ensures OnlyLinkageDiffers(rows[k], TransactAll(rows, works)[k]) <==>
            UnguardedAgree(rows[k], TransactAll(rows, works)[k])
  {
    JournalIsAppendOnly(rows, works, u);
  }

  /** No UPDATE of this entry in the run gives it other unguarded columns than it has in `row`. */
  predicate NeverRewrites(sts: seq<Statement>, k: Key, row: Row) {
    forall st :: st in sts && st.Update? && st.key == k && st.row.EntryRow? ==> UnguardedAgree(row, st.row)
  }

  /** The entry as it was, apart from linkage, under a line that keeps it from being re-keyed. */
  predicate Intact(rows: Rows, k: Key, line: Key, row: Row, u: Tenant) {
    k in rows && OnlyLinkageDiffers(row, rows[k]) && OwnedRow(rows, k, u) &&
    line in LinesOf(rows, k.id) && OwnedRow(rows, line, u)
  }

  lemma ExecKeepsIntact(s: Session, st: Statement, u: Tenant, k: Key, line: Key, row: Row)
    requires s.purge != Some(u) && Exec(s, st).Some? && k.table.JournalEntries?
    requires Intact(s.rows, k, line, row, u) && NeverRewrites([st], k, row)
    ensures Intact(Exec(s, st).value.rows, k, line, row, u)
  {
    ExecKeepsLine(s, st, u, line);
    ExecKeepsEntry(s, st, u, k, line);
    if st.Update? && st.key == k && Found(s, k) {
      assert st in [st];
      UpdateAppendsOnlyIff(s, k, st.row);
    }
  }

  lemma {:induction false} ExecAllKeepsIntact(s: Session, sts: seq<Statement>, u: Tenant, k: Key, line: Key, row: Row)
    requires s.purge != Some(u) && NeverFlags(sts, u) && ExecAll(s, sts).Some? && k.table.JournalEntries?
    requires Intact(s.rows, k, line, row, u) && NeverRewrites(sts, k, row)
    ensures Intact(ExecAll(s, sts).value.rows, k, line, row, u)
    decreases |sts|
  {
    if sts != [] {
      assert sts[0] in sts && forall st :: st in sts[1..] ==> st in sts;
      ExecKeepsIntact(s, sts[0], u, k, line, row);
      ExecAllKeepsIntact(Exec(s, sts[0]).value, sts[1..], u, k, line, row);
    }
  }

  lemma {:induction false} RunKeepsIntact(rows: Rows, works: seq<Work>, u: Tenant, k: Key, line: Key, row: Row)
    requires k.table.JournalEntries? && Intact(rows, k, line, row, u)
    requires forall w :: w in works ==> NeverFlags(w.sts, u) && NeverRewrites(w.sts, k, row)
    ensures Intact(TransactAll(rows, works), k, line, row, u)
    decreases |works|
  {
    if works != [] {
      assert works[0] in works && forall w :: w in works[1..] ==> w in works;
      var begun := Session(rows, works[0].context, None, {});
      if ExecAll(begun, works[0].sts).Some? {
        ExecAllKeepsIntact(begun, works[0].sts, u, k, line, row);
      }
      RunKeepsIntact(Transact(rows, works[0].context, works[0].sts), works[1..], u, k, line, row);
    }
  }

  /** Read off the run's statements: unless one of them sets created_at, or a fact of an unlocked entry,
      to another value, a committed entry keeps everything but its linkage for good. */
  lemma EntryIsAppendOnlyUnlessRewritten(rows: Rows, works: seq<Work>, u: Tenant, k: Key)
    requires Agrees(rows) && AllBalanced(rows) && k.table.JournalEntries? && OwnedRow(rows, k, u) && rows[k].EntryRow?
    requires forall w :: w in works ==> NeverFlags(w.sts, u) && NeverRewrites(w.sts, k, rows[k])
    ensures k in TransactAll(rows, works) && OnlyLinkageDiffers(rows[k], TransactAll(rows, works)[k])
  {
    var line := LineOfEntry(rows, k);
    RunKeepsIntact(rows, works, u, k, line, rows[k]);
  }

  /** The stock movements of a tenant. */
  function MovementIds(rows: Rows, u: Tenant): set<Id> {
    set k | k in rows && k.table.StockLedger? && rows[k].MovementRow? && rows[k].tenant == Some(u) :: k.id
  }

  /** `ren` sends each movement of u to one with the same guarded columns, no two to the same. */
  ghost predicate IsRenaming(before: Rows, after: Rows, u: Tenant, ren: map<Id, Id>) {
    && ren.Keys == MovementIds(before, u)
    && (forall i :: i in ren ==>
          && ren[i] in MovementIds(after, u)
          && after[Key(StockLedger, ren[i])].movement == before[Key(StockLedger, i)].movement)
    && (forall i, j :: i in ren && j in ren && ren[i] == ren[j] ==> i == j)
  }

  lemma ExecKeepsMovements(s: Session, st: Statement, u: Tenant) returns (ren: map<Id, Id>)
    requires s.purge != Some(u) && Exec(s, st).Some?
    ensures IsRenaming(s.rows, Exec(s, st).value.rows, u, ren)
  {
    var moved := st.Rekey? && st.key.table.StockLedger? && Found(s, st.key);
    ren := map i | i in MovementIds(s.rows, u) :: if moved && i == st.key.id then st.id else i;
    forall i | i in MovementIds(s.rows, u)
      ensures Key(StockLedger, i) in s.rows && s.rows[Key(StockLedger, i)].MovementRow?
      ensures Key(StockLedger, ren[i]) in Exec(s, st).value.rows
      ensures Exec(s, st).value.rows[Key(StockLedger, ren[i])].MovementRow?
      ensures Exec(s, st).value.rows[Key(StockLedger, ren[i])].tenant == Some(u)
      ensures Exec(s, st).value.rows[Key(StockLedger, ren[i])].movement == s.rows[Key(StockLedger, i)].movement
    {
      assert Key(StockLedger, i) in s.rows && s.rows[Key(StockLedger, i)].tenant == Some(u);
    }
  }

  lemma Compose(a: Rows, b: Rows, c: Rows, u: Tenant, ab: map<Id, Id>, bc: map<Id, Id>) returns (ac: map<Id, Id>)
    requires IsRenaming(a, b, u, ab) && IsRenaming(b, c, u, bc)
    ensures IsRenaming(a, c, u, ac)
  {
    ac := map i | i in ab :: bc[ab[i]];
  }

  lemma {:induction false} ExecAllKeepsMovements(s: Session, sts: seq<Statement>, u: Tenant)
    returns (ren: map<Id, Id>)
    requires s.purge != Some(u) && NeverFlags(sts, u) && ExecAll(s, sts).Some?
    ensures IsRenaming(s.rows, ExecAll(s, sts).value.rows, u, ren)
    decreases |sts|
  {
    if sts == [] {
      ren := map i | i in MovementIds(s.rows, u) :: i;
    } else {
      assert sts[0] in sts && forall st :: st in sts[1..] ==> st in sts;
      var first := ExecKeepsMovements(s, sts[0], u);
      var rest := ExecAllKeepsMovements(Exec(s, sts[0]).value, sts[1..], u);
      ren := Compose(s.rows, Exec(s, sts[0]).value.rows, ExecAll(s, sts).value.rows, u, first, rest);
    }
  }

  /** Stock history is append-only up to primary keys: along any run that never flags u, every
      movement of u persists with all guarded columns, under a possibly different id. */
  lemma {:induction false} StockIsAppendOnly(rows: Rows, works: seq<Work>, u: Tenant) returns (ren: map<Id, Id>)
    requires forall w :: w in works ==> NeverFlags(w.sts, u)
    ensures IsRenaming(rows, TransactAll(rows, works), u, ren)
    ensures forall i: Id ::
              Key(StockLedger, i) in rows && rows[Key(StockLedger, i)].MovementRow? &&
              rows[Key(StockLedger, i)].tenant == Some(u) ==>
                && i in ren && Key(StockLedger, ren[i]) in TransactAll(rows, works)
                && TransactAll(rows, works)[Key(StockLedger, ren[i])].MovementRow?
                && TransactAll(rows, works)[Key(StockLedger, ren[i])].tenant == Some(u)
                && TransactAll(rows, works)[Key(StockLedger, ren[i])].movement == rows[Key(StockLedger, i)].movement
    decreases |works|
  {
    if works == [] {
      ren := map i | i in MovementIds(rows, u) :: i;
    } else {
      assert works[0] in works && forall w :: w in works[1..] ==> w in works;
      var begun := Session(rows, works[0].context, None, {});
      var next := Transact(rows, works[0].context, works[0].sts);
      var first := map i | i in MovementIds(rows, u) :: i;
      if next != rows {
        first := ExecAllKeepsMovements(begun, works[0].sts, u);
      }
      var rest := StockIsAppendOnly(next, works[1..], u);
      ren := Compose(rows, next, TransactAll(rows, works), u, first, rest);
    }
  }

  /** The guard compares every column but the primary key: a statement leaves a movement under its own
      id exactly when it is not an UPDATE of that id. */
  lemma MovementIdKeptIff(s: Session, st: Statement, u: Tenant, i: Id)
    requires s.purge != Some(u) && Exec(s, st).Some? && i in MovementIds(s.rows, u)
    ensures i in MovementIds(Exec(s, st).value.rows, u) <==>
            !(st.Rekey? && st.key == Key(StockLedger, i) && s.context == Some(u))
  {
    var k := Key(StockLedger, i);
    assert k in s.rows && s.rows[k].tenant == Some(u) && s.rows[k].MovementRow?;
    var after := Exec(s, st).value.rows;
    assert i in MovementIds(after, u) <==> k in after && after[k].MovementRow? && after[k].tenant == Some(u);
  }
}

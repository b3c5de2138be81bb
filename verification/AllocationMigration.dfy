/** The migration that gives allocation rows a tenant: backfill from the payment side, abort on
    anything unresolvable or cross-tenant. */
module AllocationMigration {
  import opened Options
  import opened FiniteSums
  import opened LedgerRows

  predicate IsAllocationTable(table: Table) {
    table.PaymentAllocations? || table.BillPaymentAllocations?
  }

  function PaymentKey(table: Table, row: Row): Key
    requires row.AllocationRow?
  {
    Key(if table.PaymentAllocations? then Payments else BillPayments, row.payment)
  }

  function DocumentKey(table: Table, row: Row): Key
    requires row.AllocationRow?
  {
    Key(Header(if table.PaymentAllocations? then Invoice else Bill), row.against)
  }

  function AllocationsOf(rows: Rows, table: Table): set<Key> {
    set k | k in rows && k.table == table && rows[k].AllocationRow?
  }

  /** UPDATE ... SET tenant_id = p.tenant_id FROM payments p WHERE payment_id = p.id. */
  function Filled(rows: Rows, k: Key): Row
    requires k in rows && rows[k].AllocationRow?
  {
    var payment := PaymentKey(k.table, rows[k]);
    if payment in rows then AllocationRow(rows[payment].tenant, rows[k].payment, rows[k].against, rows[k].data)
    else rows[k]
  }

  function Backfilled(rows: Rows, done: set<Key>): Rows {
    map k | k in rows :: if k in done && rows[k].AllocationRow? then Filled(rows, k) else rows[k]
  }

  /** WHERE tenant_id IS NULL. */
  predicate IsOrphan(rows: Rows, k: Key) {
    k in rows && rows[k].tenant.None?
  }

  /** The joined row differs from its payment's or its document's tenant; a missing or NULL side makes
      the SQL comparison not true, and a missing side is not joined at all. */
  predicate IsMismatched(rows: Rows, k: Key) {
    k in rows && rows[k].AllocationRow? &&
    var payment, document := PaymentKey(k.table, rows[k]), DocumentKey(k.table, rows[k]);
    payment in rows && document in rows &&
    (Differ(rows[k].tenant, rows[payment].tenant) || Differ(rows[k].tenant, rows[document].tenant))
  }

  predicate Differ(a: Option<Tenant>, b: Option<Tenant>) {
    a.Some? && b.Some? && a != b
  }

  /** One table of the upgrade. A table that already has the column is left as it is, unchecked. */
  method UpgradeTable(rows: Rows, table: Table, hasColumn: bool) returns (after: Rows, aborted: bool)
    requires IsAllocationTable(table)
    ensures after == if hasColumn then rows else Backfilled(rows, AllocationsOf(rows, table))
    ensures aborted <==> (!hasColumn &&
              exists k :: k in AllocationsOf(rows, table) && (IsOrphan(after, k) || IsMismatched(after, k)))
  {
    after, aborted := rows, false;
    if hasColumn {
      return;
    }
    var allocations := AllocationsOf(rows, table);
    var left := allocations;
    assert Backfilled(rows, {}) == rows;
    while left != {}
      invariant left <= allocations && after == Backfilled(rows, allocations - left)
      decreases left
    {
      var k :| k in left;
      after := after[k := Filled(rows, k)];
      assert allocations - (left - {k}) == (allocations - left) + {k};
      left := left - {k};
    }
    assert allocations - left == allocations;
    aborted := HasBadRow(after, allocations);
  }

  /** The two checks after the backfill: an orphaned row, and then a mismatched one. */
  method HasBadRow(rows: Rows, allocations: set<Key>) returns (found: bool)
    ensures found <==> exists k :: k in allocations && (IsOrphan(rows, k) || IsMismatched(rows, k))
  {
    var orphaned := set k | k in allocations && IsOrphan(rows, k);
    if orphaned != {} {
      var k :| k in orphaned;
      return true;
    }
    var mismatched := set k | k in allocations && IsMismatched(rows, k);
    if mismatched != {} {
      var k :| k in mismatched;
      return true;
    }
    assert forall k :: k in allocations ==> k !in orphaned && k !in mismatched;
    found := false;
  }

  ghost predicate TableAgrees(rows: Rows, table: Table) {
    forall k :: k in AllocationsOf(rows, table) ==> MatchesParents(rows, table, rows[k])
  }

  /** Foreign keys and NOT NULL on the parent side: the document exists, and payments and documents
      have a tenant. Payments may be missing, as the code expects of historical data. */
  ghost predicate ParentsSound(rows: Rows, table: Table) {
    forall k :: k in AllocationsOf(rows, table) ==>
      && DocumentKey(table, rows[k]) in rows && rows[DocumentKey(table, rows[k])].tenant.Some?
      && (PaymentKey(table, rows[k]) in rows ==> rows[PaymentKey(table, rows[k])].tenant.Some?)
  }

  predicate BeforeColumn(rows: Rows, table: Table) {
    forall k :: k in AllocationsOf(rows, table) ==> rows[k].tenant.None?
  }

  /** Only rows of this table differ, and no row came or went. */
  ghost predicate SameBut(rows: Rows, after: Rows, table: Table) {
    rows.Keys == after.Keys && forall k :: k in rows && k.table != table ==> after[k] == rows[k]
  }

  /** No allocation of this table differs in anything but its tenant_id, nor does any row of another table. */
  ghost predicate OnlyOwnersDiffer(rows: Rows, after: Rows, table: Table) {
    && rows.Keys == after.Keys
    && forall k :: k in rows && after[k] != rows[k] ==>
         k.table == table && rows[k].AllocationRow? &&
         after[k] == AllocationRow(after[k].tenant, rows[k].payment, rows[k].against, rows[k].data)
  }

  /** The same over both tables: nothing differs but the tenant_id of allocations that just got the column. */
  ghost predicate OnlyMigratedDiffer(rows: Rows, after: Rows, hasColumn: set<Table>) {
    && rows.Keys == after.Keys
    && forall k :: k in rows && after[k] != rows[k] ==>
         IsAllocationTable(k.table) && k.table !in hasColumn && rows[k].AllocationRow? &&
         after[k] == AllocationRow(after[k].tenant, rows[k].payment, rows[k].against, rows[k].data)
  }

  lemma BothMigrated(rows: Rows, first: Rows, after: Rows, hasColumn: set<Table>)
    requires OnlyOwnersDiffer(rows, first, PaymentAllocations)
    requires OnlyOwnersDiffer(first, after, BillPaymentAllocations)
    requires PaymentAllocations in hasColumn ==> first == rows
    requires BillPaymentAllocations in hasColumn ==> after == first
    ensures OnlyMigratedDiffer(rows, after, hasColumn)
  {
  }

  /** The upgrade of a table either establishes tenant agreement or aborts, and it aborts exactly when
      some allocation has no payment or links a payment and a document of different tenants. */
  lemma UpgradeAgreesOrAborts(rows: Rows, table: Table)
    requires IsAllocationTable(table) && ParentsSound(rows, table) && BeforeColumn(rows, table)
    ensures var after := Backfilled(rows, AllocationsOf(rows, table));
            var aborts := exists k :: k in AllocationsOf(rows, table) && (IsOrphan(after, k) || IsMismatched(after, k));
            && (aborts <==> !TableAgrees(after, table))
            && (aborts <==> HasUnresolvable(rows, table))
            && SameBut(rows, after, table)
            && OnlyOwnersDiffer(rows, after, table)
  {
    var allocations := AllocationsOf(rows, table);
    var after := Backfilled(rows, allocations);
    assert AllocationsOf(after, table) == allocations;
    forall k | k in allocations
      ensures (IsOrphan(after, k) || IsMismatched(after, k)) <==> IsUnresolvable(rows, table, k)
      ensures MatchesParents(after, table, after[k]) <==> !IsUnresolvable(rows, table, k)
    {
      OneAllocation(rows, table, k);
    }
    if exists k :: k in allocations && IsUnresolvable(rows, table, k) {
      var k :| k in allocations && IsUnresolvable(rows, table, k);
      assert !MatchesParents(after, table, after[k]);
    }
  }

  predicate IsUnresolvable(rows: Rows, table: Table, k: Key) {
    k in rows && rows[k].AllocationRow? &&
    var payment, document := PaymentKey(table, rows[k]), DocumentKey(table, rows[k]);
    payment !in rows || (document in rows && rows[payment].tenant != rows[document].tenant)
  }

  ghost predicate HasUnresolvable(rows: Rows, table: Table) {
    exists k :: k in AllocationsOf(rows, table) && IsUnresolvable(rows, table, k)
  }

  lemma OneAllocation(rows: Rows, table: Table, k: Key)
    requires IsAllocationTable(table) && ParentsSound(rows, table) && BeforeColumn(rows, table)
    requires k in AllocationsOf(rows, table)
    ensures var after := Backfilled(rows, AllocationsOf(rows, table));
            && ((IsOrphan(after, k) || IsMismatched(after, k)) <==> IsUnresolvable(rows, table, k))
            && (MatchesParents(after, table, after[k]) <==> !IsUnresolvable(rows, table, k))
  {
    var after := Backfilled(rows, AllocationsOf(rows, table));
    var payment, document := PaymentKey(table, rows[k]), DocumentKey(table, rows[k]);
    assert ParentsOf(table, after[k]) == {payment, document};
    assert payment in rows ==> after[payment] == rows[payment];
    assert after[document] == rows[document];
  }

  lemma OtherTableUntouched(rows: Rows, after: Rows, changed: Table, other: Table)
    requires IsAllocationTable(changed) && IsAllocationTable(other) && other != changed
    requires SameBut(rows, after, changed)
    ensures AllocationsOf(after, other) == AllocationsOf(rows, other)
    ensures ParentsSound(rows, other) <==> ParentsSound(after, other)
    ensures BeforeColumn(rows, other) <==> BeforeColumn(after, other)
    ensures TableAgrees(rows, other) <==> TableAgrees(after, other)
    ensures HasUnresolvable(rows, other) <==> HasUnresolvable(after, other)
  {
    forall k | k in AllocationsOf(rows, other)
      ensures after[k] == rows[k]
      ensures MatchesParents(after, other, after[k]) <==> MatchesParents(rows, other, rows[k])
      ensures IsUnresolvable(after, other, k) <==> IsUnresolvable(rows, other, k)
    {
      assert ParentsOf(other, rows[k]) == {PaymentKey(other, rows[k]), DocumentKey(other, rows[k])};
    }
  }

  /** One round of the loop: the table agrees afterwards exactly if it was migrated or agreed before, and
      nothing that concerns the other has changed. */
  method UpgradeOne(rows: Rows, table: Table, other: Table, hasColumn: bool) returns (after: Rows, aborted: bool)
    requires IsAllocationTable(table) && IsAllocationTable(other) && other != table
    requires ParentsSound(rows, table) && (!hasColumn ==> BeforeColumn(rows, table))
    ensures OnlyOwnersDiffer(rows, after, table) && (hasColumn ==> after == rows)
    ensures aborted <==> !hasColumn && HasUnresolvable(rows, table)
    ensures !aborted ==> (TableAgrees(after, table) <==> !hasColumn || TableAgrees(rows, table))
    ensures ParentsSound(rows, other) <==> ParentsSound(after, other)
    ensures BeforeColumn(rows, other) <==> BeforeColumn(after, other)
    ensures TableAgrees(rows, other) <==> TableAgrees(after, other)
    ensures HasUnresolvable(rows, other) <==> HasUnresolvable(after, other)
  {
    after, aborted := UpgradeTable(rows, table, hasColumn);
    if !hasColumn {
      UpgradeAgreesOrAborts(rows, table);
    }
    OtherTableUntouched(rows, after, table, other);
  }

  /** The whole upgrade, in the order of its loop; an abort rolls the migration back. */
  method Upgrade(rows: Rows, hasColumn: set<Table>) returns (after: Rows, aborted: bool)
    requires ParentsSound(rows, PaymentAllocations) && ParentsSound(rows, BillPaymentAllocations)
    requires PaymentAllocations !in hasColumn ==> BeforeColumn(rows, PaymentAllocations)
    requires BillPaymentAllocations !in hasColumn ==> BeforeColumn(rows, BillPaymentAllocations)
    ensures aborted ==> after == rows
    ensures !aborted ==> OnlyMigratedDiffer(rows, after, hasColumn)
    ensures aborted <==>
              (PaymentAllocations !in hasColumn && HasUnresolvable(rows, PaymentAllocations))
              || (BillPaymentAllocations !in hasColumn && HasUnresolvable(rows, BillPaymentAllocations))
    ensures !aborted ==>
              (TableAgrees(after, PaymentAllocations) <==>
                 PaymentAllocations !in hasColumn || TableAgrees(rows, PaymentAllocations))
    ensures !aborted ==>
              (TableAgrees(after, BillPaymentAllocations) <==>
                 BillPaymentAllocations !in hasColumn || TableAgrees(rows, BillPaymentAllocations))
  {
    var first;
    first, aborted := UpgradeOne(rows, PaymentAllocations, BillPaymentAllocations, PaymentAllocations in hasColumn);
    if aborted {
      return rows, true;
    }
    after, aborted :=
      UpgradeOne(first, BillPaymentAllocations, PaymentAllocations, BillPaymentAllocations in hasColumn);
    if aborted {
      return rows, true;
    }
    assert OnlyMigratedDiffer(rows, after, hasColumn) by {
      BothMigrated(rows, first, after, hasColumn);
    }
  }

  /** A link between a payment of one tenant and an invoice of another, in a table that already has its
      tenant_id: the upgrade, which has nothing to migrate there, neither repairs it nor aborts. */
  method CrossTenantLinkSurvives() returns (before: Rows, after: Rows, aborted: bool)
    ensures ParentsSound(before, PaymentAllocations) && HasUnresolvable(before, PaymentAllocations)
    ensures !aborted && !TableAgrees(after, PaymentAllocations)
  {
    var payment, invoice, link := Key(Payments, 1), Key(Header(Invoice), 1), Key(PaymentAllocations, 1);
    before := map[payment := PlainRow(Some(1), 0), invoice := PlainRow(Some(2), 0),
                  link := AllocationRow(Some(1), 1, 1, 0)];
    assert link in AllocationsOf(before, PaymentAllocations) && IsUnresolvable(before, PaymentAllocations, link);
    assert invoice in ParentsOf(PaymentAllocations, before[link]);
    after, aborted := Upgrade(before, {PaymentAllocations});
  }
}

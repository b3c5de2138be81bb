/** apply_postgres_hardening as a transformation of the catalog: row-security flags, the
    tenant_isolation policy and the triggers of every table. */
module Hardening {
  import opened Options
  import opened LedgerRows

  /** The two forms of the tenant_isolation condition. */
  datatype Policy = OwnRows | OwnOrNullRows

  datatype TriggerName = TenantMatches | Immutable | NoDelete | Balanced | AuditImmutable

  /** The trigger functions; CREATE OR REPLACE gives each its one body. */
  datatype Function =
    | ChildTenantCheck(table: Table)
    | AllocationTenantCheck
    | UpdateGuard(table: Table)
    | DeleteGuard(table: Table)
    | BalanceCheck
    | AuditGuard

  datatype TableInfo = TableInfo(
    hasTenant: bool,
    enabled: bool,
    forced: bool,
    policy: Option<Policy>,
    triggers: map<TriggerName, Function>)

  type Tables = map<Table, TableInfo>

  const FINANCIAL_YEARS := OtherOwned("financial_years")
  const TENANTS := Unowned("tenants")

  const CHILD_TABLES: seq<Table> := [
    Detail(Invoice), Detail(Bill), JournalLines, Detail(PurchaseOrder), Detail(GoodsReceipt),
    Detail(SalesOrder), Detail(DeliveryChallan), Detail(ProformaInvoice), Detail(InventoryAdjustment),
    Detail(CreditNote), Detail(DebitNote), Detail(SalesReturn), Detail(PurchaseReturn),
    Detail(RecurringInvoice)]

  function WithPolicy(table: Table, info: TableInfo): TableInfo {
    info.(enabled := true, forced := true, policy := Some(if IsGlobal(table) then OwnOrNullRows else OwnRows))
  }

  function WithTrigger(info: TableInfo, name: TriggerName, f: Function): TableInfo {
    info.(triggers := info.triggers[name := f])
  }

  predicate HasTenantColumn(tables: Tables, table: Table) {
    table in tables && tables[table].hasTenant
  }

  /** The unconditional DDL names these tables, and fails without them: the tenant enumerator, the
      unique indexes, the balance checks and the audit guard. */
  predicate Succeeds(tables: Tables) {
    && TENANTS in tables && FINANCIAL_YEARS in tables
    && JournalEntries in tables && JournalLines in tables && AuditLogs in tables
  }

  /** The loop over all tables. */
  function Isolated(table: Table, info: TableInfo): TableInfo {
    if table.TenantMemberships? then info.(enabled := false, forced := false, policy := None)
    else if info.hasTenant then WithPolicy(table, info)
    else info
  }

  predicate IsDetail(table: Table) {
    table.JournalLines? || table.Detail?
  }

  function Parented(table: Table, info: TableInfo): TableInfo {
    if IsDetail(table) && info.hasTenant
    then WithTrigger(WithPolicy(table, info), TenantMatches, ChildTenantCheck(table))
    else info
  }

  predicate AllocationsReady(tables: Tables) {
    HasTenantColumn(tables, PaymentAllocations) && HasTenantColumn(tables, BillPaymentAllocations)
  }

  function Matched(ready: bool, table: Table, info: TableInfo): TableInfo {
    if ready && (table.PaymentAllocations? || table.BillPaymentAllocations?)
    then WithTrigger(WithPolicy(table, info), TenantMatches, AllocationTenantCheck)
    else info
  }

  predicate LedgerReady(tables: Tables) {
    JournalEntries in tables && JournalLines in tables && StockLedger in tables
  }

  function Guarded(ready: bool, table: Table, info: TableInfo): TableInfo {
    if ready && (table.JournalEntries? || table.JournalLines? || table.StockLedger?)
    then WithTrigger(WithTrigger(info, Immutable, UpdateGuard(table)), NoDelete, DeleteGuard(table))
    else info
  }

  function Checked(table: Table, info: TableInfo): TableInfo {
    if table.JournalEntries? || table.JournalLines? then WithTrigger(info, Balanced, BalanceCheck)
    else if table.AuditLogs? then WithTrigger(info, AuditImmutable, AuditGuard)
    else info
  }

  /** What hardening makes of one table: nothing depends on the order tables are listed in. */
  function HardenedTable(tables: Tables, table: Table, info: TableInfo): TableInfo {
    Checked(table,
      Guarded(LedgerReady(tables), table,
        Matched(AllocationsReady(tables), table,
          Parented(table, Isolated(table, info)))))
  }

  /** One pass over every table. */
  function Each(tables: Tables, f: (Table, TableInfo) -> TableInfo): Tables {
    map t | t in tables :: f(t, tables[t])
  }

  function AllIsolated(tables: Tables): Tables {
    Each(Each(tables, Isolated), Parented)
  }

  function AllMatched(tables: Tables): Tables {
    Each(tables, (t, info) => Matched(AllocationsReady(tables), t, info))
  }

  function AllGuarded(tables: Tables): Tables {
    Each(tables, (t, info) => Guarded(LedgerReady(tables), t, info))
  }

  /** The passes in their order. */
  function Hardened(tables: Tables): Tables {
    Each(AllGuarded(AllMatched(AllIsolated(tables))), Checked)
  }

  /** The passes, one after the other, are HardenedTable on every table. */
  lemma HardenedIsPointwise(tables: Tables)
    ensures Hardened(tables).Keys == tables.Keys
    ensures forall t :: t in tables ==> Hardened(tables)[t] == HardenedTable(tables, t, tables[t])
  {
    var a := AllIsolated(tables);
    SameShape(tables, a);
    SameShape(a, AllMatched(a));
    forall t | t in tables ensures Hardened(tables)[t] == HardenedTable(tables, t, tables[t]) {
      assert a[t] == Parented(t, Isolated(t, tables[t]));
      assert AllMatched(a)[t] == Matched(AllocationsReady(tables), t, a[t]);
      assert AllGuarded(AllMatched(a))[t] == Guarded(LedgerReady(tables), t, AllMatched(a)[t]);
    }
  }

  lemma TriggerTwice(info: TableInfo, name: TriggerName, f: Function)
    requires name in info.triggers && info.triggers[name] == f
    ensures WithTrigger(info, name, f) == info
  {
    assert info.triggers[name := f] == info.triggers;
  }

  lemma TableTwice(tables: Tables, table: Table, info: TableInfo)
    ensures var h := HardenedTable(tables, table, info);
            h.hasTenant == info.hasTenant && HardenedTable(tables, table, h) == h
  {
    var h := HardenedTable(tables, table, info);
    if IsDetail(table) && info.hasTenant {
      TriggerTwice(h, TenantMatches, ChildTenantCheck(table));
    }
    if AllocationsReady(tables) && (table.PaymentAllocations? || table.BillPaymentAllocations?) {
      TriggerTwice(h, TenantMatches, AllocationTenantCheck);
    }
    if LedgerReady(tables) && (table.JournalEntries? || table.JournalLines? || table.StockLedger?) {
      TriggerTwice(h, Immutable, UpdateGuard(table));
      TriggerTwice(h, NoDelete, DeleteGuard(table));
    }
    if table.JournalEntries? || table.JournalLines? {
      TriggerTwice(h, Balanced, BalanceCheck);
    } else if table.AuditLogs? {
      TriggerTwice(h, AuditImmutable, AuditGuard);
    }
  }

  lemma SameShape(a: Tables, b: Tables)
    requires a.Keys == b.Keys && forall t :: t in a ==> a[t].hasTenant == b[t].hasTenant
    ensures AllocationsReady(a) == AllocationsReady(b) && LedgerReady(a) == LedgerReady(b)
  {
  }

  lemma ShapeIsKept(tables: Tables)
    ensures Hardened(tables).Keys == tables.Keys
    ensures AllocationsReady(Hardened(tables)) == AllocationsReady(tables)
    ensures LedgerReady(Hardened(tables)) == LedgerReady(tables)
  {
    HardenedIsPointwise(tables);
    forall t | t in tables ensures Hardened(tables)[t].hasTenant == tables[t].hasTenant {
      TableTwice(tables, t, tables[t]);
    }
    SameShape(tables, Hardened(tables));
  }

  /** What hardening does to a table depends on the catalog only through two facts, which it keeps. */
  lemma OnlyShapeMatters(a: Tables, b: Tables, table: Table, info: TableInfo)
    requires AllocationsReady(a) == AllocationsReady(b) && LedgerReady(a) == LedgerReady(b)
    ensures HardenedTable(a, table, info) == HardenedTable(b, table, info)
  {
  }

  lemma TableTwiceIn(tables: Tables, once: Tables, table: Table)
    requires table in tables && table in once && once[table] == HardenedTable(tables, table, tables[table])
    requires AllocationsReady(once) == AllocationsReady(tables) && LedgerReady(once) == LedgerReady(tables)
    ensures HardenedTable(once, table, once[table]) == once[table]
  {
    OnlyShapeMatters(once, tables, table, once[table]);
    TableTwice(tables, table, tables[table]);
  }

  lemma TwiceAt(tables: Tables, table: Table)
    requires table in tables && table in Hardened(tables) && table in Hardened(Hardened(tables))
    ensures Hardened(Hardened(tables))[table] == Hardened(tables)[table]
  {
    var once := Hardened(tables);
    HardenedIsPointwise(tables);
    ShapeIsKept(tables);
    TableTwiceIn(tables, once, table);
    HardenedIsPointwise(once);
  }

  lemma SameTables(a: Tables, b: Tables)
    requires a.Keys == b.Keys && forall t :: t in a ==> a[t] == b[t]
    ensures a == b
  {
  }

  /** Hardening twice is hardening once, and where it succeeds it succeeds again. */
  lemma HardeningIsIdempotent(tables: Tables)
    ensures Hardened(Hardened(tables)) == Hardened(tables)
    ensures Succeeds(tables) <==> Succeeds(Hardened(tables))
  {
    var once := Hardened(tables);
    ShapeIsKept(tables);
    ShapeIsKept(once);
    forall t | t in Hardened(once) ensures Hardened(once)[t] == once[t] {
      TwiceAt(tables, t);
    }
    SameTables(Hardened(once), once);
    assert forall t :: t in once <==> t in once.Keys;
  }

  /** Whether PostgreSQL lets a session see or write a row: row security off lets everything through,
      row security without a policy nothing. */
  predicate Admits(info: TableInfo, tenant: Option<Tenant>, context: Option<Tenant>) {
    info.enabled && info.forced ==>
      match info.policy
      case None => false
      case Some(OwnRows) => tenant.Some? && tenant == context
      case Some(OwnOrNullRows) => tenant.None? || tenant == context
  }

  /** The triggers that the ledger results assume on a table, each with its function. */
  function AssumedTriggers(table: Table): map<TriggerName, Function> {
    match table
    case JournalEntries =>
      map[Immutable := UpdateGuard(table), NoDelete := DeleteGuard(table), Balanced := BalanceCheck]
    case JournalLines =>
      map[TenantMatches := ChildTenantCheck(table),
          Immutable := UpdateGuard(table), NoDelete := DeleteGuard(table), Balanced := BalanceCheck]
    case StockLedger => map[Immutable := UpdateGuard(table), NoDelete := DeleteGuard(table)]
    case Detail(_) => map[TenantMatches := ChildTenantCheck(table)]
    case PaymentAllocations => map[TenantMatches := AllocationTenantCheck]
    case BillPaymentAllocations => map[TenantMatches := AllocationTenantCheck]
    case AuditLogs => map[AuditImmutable := AuditGuard]
    case _ => map[]
  }

  /** What the trigger functions raise on: an update, a deletion, and a row under its parents. */
  predicate RaisesOnUpdate(f: Function, was: Row, now: Row) {
    match f
    case UpdateGuard(t) => !MayUpdate(t, was, now)
    case AuditGuard => true
    case _ => false
  }

  predicate RaisesOnDelete(f: Function, row: Row, purge: Option<Tenant>) {
    match f
    case DeleteGuard(t) => !MayDelete(t, row, purge)
    case AuditGuard => true
    case _ => false
  }

  predicate RaisesOnParents(f: Function, table: Table, rows: Rows, row: Row) {
    match f
    case ChildTenantCheck(t) => !MatchesParents(rows, t, row)
    case AllocationTenantCheck => !MatchesParents(rows, table, row)
    case _ => false
  }

  /** The assumed triggers refuse exactly what the ledger's guards refuse, and check exactly what is queued. */
  lemma AssumedTriggersAreGuards(table: Table, was: Row, now: Row, purge: Option<Tenant>, rows: Rows)
    ensures var fs := AssumedTriggers(table);
            && (MayUpdate(table, was, now) <==> forall n :: n in fs ==> !RaisesOnUpdate(fs[n], was, now))
            && (MayDelete(table, was, purge) <==> forall n :: n in fs ==> !RaisesOnDelete(fs[n], was, purge))
            && (MatchesParents(rows, table, now) <==> forall n :: n in fs ==> !RaisesOnParents(fs[n], table, rows, now))
            && (Balanced in fs && fs[Balanced] == BalanceCheck <==> exists id, row :: Queued(Key(table, id), row) != {})
  {
    UpdatesRefused(table, was, now);
    DeletesRefused(table, was, purge);
    ParentsRefused(table, rows, now);
    ChecksQueued(table);
  }

  lemma UpdatesRefused(table: Table, was: Row, now: Row)
    ensures var fs := AssumedTriggers(table);
            MayUpdate(table, was, now) <==> forall n :: n in fs ==> !RaisesOnUpdate(fs[n], was, now)
  {
    var fs := AssumedTriggers(table);
    match table
    case JournalEntries => assert fs[Immutable] == UpdateGuard(table);
    case JournalLines => assert fs[Immutable] == UpdateGuard(table);
    case StockLedger => assert fs[Immutable] == UpdateGuard(table);
    case AuditLogs => assert fs[AuditImmutable] == AuditGuard;
    case _ =>
  }

  lemma DeletesRefused(table: Table, row: Row, purge: Option<Tenant>)
    ensures var fs := AssumedTriggers(table);
            MayDelete(table, row, purge) <==> forall n :: n in fs ==> !RaisesOnDelete(fs[n], row, purge)
  {
    var fs := AssumedTriggers(table);
    match table
    case JournalEntries => assert fs[NoDelete] == DeleteGuard(table);
    case JournalLines => assert fs[NoDelete] == DeleteGuard(table);
    case StockLedger => assert fs[NoDelete] == DeleteGuard(table);
    case AuditLogs => assert fs[AuditImmutable] == AuditGuard;
    case _ =>
  }

  lemma ParentsRefused(table: Table, rows: Rows, row: Row)
    ensures var fs := AssumedTriggers(table);
            MatchesParents(rows, table, row) <==> forall n :: n in fs ==> !RaisesOnParents(fs[n], table, rows, row)
  {
    var fs := AssumedTriggers(table);
    if IsChild(table) {
      assert TenantMatches in fs && (fs[TenantMatches] == ChildTenantCheck(table) ||
                                     fs[TenantMatches] == AllocationTenantCheck);
    }
  }

  lemma ChecksQueued(table: Table)
    ensures var fs := AssumedTriggers(table);
            Balanced in fs && fs[Balanced] == BalanceCheck <==> exists id, row :: Queued(Key(table, id), row) != {}
  {
    if table.JournalEntries? {
      assert 0 in Queued(Key(table, 0), PlainRow(None, 0));
    } else if table.JournalLines? {
      assert 0 in Queued(Key(table, 0), LineRow(None, 0, 0, 1, Debit));
    }
  }

  /** What the installers look for: tenant_id on the child table, tenant_id on both allocation tables, all
      three ledger tables. */
  predicate InstallsAll(tables: Tables, table: Table)
    requires table in tables
  {
    && (table.JournalLines? || table.Detail? ==> tables[table].hasTenant)
    && (table.PaymentAllocations? || table.BillPaymentAllocations? ==>
          && PaymentAllocations in tables && tables[PaymentAllocations].hasTenant
          && BillPaymentAllocations in tables && tables[BillPaymentAllocations].hasTenant)
    && (table.JournalEntries? || table.JournalLines? || table.StockLedger? ==>
          JournalEntries in tables && JournalLines in tables && StockLedger in tables)
  }

  /** The assumed triggers that hardening creates on a table: all but those whose installer finds its tables
      or columns missing. */
  function AddedTriggers(tables: Tables, table: Table): map<TriggerName, Function>
    requires table in tables
  {
    var unmatched := (IsDetail(table) && !tables[table].hasTenant)
                     || ((table.PaymentAllocations? || table.BillPaymentAllocations?) && !AllocationsReady(tables));
    AssumedTriggers(table) - (if unmatched then {TenantMatches} else {})
                           - (if LedgerReady(tables) then {} else {Immutable, NoDelete})
  }

  lemma TriggersOfHardened(tables: Tables, table: Table)
    requires table in tables
    ensures HardenedTable(tables, table, tables[table]).triggers ==
            tables[table].triggers + AddedTriggers(tables, table)
  {
    var info := tables[table];
    var matched := Matched(AllocationsReady(tables), table, Parented(table, Isolated(table, info)));
    TenantTriggers(tables, table);
    LedgerTriggers(LedgerReady(tables), table, matched);
  }

  /** The first three passes: isolation, child tables, allocation tables. */
  lemma TenantTriggers(tables: Tables, table: Table)
    requires table in tables
    ensures Matched(AllocationsReady(tables), table, Parented(table, Isolated(table, tables[table]))).triggers ==
            if TenantMatches in AddedTriggers(tables, table)
            then tables[table].triggers[TenantMatches := AssumedTriggers(table)[TenantMatches]]
            else tables[table].triggers
  {
  }

  function Guards(ready: bool, table: Table): map<TriggerName, Function> {
    if ready && (table.JournalEntries? || table.JournalLines? || table.StockLedger?)
    then map[Immutable := UpdateGuard(table), NoDelete := DeleteGuard(table)]
    else map[]
  }

  function Checks(table: Table): map<TriggerName, Function> {
    if table.JournalEntries? || table.JournalLines? then map[Balanced := BalanceCheck]
    else if table.AuditLogs? then map[AuditImmutable := AuditGuard]
    else map[]
  }

  lemma GuardsAdded(ready: bool, table: Table, info: TableInfo)
    ensures Guarded(ready, table, info).triggers == info.triggers + Guards(ready, table)
  {
  }

  lemma ChecksAdded(table: Table, info: TableInfo)
    ensures Checked(table, info).triggers == info.triggers + Checks(table)
  {
  }

  lemma GuardsAndChecks(ready: bool, table: Table)
    ensures Guards(ready, table) + Checks(table) ==
            AssumedTriggers(table) - {TenantMatches} - if ready then {} else {Immutable, NoDelete}
  {
  }

  /** The last two: ledger guards, balance and audit checks. */
  lemma LedgerTriggers(ready: bool, table: Table, info: TableInfo)
    ensures Checked(table, Guarded(ready, table, info)).triggers ==
            info.triggers + (AssumedTriggers(table) - {TenantMatches} - if ready then {} else {Immutable, NoDelete})
  {
    GuardsAdded(ready, table, info);
    ChecksAdded(table, Guarded(ready, table, info));
    GuardsAndChecks(ready, table);
    assert info.triggers + Guards(ready, table) + Checks(table) ==
           info.triggers + (Guards(ready, table) + Checks(table));
  }

  lemma AddingPart(was: map<TriggerName, Function>, added: map<TriggerName, Function>, all: map<TriggerName, Function>)
    requires forall n :: n in added ==> n in all && all[n] == added[n]
    ensures was + added == was + all <==>
              forall n :: n in all && n !in added ==> n in was && was[n] == all[n]
  {
    if was + added == was + all {
      forall n | n in all && n !in added ensures n in was && was[n] == all[n] {
        assert n in was + all && (was + added)[n] == (was + all)[n];
      }
    }
  }

  /** Whatever triggers a table has, hardening leaves it with the assumed ones and its others as they were, if
      and only if it had those already whose installer finds something missing; when all installers find what
      they look for, there are none such. */
  lemma HardenedTriggersIff(tables: Tables, table: Table)
    requires table in tables
    ensures Hardened(tables)[table].triggers == tables[table].triggers + AssumedTriggers(table) <==>
              forall n :: n in AssumedTriggers(table) && n !in AddedTriggers(tables, table) ==>
                n in tables[table].triggers && tables[table].triggers[n] == AssumedTriggers(table)[n]
    ensures InstallsAll(tables, table) <==> AddedTriggers(tables, table) == AssumedTriggers(table)
  {
    HardenedIsPointwise(tables);
    TriggersOfHardened(tables, table);
    AddingPart(tables[table].triggers, AddedTriggers(tables, table), AssumedTriggers(table));
    InstallsAllAdds(tables, table);
  }

  lemma InstallsAllAdds(tables: Tables, table: Table)
    requires table in tables
    ensures InstallsAll(tables, table) <==> AddedTriggers(tables, table) == AssumedTriggers(table)
  {
    var added := AddedTriggers(tables, table);
    if !InstallsAll(tables, table) {
      assert (TenantMatches in AssumedTriggers(table) && TenantMatches !in added)
             || (Immutable in AssumedTriggers(table) && Immutable !in added);
    }
  }

  /** Hardening forces row security, with the policy of its kind, on every table with a tenant_id, takes it
      away from the exempt one, and leaves every other table as it was. */
  lemma HardenedPolicy(tables: Tables, table: Table)
    requires table in tables
    ensures var was, now := tables[table], Hardened(tables)[table];
            if table.TenantMemberships? then !now.enabled && !now.forced && now.policy == None
            else if was.hasTenant then
              && now.enabled && now.forced
              && now.policy == Some(if table in {AuditLogs, TermsTemplates, TaxTemplates, PaymentTerms}
                                    then OwnOrNullRows else OwnRows)
            else now.enabled == was.enabled && now.forced == was.forced && now.policy == was.policy
  {
    HardenedIsPointwise(tables);
    assert IsGlobal(table) <==> table in {AuditLogs, TermsTemplates, TaxTemplates, PaymentTerms};
    IsolatedPolicy(table, tables[table]);
    TriggersKeepPolicy(AllocationsReady(tables), LedgerReady(tables), table,
                       Parented(table, Isolated(table, tables[table])));
  }

  lemma IsolatedPolicy(table: Table, was: TableInfo)
    ensures var now := Parented(table, Isolated(table, was));
            if table.TenantMemberships? then !now.enabled && !now.forced && now.policy == None
            else if was.hasTenant then
              now.enabled && now.forced && now.policy == Some(if IsGlobal(table) then OwnOrNullRows else OwnRows)
            else now.enabled == was.enabled && now.forced == was.forced && now.policy == was.policy
  {
  }

  /** After isolation only an allocation table, which has its tenant_id by then, is given its policy again. */
  lemma TriggersKeepPolicy(allocations: bool, ledger: bool, table: Table, info: TableInfo)
    ensures var now := Checked(table, Guarded(ledger, table, Matched(allocations, table, info)));
            if allocations && (table.PaymentAllocations? || table.BillPaymentAllocations?)
            then now.enabled && now.forced && now.policy == Some(OwnRows)
            else now.enabled == info.enabled && now.forced == info.forced && now.policy == info.policy
  {
  }

  /** A hardened table lets a session see and write exactly the rows that the ledger results take to be
      visible, if it has its tenant_id and, of those without, row security was never enabled. */
  lemma HardenedTableIsolates(tables: Tables, table: Table, tenant: Option<Tenant>, context: Option<Tenant>)
    requires table in tables
    ensures (HasPolicy(table) ==> tables[table].hasTenant)
            && (table.Unowned? ==> !tables[table].hasTenant && !tables[table].enabled) ==>
              (Admits(Hardened(tables)[table], tenant, context) <==> Visible(table, tenant, context))
    ensures HasPolicy(table) && tables[table].hasTenant ==>
              Hardened(tables)[table].enabled && Hardened(tables)[table].forced
  {
    HardenedPolicy(tables, table);
    var info := Hardened(tables)[table];
    if HasPolicy(table) && tables[table].hasTenant {
      assert Admits(info, tenant, context) <==> Visible(table, tenant, context);
    }
  }

  class Catalog {
    var tables: Tables

    constructor (tables: Tables)
      ensures this.tables == tables
    {
      this.tables := tables;
    }

    method ApplyRlsPolicy(table: Table)
      requires table in tables
      modifies this
      ensures tables == old(tables)[table := WithPolicy(table, old(tables)[table])]
    {
      var info := tables[table];
      info := info.(enabled := true);
      info := info.(forced := true);
      info := info.(policy := None);
      var condition := if IsGlobal(table) then OwnOrNullRows else OwnRows;
      info := info.(policy := Some(condition));
      tables := tables[table := info];
    }

    method CreateTrigger(table: Table, name: TriggerName, f: Function)
      requires table in tables
      modifies this
      ensures tables == old(tables)[table := WithTrigger(old(tables)[table], name, f)]
    {
      var info := tables[table];
      info := info.(triggers := info.triggers - {name});
      info := info.(triggers := info.triggers[name := f]);
      tables := tables[table := info];
      assert info.triggers == old(tables)[table].triggers[name := f];
    }

    /** The loop over the inspector's table names, in whatever order it lists them. */
    method IsolateTables(order: seq<Table>)
      requires forall t :: t in order <==> t in tables
      modifies this
      ensures tables == Each(old(tables), Isolated)
    {
      for i := 0 to |order|
        invariant tables == Staged(old(tables), order[..i], Isolated)
      {
        var table := order[i];
        StageStep(old(tables), order, i, Isolated);
        if table.TenantMemberships? {
          tables := tables[table := tables[table].(policy := None, enabled := false, forced := false)];
        } else if tables[table].hasTenant {
          ApplyRlsPolicy(table);
        }
      }
      assert order[..|order|] == order;
    }

    method HardenChildTables()
      modifies this
      ensures tables == Each(old(tables), Parented)
    {
      EveryDetailIsListed();
      for i := 0 to |CHILD_TABLES|
        invariant tables == Staged(old(tables), CHILD_TABLES[..i], Parented)
      {
        var child := CHILD_TABLES[i];
        StageStep(old(tables), CHILD_TABLES, i, Parented);
        if child in tables {
          ParentedTwice(child, old(tables)[child]);
        }
        if !HasTenantColumn(tables, child) {
          continue;
        }
        ApplyRlsPolicy(child);
        CreateTrigger(child, TenantMatches, ChildTenantCheck(child));
      }
      assert CHILD_TABLES[..|CHILD_TABLES|] == CHILD_TABLES;
    }

    method HardenAllocations()
      modifies this
      ensures tables == AllMatched(old(tables))
    {
      if !HasTenantColumn(tables, PaymentAllocations) || !HasTenantColumn(tables, BillPaymentAllocations) {
        return;
      }
      ApplyRlsPolicy(PaymentAllocations);
      CreateTrigger(PaymentAllocations, TenantMatches, AllocationTenantCheck);
      ApplyRlsPolicy(BillPaymentAllocations);
      CreateTrigger(BillPaymentAllocations, TenantMatches, AllocationTenantCheck);
    }

    method GuardTable(table: Table)
      requires table in tables
      modifies this
      ensures tables == GuardedOnce(old(tables), table)
    {
      CreateTrigger(table, Immutable, UpdateGuard(table));
      CreateTrigger(table, NoDelete, DeleteGuard(table));
    }

    method HardenLedger()
      modifies this
      ensures tables == AllGuarded(old(tables))
    {
      if JournalEntries !in tables || JournalLines !in tables || StockLedger !in tables {
        return;
      }
      LedgerPass(tables);
      GuardTable(JournalEntries);
      GuardTable(JournalLines);
      GuardTable(StockLedger);
    }

    method AddChecks()
      requires Succeeds(tables)
      modifies this
      ensures tables == Each(old(tables), Checked)
    {
      CheckPass(tables);
      CreateTrigger(JournalEntries, Balanced, BalanceCheck);
      CreateTrigger(JournalLines, Balanced, BalanceCheck);
      CreateTrigger(AuditLogs, AuditImmutable, AuditGuard);
    }

    /** The whole, in one transaction: a missing table that the unconditional DDL names undoes it. */
    method ApplyPostgresHardening(order: seq<Table>) returns (raised: bool)
      requires forall t :: t in order <==> t in tables
      modifies this
      ensures raised <==>
                TENANTS !in old(tables) || FINANCIAL_YEARS !in old(tables) || JournalEntries !in old(tables) ||
                JournalLines !in old(tables) || AuditLogs !in old(tables)
      ensures tables == if raised then old(tables) else Hardened(old(tables))
    {
      var before := tables;
      ShapeIsKept(before);
      IsolateTables(order);
      HardenChildTables();
      HardenAllocations();
      HardenLedger();
      if TENANTS !in tables || JournalEntries !in tables || FINANCIAL_YEARS !in tables
         || JournalLines !in tables || AuditLogs !in tables {
        tables := before;
        return true;
      }
      AddChecks();
      raised := false;
    }
  }

  /** A pass under way: done on the named tables only. */
  function Staged(tables: Tables, done: seq<Table>, f: (Table, TableInfo) -> TableInfo): Tables {
    map t | t in tables :: if t in done then f(t, tables[t]) else tables[t]
  }

  lemma StageStep(tables: Tables, order: seq<Table>, i: nat, f: (Table, TableInfo) -> TableInfo)
    requires i < |order|
    ensures var t := order[i];
            Staged(tables, order[..i + 1], f) ==
            if t in tables then Staged(tables, order[..i], f)[t := f(t, tables[t])] else Staged(tables, order[..i], f)
  {
    assert order[..i + 1] == order[..i] + [order[i]];
  }

  lemma EveryDetailIsListed()
    ensures forall t :: t in CHILD_TABLES <==> IsDetail(t)
  {
    forall t | IsDetail(t) ensures t in CHILD_TABLES {
      if t.Detail? {
        match t.document
        case Invoice => assert CHILD_TABLES[0] == t;
        case Bill => assert CHILD_TABLES[1] == t;
        case PurchaseOrder => assert CHILD_TABLES[3] == t;
        case GoodsReceipt => assert CHILD_TABLES[4] == t;
        case SalesOrder => assert CHILD_TABLES[5] == t;
        case DeliveryChallan => assert CHILD_TABLES[6] == t;
        case ProformaInvoice => assert CHILD_TABLES[7] == t;
        case InventoryAdjustment => assert CHILD_TABLES[8] == t;
        case CreditNote => assert CHILD_TABLES[9] == t;
        case DebitNote => assert CHILD_TABLES[10] == t;
        case SalesReturn => assert CHILD_TABLES[11] == t;
        case PurchaseReturn => assert CHILD_TABLES[12] == t;
        case RecurringInvoice => assert CHILD_TABLES[13] == t;
      } else {
        assert CHILD_TABLES[2] == t;
      }
    }
  }

  lemma ParentedTwice(table: Table, info: TableInfo)
    ensures Parented(table, Parented(table, info)) == Parented(table, info)
  {
    if IsDetail(table) && info.hasTenant {
      TriggerTwice(Parented(table, info), TenantMatches, ChildTenantCheck(table));
    }
  }

  function GuardedOnce(tables: Tables, t: Table): Tables
    requires t in tables
  {
    tables[t := WithTrigger(WithTrigger(tables[t], Immutable, UpdateGuard(t)), NoDelete, DeleteGuard(t))]
  }

  lemma LedgerPass(tables: Tables)
    requires LedgerReady(tables)
    ensures GuardedOnce(GuardedOnce(GuardedOnce(tables, JournalEntries), JournalLines), StockLedger) ==
            AllGuarded(tables)
  {
  }

  lemma CheckPass(tables: Tables)
    requires Succeeds(tables)
    ensures tables[JournalEntries := WithTrigger(tables[JournalEntries], Balanced, BalanceCheck)]
                  [JournalLines := WithTrigger(tables[JournalLines], Balanced, BalanceCheck)]
                  [AuditLogs := WithTrigger(tables[AuditLogs], AuditImmutable, AuditGuard)] == Each(tables, Checked)
  {
  }
}

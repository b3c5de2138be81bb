/** The trigger bodies and a database connection, step by step, against the specification in
    LedgerRows. */
module LedgerSession {
  import opened Options
  import opened FiniteSums
  import opened LedgerRows
  import opened Tenancy
  import opened JournalBalance

  /** SELECT tenant_id INTO ... WHERE id = ...: NULL for a missing row. */
  method SelectTenant(rows: Rows, key: Key) returns (tenant: Option<Tenant>)
    ensures tenant == if key in rows then rows[key].tenant else None
  {
    tenant := if key in rows then rows[key].tenant else None;
  }

  method ChildTenantMatchesParent(rows: Rows, table: Table, row: Row) returns (raised: bool)
    requires (table.JournalLines? && row.LineRow?) || (table.Detail? && row.ChildRow?)
    ensures raised <==> !MatchesParents(rows, table, row)
    ensures raised <==> !OwnersMatch(rows, table, row)
  {
    if row.tenant.None? {
      return true;
    }
    var parent := Key(if table.JournalLines? then JournalEntries else Header(table.document), row.parent);
    assert ParentsOf(table, row) == {parent};
    var parentTenant := SelectTenant(rows, parent);
    if parentTenant.None? {
      return true;
    }
    raised := row.tenant != parentTenant;
  }

  method AllocationTenantMatchesParents(rows: Rows, table: Table, row: Row) returns (raised: bool)
    requires (table.PaymentAllocations? || table.BillPaymentAllocations?) && row.AllocationRow?
    ensures raised <==> !MatchesParents(rows, table, row)
    ensures raised <==> !OwnersMatch(rows, table, row)
  {
    if row.tenant.None? {
      return true;
    }
    var paymentTenant, documentTenant;
    if table.PaymentAllocations? {
      assert ParentsOf(table, row) == {Key(Payments, row.payment), Key(Header(Invoice), row.against)};
      paymentTenant := SelectTenant(rows, Key(Payments, row.payment));
      documentTenant := SelectTenant(rows, Key(Header(Invoice), row.against));
    } else {
      assert ParentsOf(table, row) == {Key(BillPayments, row.payment), Key(Header(Bill), row.against)};
      paymentTenant := SelectTenant(rows, Key(BillPayments, row.payment));
      documentTenant := SelectTenant(rows, Key(Header(Bill), row.against));
    }
    if paymentTenant.None? || documentTenant.None? {
      return true;
    }
    raised := row.tenant != paymentTenant || row.tenant != documentTenant;
  }

  method GuardJournalEntriesUpdate(was: Row, now: Row) returns (raised: bool)
    requires was.EntryRow? && now.EntryRow?
    ensures raised <==> !MayUpdate(JournalEntries, was, now)
    ensures raised <==>
              now.locked != was.locked || (was.locked && now != EntryRow(was.tenant, was.locked, was.facts, now.meta))
  {
    if now.locked != was.locked {
      return true;
    }
    if !was.locked {
      return false;
    }
    var o, n := was.facts, now.facts;
    raised := now.tenant != was.tenant
              || n.entryDate != o.entryDate
              || n.referenceNumber != o.referenceNumber
              || n.description != o.description
              || n.sourceType != o.sourceType
              || n.sourceId != o.sourceId
              || n.createdBy != o.createdBy
              || n.postedBy != o.postedBy
              || n.postedAt != o.postedAt
              || n.sourceChannel != o.sourceChannel
              || n.originalTransaction != o.originalTransaction;
  }

  method GuardStockLedgerUpdate(was: Row, now: Row) returns (raised: bool)
    requires was.MovementRow? && now.MovementRow?
    ensures raised <==> !MayUpdate(StockLedger, was, now)
    ensures raised <==> now != MovementRow(was.tenant, was.movement, now.linkage)
  {
    var o, n := was.movement, now.movement;
    raised := now.tenant != was.tenant
              || n.product != o.product
              || n.warehouse != o.warehouse
              || n.referenceType != o.referenceType
              || n.referenceId != o.referenceId
              || n.quantity != o.quantity
              || n.balance != o.balance
              || n.rate != o.rate
              || n.createdAt != o.createdAt
              || n.createdBy != o.createdBy
              || n.sourceChannel != o.sourceChannel
              || n.reversesMovement != o.reversesMovement;
  }

  /** The triggers that fire before a row is inserted, or updated in its tenant or parent columns. */
  method FireTenantTriggers(rows: Rows, table: Table, row: Row) returns (raised: bool)
    requires Fits(table, row)
    ensures raised <==> !MatchesParents(rows, table, row)
  {
    raised := false;
    if table.JournalLines? || table.Detail? {
      raised := ChildTenantMatchesParent(rows, table, row);
    } else if table.PaymentAllocations? || table.BillPaymentAllocations? {
      raised := AllocationTenantMatchesParents(rows, table, row);
    }
  }

  /** The BEFORE UPDATE guard of a table. */
  method FireUpdateGuard(table: Table, was: Row, now: Row) returns (raised: bool)
    requires Fits(table, was) && Fits(table, now)
    ensures raised <==> !MayUpdate(table, was, now)
  {
    raised := false;
    if table.JournalEntries? {
      raised := GuardJournalEntriesUpdate(was, now);
    } else if table.StockLedger? {
      raised := GuardStockLedgerUpdate(was, now);
    } else if table.JournalLines? || table.AuditLogs? {
      raised := true;
    }
  }

  /** The BEFORE DELETE guard of a table. */
  method FireDeleteGuard(table: Table, was: Row, purge: Option<Tenant>) returns (raised: bool)
    ensures raised <==> !MayDelete(table, was, purge)
    ensures raised <==>
              table.AuditLogs? ||
              ((table.JournalEntries? || table.JournalLines? || table.StockLedger?) &&
               (purge.None? || purge != was.tenant))
  {
    raised := false;
    if table.JournalEntries? || table.JournalLines? || table.StockLedger? {
      raised := true;
      if purge.Some? && purge == was.tenant {
        return false;
      }
    } else if table.AuditLogs? {
      raised := true;
    }
  }

  /** A connection of the restricted role: the committed database, the tenant context variable of the
      running request, and the transaction under way. */
  class Connection {
    var committed: Rows
    var tenantContext: Option<Tenant>
    var rows: Rows
    var currentTenant: Option<Tenant>
    var purgeTenant: Option<Tenant>
    var pending: set<Id>

    ghost predicate Valid() reads this {
      WellTyped(committed) && WellTyped(rows)
    }

    function Now(): Session reads this {
      Session(rows, currentTenant, purgeTenant, pending)
    }

    constructor (committed: Rows)
      requires WellTyped(committed)
      ensures Valid() && this.committed == committed && tenantContext == None
      ensures Now() == Session(committed, None, None, {})
    {
      this.committed, rows := committed, committed;
      tenantContext, currentTenant, purgeTenant, pending := None, None, None, {};
    }

    /** The after_begin listener: every transaction starts as the request's tenant, or as nobody. */
    method AfterBegin()
      requires Valid()
      modifies this`rows, this`currentTenant, this`purgeTenant, this`pending
      ensures Valid() && Now() == Session(committed, tenantContext, None, {})
    {
      rows, purgeTenant, pending := committed, None, {};
      if tenantContext.Some? {
        currentTenant := tenantContext;
      } else {
        currentTenant := None;
      }
    }

    /** set_db_tenant_context: the request from here on, and the transaction already open. */
    method SetDbTenantContext(tenant: Tenant)
      requires Valid()
      modifies this`tenantContext, this`currentTenant
      ensures Valid() && tenantContext == currentTenant == Some(tenant)
      ensures Exec(old(Now()), BindTenant(Some(tenant))) == Some(Now())
    {
      tenantContext := Some(tenant);
      currentTenant := Some(tenant);
    }

    method Execute(st: Statement) returns (raised: bool)
      requires Valid()
      modifies this`rows, this`currentTenant, this`purgeTenant, this`pending
      ensures Valid()
      ensures if raised then Exec(old(Now()), st) == None && Now() == old(Now())
              else Exec(old(Now()), st) == Some(Now())
    {
      match st
      case BindTenant(t) =>
        currentTenant := t;
        return false;
      case FlagPurge(t) =>
        purgeTenant := t;
        return false;
      case Insert(key, row) =>
        raised := InsertRow(key, row);
      case Update(key, row) =>
        raised := UpdateRow(key, row);
      case Rekey(key, id) =>
        raised := RekeyRow(key, id);
      case Delete(key) =>
        raised := DeleteRow(key);
    }

    method InsertRow(key: Key, row: Row) returns (raised: bool)
      requires Valid()
      modifies this`rows, this`pending
      ensures Valid()
      ensures if raised then Exec(old(Now()), Insert(key, row)) == None && Now() == old(Now())
              else Exec(old(Now()), Insert(key, row)) == Some(Now())
    {
      if !Fits(key.table, row) {
        return true;
      }
      raised := FireTenantTriggers(rows, key.table, row);
      if raised || !Visible(key.table, row.tenant, currentTenant) || key in rows {
        return true;
      }
      rows := rows[key := row];
      pending := pending + Queued(key, row);
    }

    method UpdateRow(key: Key, row: Row) returns (raised: bool)
      requires Valid()
      modifies this`rows, this`pending
      ensures Valid()
      ensures if raised then Exec(old(Now()), Update(key, row)) == None && Now() == old(Now())
              else Exec(old(Now()), Update(key, row)) == Some(Now())
    {
      if key !in rows || !Visible(key.table, rows[key].tenant, currentTenant) {
        return false;
      }
      var was := rows[key];
      if !Fits(key.table, row) {
        return true;
      }
      raised := FireUpdateGuard(key.table, was, row);
      if raised {
        return;
      }
      if row.tenant != was.tenant || ParentsOf(key.table, row) != ParentsOf(key.table, was) {
        raised := FireTenantTriggers(rows, key.table, row);
        if raised {
          return;
        }
      }
      if !Visible(key.table, row.tenant, currentTenant) {
        return true;
      }
      rows := rows[key := row];
      pending := pending + Queued(key, row);
    }

    method RekeyRow(key: Key, id: Id) returns (raised: bool)
      requires Valid()
      modifies this`rows, this`pending
      ensures Valid()
      ensures if raised then Exec(old(Now()), Rekey(key, id)) == None && Now() == old(Now())
              else Exec(old(Now()), Rekey(key, id)) == Some(Now())
    {
      if key !in rows || !Visible(key.table, rows[key].tenant, currentTenant) {
        return false;
      }
      var was, target := rows[key], Key(key.table, id);
      raised := FireUpdateGuard(key.table, was, was);
      if raised || target in rows || IsReferenced(rows, key) {
        return true;
      }
      rows := (rows - {key})[target := was];
      pending := pending + Queued(target, was);
    }

    method DeleteRow(key: Key) returns (raised: bool)
      requires Valid()
      modifies this`rows, this`pending
      ensures Valid()
      ensures if raised then Exec(old(Now()), Delete(key)) == None && Now() == old(Now())
              else Exec(old(Now()), Delete(key)) == Some(Now())
    {
      if key !in rows || !Visible(key.table, rows[key].tenant, currentTenant) {
        return false;
      }
      var was := rows[key];
      raised := FireDeleteGuard(key.table, was, purgeTenant);
      if raised || IsReferenced(rows, key) {
        return true;
      }
      rows := rows - {key};
      pending := pending + if key.table.JournalLines? then Queued(key, was) else {};
    }

    /** Runs the deferred checks, then makes the transaction's rows the committed ones. */
    method CommitTransaction() returns (raised: bool)
      requires Valid()
      modifies this`committed, this`rows
      ensures Valid()
      ensures raised <==> !PassesCommitCheck(old(rows), pending)
      ensures committed == rows == if raised then old(committed) else old(rows)
    {
      raised := false;
      var left: set<Id> := pending;
      while left != {}
        invariant left <= pending && committed == old(committed) && rows == old(rows)
        invariant PassesCommitCheck(rows, pending - left)
        decreases left
      {
        ghost var one := Member(left);
        var entry :| entry in left;
        raised := ValidateJournalBalance(rows, entry);
        if raised {
          rows := committed;
          return;
        }
        left := left - {entry};
      }
      assert pending - left == pending;
      committed := rows;
    }

    /** One request's transaction: begin, its statements until one fails, then commit or rollback. */
    method RunTransaction(sts: seq<Statement>) returns (raised: bool)
      requires Valid()
      modifies this
      ensures Valid() && tenantContext == old(tenantContext)
      ensures committed == Transact(old(committed), tenantContext, sts)
      ensures var ran := ExecAll(Session(old(committed), tenantContext, None, {}), sts);
              raised <==> ran.None? || !PassesCommitCheck(ran.value.rows, ran.value.pending)
    {
      AfterBegin();
      for i := 0 to |sts|
        invariant Valid() && committed == old(committed) && tenantContext == old(tenantContext)
        invariant ExecAll(Session(committed, tenantContext, None, {}), sts) == ExecAll(Now(), sts[i..])
      {
        raised := Execute(sts[i]);
        if raised {
          rows := committed;
          return;
        }
      }
      raised := CommitTransaction();
    }
  }
}

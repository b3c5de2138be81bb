/** The tenant-owned tables, their row-level security and their triggers, as PostgreSQL enforces
    them for the restricted application role. One statement touches one row; a statement that
    touches several is a sequence of these, aborted as a whole by the first error. */
module LedgerRows {
  import opened Options
  import opened FiniteSums

  type Tenant = int
  type Id = int

  /** Document kinds whose detail table names its header table as parent. */
  datatype Document =
    | Invoice | Bill | PurchaseOrder | GoodsReceipt | SalesOrder | DeliveryChallan | ProformaInvoice
    | InventoryAdjustment | CreditNote | DebitNote | SalesReturn | PurchaseReturn | RecurringInvoice

  datatype Table =
    | JournalEntries
    | JournalLines
    | StockLedger
    | Header(document: Document)
    | Detail(document: Document)
    | Payments
    | BillPayments
    | PaymentAllocations
    | BillPaymentAllocations
    | AuditLogs
    | TermsTemplates
    | TaxTemplates
    | PaymentTerms
    | TenantMemberships
    | OtherOwned(name: string)        // any other table with a tenant_id column
    | Unowned(name: string)           // tables without tenant_id

  datatype Key = Key(table: Table, id: Id)

  datatype Direction = Debit | Credit

  /** The columns of a locked entry that its update guard compares. */
  datatype EntryFacts = EntryFacts(
    entryDate: int, referenceNumber: Option<string>, description: Option<string>, sourceType: string,
    sourceId: Option<Id>, createdBy: Option<Id>, postedBy: Option<Id>, postedAt: Option<int>,
    sourceChannel: Option<string>, originalTransaction: Option<Id>)

  /** The columns no guard compares: correction linkage, updated_at, and also created_at. */
  datatype EntryMeta = EntryMeta(
    reversedBy: Option<Id>, reversedAt: Option<int>, reversalTransaction: Option<Id>,
    reversesTransaction: Option<Id>, replacementTransaction: Option<Id>, createdAt: int, updatedAt: int)

  datatype MovementFacts = MovementFacts(
    product: Id, warehouse: Option<Id>, referenceType: string, referenceId: Option<Id>, quantity: int,
    balance: int, rate: Option<int>, createdAt: int, createdBy: Option<Id>,
    sourceChannel: Option<string>, reversesMovement: Option<Id>)

  datatype MovementMeta = MovementMeta(
    reversalMovement: Option<Id>, reversedBy: Option<Id>, reversedAt: Option<int>)

  /** Amounts and quantities are in units of 1/10000, the scale of the columns. */
  datatype Row =
    | EntryRow(tenant: Option<Tenant>, locked: bool, facts: EntryFacts, meta: EntryMeta)
    | LineRow(tenant: Option<Tenant>, parent: Id, account: Id, amount: int, direction: Direction)
    | MovementRow(tenant: Option<Tenant>, movement: MovementFacts, linkage: MovementMeta)
    | ChildRow(tenant: Option<Tenant>, parent: Id, data: int)
    | AllocationRow(tenant: Option<Tenant>, payment: Id, against: Id, data: int)
    | PlainRow(tenant: Option<Tenant>, data: int)

  type Rows = map<Key, Row>

  predicate Fits(table: Table, row: Row) {
    match table
    case JournalEntries => row.EntryRow?
    case JournalLines => row.LineRow? && row.amount > 0
    case StockLedger => row.MovementRow?
    case Detail(_) => row.ChildRow?
    case PaymentAllocations => row.AllocationRow?
    case BillPaymentAllocations => row.AllocationRow?
    case _ => row.PlainRow?
  }

  /** The parent rows a row names: its header, or its payment and its document. */
  function ParentsOf(table: Table, row: Row): set<Key> {
    match table
    case JournalLines => if row.LineRow? then {Key(JournalEntries, row.parent)} else {}
    case Detail(d) => if row.ChildRow? then {Key(Header(d), row.parent)} else {}
    case PaymentAllocations =>
      if row.AllocationRow? then {Key(Payments, row.payment), Key(Header(Invoice), row.against)} else {}
    case BillPaymentAllocations =>
      if row.AllocationRow? then {Key(BillPayments, row.payment), Key(Header(Bill), row.against)} else {}
    case _ => {}
  }

  /** Tables under a tenant-match trigger. */
  predicate IsChild(table: Table) {
    table.JournalLines? || table.Detail? || table.PaymentAllocations? || table.BillPaymentAllocations?
  }

  predicate IsGlobal(table: Table) {
    table.AuditLogs? || table.TermsTemplates? || table.TaxTemplates? || table.PaymentTerms?
  }

  predicate HasPolicy(table: Table) {
    !table.TenantMemberships? && !table.Unowned?
  }

  /** The tenant_isolation condition, both as USING and as WITH CHECK. `context` is
      app.current_tenant_id, None standing for the empty setting, which equals no uuid. */
  predicate Visible(table: Table, tenant: Option<Tenant>, context: Option<Tenant>) {
    HasPolicy(table) ==>
      (IsGlobal(table) && tenant.None?) || (tenant.Some? && tenant == context)
  }

  /** The BEFORE trigger on child and allocation tables: an owner, and parents with that owner. */
  predicate MatchesParents(rows: Rows, table: Table, row: Row) {
    IsChild(table) ==>
      && row.tenant.Some?
      && forall k :: k in ParentsOf(table, row) ==> k in rows && rows[k].tenant == row.tenant
  }

  /** The BEFORE UPDATE guards. An unlocked entry stays editable, but cannot be locked either. */
  predicate MayUpdate(table: Table, was: Row, now: Row) {
    match table
    case JournalEntries =>
      was.EntryRow? && now.EntryRow? ==>
        && now.locked == was.locked
        && (was.locked ==> now.tenant == was.tenant && now.facts == was.facts)
    case JournalLines => false
    case StockLedger =>
      was.MovementRow? && now.MovementRow? ==>
        now.tenant == was.tenant && now.movement == was.movement
    case AuditLogs => false
    case _ => true
  }

  /** The BEFORE DELETE guards: ledger rows only under a purge flag naming their own tenant. */
  predicate MayDelete(table: Table, row: Row, purge: Option<Tenant>) {
    match table
    case JournalEntries => purge.Some? && row.tenant == purge
    case JournalLines => purge.Some? && row.tenant == purge
    case StockLedger => purge.Some? && row.tenant == purge
    case AuditLogs => false
    case _ => true
  }

  /** Foreign keys without a cascade: a referenced row can neither go away nor change its id. */
  predicate IsReferenced(rows: Rows, key: Key) {
    exists k :: k in rows && key in ParentsOf(k.table, rows[k])
  }

  /** The entry whose balance a written row puts on the deferred queue. */
  function Queued(key: Key, row: Row): set<Id> {
    if key.table.JournalEntries? then {key.id}
    else if key.table.JournalLines? && row.LineRow? then {row.parent}
    else {}
  }

  datatype Statement =
    | Insert(key: Key, row: Row)
    | Update(key: Key, row: Row)
    | Rekey(key: Key, id: Id)            // UPDATE ... SET id
    | Delete(key: Key)
    | BindTenant(tenant: Option<Tenant>) // SET LOCAL app.current_tenant_id
    | FlagPurge(tenant: Option<Tenant>)  // SET LOCAL app.purge_tenant_id

  /** A transaction under way: what it sees, its settings, and the entries whose balance is due. */
  datatype Session = Session(rows: Rows, context: Option<Tenant>, purge: Option<Tenant>, pending: set<Id>)

  /** A statement's effect; None is an error, which aborts the transaction. A row the policy hides
      is simply not found. */
  function Exec(s: Session, st: Statement): Option<Session> {
    match st
    case BindTenant(t) => Some(s.(context := t))
    case FlagPurge(t) => Some(s.(purge := t))
    case Insert(key, row) =>
      if key !in s.rows && Fits(key.table, row) && MatchesParents(s.rows, key.table, row)
         && Visible(key.table, row.tenant, s.context)
      then Some(s.(rows := s.rows[key := row], pending := s.pending + Queued(key, row)))
      else None
    case Update(key, row) =>
      if !Found(s, key) then Some(s)
      else
        var was := s.rows[key];
        var moved := row.tenant != was.tenant || ParentsOf(key.table, row) != ParentsOf(key.table, was);
        if Fits(key.table, row) && MayUpdate(key.table, was, row)
           && (moved ==> MatchesParents(s.rows, key.table, row))
           && Visible(key.table, row.tenant, s.context)
        then Some(s.(rows := s.rows[key := row], pending := s.pending + Queued(key, row)))
        else None
    case Rekey(key, id) =>
      var key' := Key(key.table, id);
      if !Found(s, key) then Some(s)
      else if MayUpdate(key.table, s.rows[key], s.rows[key]) && key' !in s.rows && !IsReferenced(s.rows, key)
      then Some(s.(rows := (s.rows - {key})[key' := s.rows[key]],
                   pending := s.pending + Queued(key', s.rows[key])))
      else None
    case Delete(key) =>
      if !Found(s, key) then Some(s)
      else if MayDelete(key.table, s.rows[key], s.purge) && !IsReferenced(s.rows, key)
      then Some(s.(rows := s.rows - {key},
                   pending := s.pending + if key.table.JournalLines? then Queued(key, s.rows[key]) else {}))
      else None
  }

  predicate Found(s: Session, key: Key) {
    key in s.rows && Visible(key.table, s.rows[key].tenant, s.context)
  }

  function LinesOf(rows: Rows, entry: Id): set<Key> {
    set k | k in rows && k.table.JournalLines? && rows[k].LineRow? && rows[k].parent == entry
  }

  /** What a row contributes to the debits (or credits) of whatever it is summed into. */
  function Side(rows: Rows, side: Direction): Key -> int {
    k => if k in rows && rows[k].LineRow? && rows[k].direction == side then rows[k].amount else 0
  }

  ghost function Total(rows: Rows, lines: set<Key>, side: Direction): int {
    Sum(lines, Side(rows, side))
  }

  /** What the deferred constraint trigger demands of an entry that still exists. */
  ghost predicate IsBalanced(rows: Rows, entry: Id) {
    var lines := LinesOf(rows, entry);
    |lines| >= 2 && Total(rows, lines, Debit) == Total(rows, lines, Credit)
  }

  ghost predicate PassesCommitCheck(rows: Rows, pending: set<Id>) {
    forall e :: e in pending && Key(JournalEntries, e) in rows ==> IsBalanced(rows, e)
  }

  function ExecAll(s: Session, sts: seq<Statement>): Option<Session>
    decreases |sts|
  {
    if sts == [] then Some(s)
    else
      match Exec(s, sts[0])
      case None => None
      case Some(s') => ExecAll(s', sts[1..])
  }

  /** A whole transaction: begun under the request's tenant, committed only if no statement failed
      and the deferred checks pass, otherwise leaving no trace. */
  ghost function Transact(rows: Rows, context: Option<Tenant>, sts: seq<Statement>): Rows {
    match ExecAll(Session(rows, context, None, {}), sts)
    case None => rows
    case Some(s) => if PassesCommitCheck(s.rows, s.pending) then s.rows else rows
  }

  ghost predicate WellTyped(rows: Rows) {
    forall k :: k in rows ==> Fits(k.table, rows[k])
  }
}

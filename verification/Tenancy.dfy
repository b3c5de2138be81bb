/** What row-level security and the tenant triggers keep, over any sequence of statements. */
module Tenancy {
  import opened Options
  import opened LedgerRows

  /** All rows of one tenant, in every table under a tenant_isolation policy. */
  function OwnedBy(rows: Rows, t: Tenant): Rows {
    map k | k in rows && HasPolicy(k.table) && rows[k].tenant == Some(t) :: rows[k]
  }

  lemma ExecFrames(s: Session, st: Statement, t: Tenant)
    requires s.context != Some(t) && Exec(s, st).Some?
    ensures OwnedBy(Exec(s, st).value.rows, t) == OwnedBy(s.rows, t)
  {
  }

  predicate NeverBinds(sts: seq<Statement>, t: Tenant) {
    forall st :: st in sts ==> st != BindTenant(Some(t))
  }

  lemma {:induction false} ExecAllFrames(s: Session, sts: seq<Statement>, t: Tenant)
    requires s.context != Some(t) && NeverBinds(sts, t) && ExecAll(s, sts).Some?
    ensures OwnedBy(ExecAll(s, sts).value.rows, t) == OwnedBy(s.rows, t)
    decreases |sts|
  {
    if sts != [] {
      assert sts[0] in sts && forall st :: st in sts[1..] ==> st in sts;
      ExecFrames(s, sts[0], t);
      ExecAllFrames(Exec(s, sts[0]).value, sts[1..], t);
    }
  }

  /** One request's transaction: the tenant its context variable holds at begin, and its SQL. */
  datatype Work = Work(context: Option<Tenant>, sts: seq<Statement>)

  ghost function TransactAll(rows: Rows, works: seq<Work>): Rows
    decreases |works|
  {
    if works == [] then rows
    else TransactAll(Transact(rows, works[0].context, works[0].sts), works[1..])
  }

  lemma SameOwned(rows: Rows, after: Rows, t: Tenant)
    requires OwnedBy(after, t) == OwnedBy(rows, t)
    ensures forall k: Key :: !k.table.TenantMemberships? && !k.table.Unowned? ==>
              (k in after && after[k].tenant == Some(t) <==> k in rows && rows[k].tenant == Some(t)) &&
              (k in rows && rows[k].tenant == Some(t) ==> after[k] == rows[k])
  {
    forall k: Key | !k.table.TenantMemberships? && !k.table.Unowned?
      ensures k in after && after[k].tenant == Some(t) <==> k in OwnedBy(rows, t)
      ensures k in rows && rows[k].tenant == Some(t) <==> k in OwnedBy(after, t)
    {
    }
  }

  /** Tenant frame: transactions that never run as t, nor bind t, leave t's rows untouched, whoever
      else they run as. With no context bound at all, no tenant's rows change. */
  lemma {:induction false} TenantFrame(rows: Rows, works: seq<Work>, t: Tenant)
    requires forall w :: w in works ==> w.context != Some(t) && NeverBinds(w.sts, t)
    ensures OwnedBy(TransactAll(rows, works), t) == OwnedBy(rows, t)
    ensures var after := TransactAll(rows, works);
            forall k: Key :: !k.table.TenantMemberships? && !k.table.Unowned? ==>
              (k in after && after[k].tenant == Some(t) <==> k in rows && rows[k].tenant == Some(t)) &&
              (k in rows && rows[k].tenant == Some(t) ==> after[k] == rows[k])
    decreases |works|
  {
    if works != [] {
      assert works[0] in works && forall w :: w in works[1..] ==> w in works;
      var begun := Session(rows, works[0].context, None, {});
      if ExecAll(begun, works[0].sts).Some? {
        ExecAllFrames(begun, works[0].sts, t);
      }
      TenantFrame(Transact(rows, works[0].context, works[0].sts), works[1..], t);
    }
    SameOwned(rows, TransactAll(rows, works), t);
  }

  /** Every child row has its parent's tenant, every allocation both its payment's and document's. */
  ghost predicate Agrees(rows: Rows) {
    forall k :: k in rows ==> MatchesParents(rows, k.table, rows[k])
  }

  /** The row `parent` is there and has this owner. */
  predicate HasOwner(rows: Rows, parent: Key, owner: Option<Tenant>) {
    owner.Some? && parent in rows && rows[parent].tenant == owner
  }

  /** What that means table by table: a journal line has the owner of its entry, a detail row that of the
      header of its own document kind, an allocation that of its payment and its invoice, or bill payment and
      bill. */
  predicate OwnersMatch(rows: Rows, table: Table, row: Row) {
    match table
    case JournalLines => row.LineRow? && HasOwner(rows, Key(JournalEntries, row.parent), row.tenant)
    case Detail(d) => row.ChildRow? && HasOwner(rows, Key(Header(d), row.parent), row.tenant)
    case PaymentAllocations =>
      && row.AllocationRow?
      && HasOwner(rows, Key(Payments, row.payment), row.tenant)
      && HasOwner(rows, Key(Header(Invoice), row.against), row.tenant)
    case BillPaymentAllocations =>
      && row.AllocationRow?
      && HasOwner(rows, Key(BillPayments, row.payment), row.tenant)
      && HasOwner(rows, Key(Header(Bill), row.against), row.tenant)
    case _ => true
  }

  ghost predicate OwnersAgree(rows: Rows) {
    forall k :: k in rows ==> OwnersMatch(rows, k.table, rows[k])
  }

  lemma MatchesParentsIff(rows: Rows, table: Table, row: Row)
    requires Fits(table, row)
    ensures MatchesParents(rows, table, row) <==> OwnersMatch(rows, table, row)
  {
    match table
    case JournalLines => assert ParentsOf(table, row) == {Key(JournalEntries, row.parent)};
    case Detail(d) => assert ParentsOf(table, row) == {Key(Header(d), row.parent)};
    case PaymentAllocations =>
      assert ParentsOf(table, row) == {Key(Payments, row.payment), Key(Header(Invoice), row.against)};
    case BillPaymentAllocations =>
      assert ParentsOf(table, row) == {Key(BillPayments, row.payment), Key(Header(Bill), row.against)};
    case _ =>
  }

  lemma AgreesIff(rows: Rows)
    requires WellTyped(rows)
    ensures Agrees(rows) <==> OwnersAgree(rows)
  {
    forall k | k in rows ensures MatchesParents(rows, k.table, rows[k]) <==> OwnersMatch(rows, k.table, rows[k]) {
      MatchesParentsIff(rows, k.table, rows[k]);
    }
  }

  lemma ExecKeepsTyped(s: Session, st: Statement)
    requires WellTyped(s.rows) && Exec(s, st).Some?
    ensures WellTyped(Exec(s, st).value.rows)
  {
    var rows' := Exec(s, st).value.rows;
    forall k | k in rows' ensures Fits(k.table, rows'[k]) {
      if k !in s.rows && st.Rekey? {
        assert Fits(st.key.table, s.rows[st.key]);
      }
    }
  }

  lemma {:induction false} ExecAllKeepsTyped(s: Session, sts: seq<Statement>)
    requires WellTyped(s.rows) && ExecAll(s, sts).Some?
    ensures WellTyped(ExecAll(s, sts).value.rows)
    decreases |sts|
  {
    if sts != [] {
      ExecKeepsTyped(s, sts[0]);
      ExecAllKeepsTyped(Exec(s, sts[0]).value, sts[1..]);
    }
  }

  lemma {:induction false} TransactAllKeepsTyped(rows: Rows, works: seq<Work>)
    requires WellTyped(rows)
    ensures WellTyped(TransactAll(rows, works))
    decreases |works|
  {
    if works != [] {
      var begun := Session(rows, works[0].context, None, {});
      if ExecAll(begun, works[0].sts).Some? {
        ExecAllKeepsTyped(begun, works[0].sts);
      }
      TransactAllKeepsTyped(Transact(rows, works[0].context, works[0].sts), works[1..]);
    }
  }

  lemma ExecKeepsAgreement(s: Session, st: Statement)
    requires Agrees(s.rows) && Exec(s, st).Some?
    ensures Agrees(Exec(s, st).value.rows)
  {
    var rows' := Exec(s, st).value.rows;
    forall k | k in rows' && IsChild(k.table) ensures MatchesParents(rows', k.table, rows'[k]) {
      forall p | p in ParentsOf(k.table, rows'[k])
        ensures p in rows' && rows'[p].tenant == rows'[k].tenant
      {
        assert !IsChild(p.table);
        if k in s.rows {
          assert MatchesParents(s.rows, k.table, s.rows[k]);
        }
        if st.Rekey? && k !in s.rows {
          assert MatchesParents(s.rows, k.table, s.rows[st.key]);
        }
      }
    }
  }

  lemma {:induction false} ExecAllKeepsAgreement(s: Session, sts: seq<Statement>)
    requires Agrees(s.rows) && ExecAll(s, sts).Some?
    ensures Agrees(ExecAll(s, sts).value.rows)
    decreases |sts|
  {
    if sts != [] {
      ExecKeepsAgreement(s, sts[0]);
      ExecAllKeepsAgreement(Exec(s, sts[0]).value, sts[1..]);
    }
  }

  lemma TransactKeepsAgreement(rows: Rows, context: Option<Tenant>, sts: seq<Statement>)
    requires Agrees(rows)
    ensures Agrees(Transact(rows, context, sts))
  {
    var begun := Session(rows, context, None, {});
    if ExecAll(begun, sts).Some? {
      ExecAllKeepsAgreement(begun, sts);
    }
  }

  lemma {:induction false} TransactAllKeepsAgreement(rows: Rows, works: seq<Work>)
    requires Agrees(rows)
    ensures Agrees(TransactAll(rows, works))
    decreases |works|
  {
    if works != [] {
      TransactKeepsAgreement(rows, works[0].context, works[0].sts);
      TransactAllKeepsAgreement(Transact(rows, works[0].context, works[0].sts), works[1..]);
    }
  }

  /** Tenant agreement survives any statement sequence of the restricted role, under any contexts,
      purges included: every parent a child names exists and has the child's tenant. */
  lemma TenantAgreement(rows: Rows, works: seq<Work>)
    requires WellTyped(rows) && OwnersAgree(rows)
    ensures WellTyped(TransactAll(rows, works)) && OwnersAgree(TransactAll(rows, works))
  {
    AgreesIff(rows);
    TransactAllKeepsTyped(rows, works);
    TransactAllKeepsAgreement(rows, works);
    AgreesIff(TransactAll(rows, works));
  }
}

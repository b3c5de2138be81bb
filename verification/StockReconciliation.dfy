/** The migration that makes stock movements add up to the established product balances. */
module StockReconciliation {
  import opened Options
  import opened FiniteSums

  type Id = int

  /** Ids of existing movements, and md5(product id || '-warehouse-reconcile'), taken as injective and
      disjoint from them until the migration has run. */
  datatype MovementId = Existing(n: int) | Reconcile(product: Id)

  /** Quantities are in units of 1/10000. */
  datatype Product = Product(tenant: Id, live: bool, goods: bool, currentStock: Option<int>)

  datatype Movement = Movement(tenant: Id, product: Id, warehouse: Option<Id>, quantity: int, balance: int)

  type Movements = map<MovementId, Movement>

  datatype Branch = Branch(tenant: Id, live: bool, active: bool, createdAt: int)

  /** The branches a tenant's stock may lie in. */
  function Candidates(branches: map<Id, Branch>, tenant: Id): set<Id> {
    set b | b in branches && branches[b].tenant == tenant && branches[b].live && branches[b].active
  }

  /** ORDER BY created_at, id. */
  predicate ComesFirst(branches: map<Id, Branch>, a: Id, b: Id)
    requires a in branches && b in branches
  {
    branches[a].createdAt < branches[b].createdAt || (branches[a].createdAt == branches[b].createdAt && a <= b)
  }

  lemma {:induction false} FirstExists(branches: map<Id, Branch>, candidates: set<Id>)
    requires candidates <= branches.Keys && candidates != {}
    ensures exists b :: b in candidates && forall c :: c in candidates ==> ComesFirst(branches, b, c)
  {
    var a := Member(candidates);
    var others := candidates - {a};
    var first := a;
    if others != {} {
      FirstExists(branches, others);
      var b :| b in others && forall c :: c in others ==> ComesFirst(branches, b, c);
      first := if ComesFirst(branches, a, b) then a else b;
    }
    forall c | c in candidates ensures ComesFirst(branches, first, c) {
      if c != a {
        assert c in others;
      }
    }
  }

  /** ... LIMIT 1: the first of some branches, which there is always exactly one of. */
  function FirstOf(branches: map<Id, Branch>, candidates: set<Id>): Option<Id>
    requires candidates <= branches.Keys
  {
    if candidates == {} then None
    else
      FirstExists(branches, candidates);
      var b :| b in candidates && forall c :: c in candidates ==> ComesFirst(branches, b, c);
      Some(b)
  }

  /** The tenant's first active warehouse, if it has one. */
  function FirstWarehouse(branches: map<Id, Branch>, tenant: Id): Option<Id> {
    FirstOf(branches, Candidates(branches, tenant))
  }

  /** A live, active branch of the tenant. */
  predicate MayHold(branch: Branch, tenant: Id) {
    branch == Branch(tenant, true, true, branch.createdAt)
  }

  /** Whatever warehouse comes before all others of the tenant is its first, and without any there is none. */
  lemma FirstWarehouseIff(branches: map<Id, Branch>, tenant: Id, b: Id)
    ensures FirstWarehouse(branches, tenant) == Some(b) <==>
              b in branches && MayHold(branches[b], tenant) &&
              forall c :: c in branches && MayHold(branches[c], tenant) ==>
                branches[b].createdAt < branches[c].createdAt ||
                (branches[b].createdAt == branches[c].createdAt && b <= c)
    ensures FirstWarehouse(branches, tenant) == None <==>
              forall c :: c in branches ==> !MayHold(branches[c], tenant)
  {
    assert forall c :: c in branches && MayHold(branches[c], tenant) <==> c in Candidates(branches, tenant);
    var candidates := Candidates(branches, tenant);
    if candidates != {} {
      FirstExists(branches, candidates);
      var first := FirstOf(branches, candidates).value;
      assert first in candidates && forall c :: c in candidates ==> ComesFirst(branches, first, c);
    }
  }

  function MovementsOf(ms: Movements, tenant: Id, product: Id): set<MovementId> {
    set m | m in ms && ms[m].tenant == tenant && ms[m].product == product
  }

  function Quantity(ms: Movements): MovementId -> int {
    m => if m in ms then ms[m].quantity else 0
  }

  /** coalesce(sum(quantity), 0) of the movements of a product in its own tenant. */
  ghost function MovementTotal(ms: Movements, tenant: Id, product: Id): int {
    Sum(MovementsOf(ms, tenant, product), Quantity(ms))
  }

  ghost function Difference(ps: map<Id, Product>, ms: Movements, p: Id): int
    requires p in ps
  {
    ps[p].currentStock.GetOr(0) - MovementTotal(ms, ps[p].tenant, p)
  }

  function Abs(x: int): int {
    if x < 0 then -x else x
  }

  /** Live goods whose movements miss the balance by more than half a unit, that is, by any amount. */
  ghost predicate NeedsMovement(ps: map<Id, Product>, ms: Movements, p: Id) {
    p in ps && ps[p].live && ps[p].goods && 2 * Abs(Difference(ps, ms, p)) > 1
  }

  ghost function NewMovement(ps: map<Id, Product>, ms: Movements, branches: map<Id, Branch>, p: Id): Movement
    requires p in ps
  {
    Movement(ps[p].tenant, p, FirstWarehouse(branches, ps[p].tenant), Difference(ps, ms, p),
             ps[p].currentStock.GetOr(0))
  }

  /** Unallocated movements go to the tenant's first active warehouse. */
  function Allocated(ms: Movements, branches: map<Id, Branch>): Movements {
    map m | m in ms ::
      var first := FirstWarehouse(branches, ms[m].tenant);
      if ms[m].warehouse.None? && first.Some? then ms[m].(warehouse := first) else ms[m]
  }

  ghost predicate Collides(ps: map<Id, Product>, ms: Movements) {
    exists p :: NeedsMovement(ps, ms, p) && Reconcile(p) in ms
  }

  /** The products the INSERT ... SELECT selects. */
  ghost function Due(ps: map<Id, Product>, ms: Movements): set<Id> {
    set p | p in ps && NeedsMovement(ps, ms, p)
  }

  function NewIds(due: set<Id>): (ids: set<MovementId>)
    ensures forall m :: m in ids <==> m.Reconcile? && m.product in due
  {
    set p | p in due :: Reconcile(p)
  }

  ghost function NewMovements(ps: map<Id, Product>, ms: Movements, branches: map<Id, Branch>, due: set<Id>): Movements
    requires due <= ps.Keys
  {
    map m | m in NewIds(due) :: NewMovement(ps, ms, branches, m.product)
  }

  /** One reconciling movement per selected product; every total is read before any row is written. */
  ghost function Reconciled(ps: map<Id, Product>, ms: Movements, branches: map<Id, Branch>, due: set<Id>): Movements
    requires due <= ps.Keys
  {
    ms + NewMovements(ps, ms, branches, due)
  }

  /** The total is over the movements of this product in this tenant, wherever they lie. */
  lemma MovementTotalIs(ms: Movements, tenant: Id, product: Id)
    ensures MovementTotal(ms, tenant, product) ==
            Sum((set m | m in ms && ms[m].tenant == tenant && ms[m].product == product),
                (m: MovementId) => if m in ms then ms[m].quantity else 0)
  {
    var selected := set m | m in ms && ms[m].tenant == tenant && ms[m].product == product;
    assert MovementsOf(ms, tenant, product) == selected;
    SumSame(selected, Quantity(ms), (m: MovementId) => if m in ms then ms[m].quantity else 0);
  }

  lemma AllocationKeepsTotals(ms: Movements, branches: map<Id, Branch>, tenant: Id, product: Id)
    ensures MovementTotal(Allocated(ms, branches), tenant, product) == MovementTotal(ms, tenant, product)
  {
    assert MovementsOf(Allocated(ms, branches), tenant, product) == MovementsOf(ms, tenant, product);
    SumSame(MovementsOf(ms, tenant, product), Quantity(Allocated(ms, branches)), Quantity(ms));
  }

  lemma ReconciledTotal(ps: map<Id, Product>, ms: Movements, branches: map<Id, Branch>, p: Id)
    requires p in ps && !Collides(ps, ms)
    ensures MovementTotal(Reconciled(ps, ms, branches, Due(ps, ms)), ps[p].tenant, p) ==
            MovementTotal(ms, ps[p].tenant, p) + if NeedsMovement(ps, ms, p) then Difference(ps, ms, p) else 0
  {
    var after := Reconciled(ps, ms, branches, Due(ps, ms));
    var before := MovementsOf(ms, ps[p].tenant, p);
    var extra := if p in Due(ps, ms) then {Reconcile(p)} else {};
    assert MovementsOf(after, ps[p].tenant, p) == before + extra;
    SumUnion(before, extra, Quantity(after));
    SumSame(before, Quantity(after), Quantity(ms));
    if extra != {} {
      SumPick(extra, Reconcile(p), Quantity(after));
      assert extra - {Reconcile(p)} == {};
    }
  }

  /** After the migration the movements of every live goods product add up to exactly its current
      stock, no other product's total has changed, every earlier movement is still there with its
      quantity, and a second run would insert nothing. */
  lemma ReconciliationIsExact(ps: map<Id, Product>, ms: Movements, branches: map<Id, Branch>, p: Id)
    requires p in ps && !Collides(ps, Allocated(ms, branches))
    ensures var placed := Allocated(ms, branches);
            var after := Reconciled(ps, placed, branches, Due(ps, placed));
            && MovementTotal(after, ps[p].tenant, p) ==
               (if ps[p].live && ps[p].goods then ps[p].currentStock.GetOr(0)
                else MovementTotal(ms, ps[p].tenant, p))
            && p !in Due(ps, after)
            && (forall m :: m in ms ==> m in after && after[m].quantity == ms[m].quantity)
  {
    var placed := Allocated(ms, branches);
    AllocationKeepsTotals(ms, branches, ps[p].tenant, p);
    ReconciledTotal(ps, placed, branches, p);
    assert forall q :: q in Due(ps, placed) ==> Reconcile(q) !in placed;
    assert forall m :: m in ms ==> m in placed && placed[m].quantity == ms[m].quantity;
  }

  /** What becomes of a movement: one that lies in a warehouse, or whose tenant has none, stays as it is, and any
      other gains exactly the tenant's first warehouse. */
  ghost predicate IsPlaced(was: Movement, now: Movement, branches: map<Id, Branch>) {
    var first := FirstWarehouse(branches, was.tenant);
    if was.warehouse.None? && first.Some?
    then now == Movement(was.tenant, was.product, first, was.quantity, was.balance) else now == was
  }

  /** What is due to a product: live goods whose movements do not add up to its stock get the difference, in the
      tenant's first warehouse, with the stock as its balance. */
  ghost predicate IsDue(ps: map<Id, Product>, ms: Movements, p: Id) {
    p in ps && ps[p].live && ps[p].goods && ps[p].currentStock.GetOr(0) != MovementTotal(ms, ps[p].tenant, p)
  }

  ghost predicate IsReconciling(ps: map<Id, Product>, ms: Movements, branches: map<Id, Branch>, p: Id, m: Movement)
    requires p in ps
  {
    var stock := ps[p].currentStock.GetOr(0);
    m == Movement(ps[p].tenant, p, FirstWarehouse(branches, ps[p].tenant),
                  stock - MovementTotal(ms, ps[p].tenant, p), stock)
  }

  lemma DueIff(ps: map<Id, Product>, ms: Movements, branches: map<Id, Branch>, p: Id)
    ensures NeedsMovement(ps, Allocated(ms, branches), p) <==> IsDue(ps, ms, p)
    ensures IsDue(ps, ms, p) ==>
              IsReconciling(ps, ms, branches, p, NewMovement(ps, Allocated(ms, branches), branches, p))
  {
    if p in ps {
      AllocationKeepsTotals(ms, branches, ps[p].tenant, p);
    }
  }

  /** The migrated movements are the earlier ones, placed, and one reconciling movement for each product due. */
  lemma MigratedIs(ps: map<Id, Product>, ms: Movements, branches: map<Id, Branch>, m: MovementId)
    requires !Collides(ps, Allocated(ms, branches))
    ensures var placed := Allocated(ms, branches);
            var after := Reconciled(ps, placed, branches, Due(ps, placed));
            && (m in after <==> m in ms || (m.Reconcile? && IsDue(ps, ms, m.product)))
            && (m in ms ==> IsPlaced(ms[m], after[m], branches))
            && (m in after && m !in ms ==> IsReconciling(ps, ms, branches, m.product, after[m]))
  {
    var placed := Allocated(ms, branches);
    if m.Reconcile? {
      DueIff(ps, ms, branches, m.product);
    }
    assert m in ms <==> m in placed;
    assert m in ms && m.Reconcile? ==> m.product !in Due(ps, placed);
  }

  /** The migration aborts exactly if a product is due whose reconciling id is taken. */
  lemma CollidesIff(ps: map<Id, Product>, ms: Movements, branches: map<Id, Branch>)
    ensures Collides(ps, Allocated(ms, branches)) <==> exists p :: IsDue(ps, ms, p) && Reconcile(p) in ms
  {
    var placed := Allocated(ms, branches);
    if Collides(ps, placed) {
      var p :| NeedsMovement(ps, placed, p) && Reconcile(p) in placed;
      DueIff(ps, ms, branches, p);
    }
    if exists p :: IsDue(ps, ms, p) && Reconcile(p) in ms {
      var p :| IsDue(ps, ms, p) && Reconcile(p) in ms;
      DueIff(ps, ms, branches, p);
    }
  }

  /** sum(quantity) over the selected movements. */
  method SumQuantities(ms: Movements, selected: set<MovementId>) returns (total: int)
    requires selected <= ms.Keys
    ensures total == Sum(selected, Quantity(ms))
  {
    total := 0;
    var left := selected;
    ghost var done: set<MovementId> := {};
    while left != {}
      invariant done !! left && done + left == selected && total == Sum(done, Quantity(ms))
      decreases left
    {
      var m :| m in left;
      SumPick(done + {m}, m, Quantity(ms));
      assert done + {m} - {m} == done;
      total := total + ms[m].quantity;
      left, done := left - {m}, done + {m};
    }
    assert done == selected;
  }

  lemma AddOne(ms: Movements, news: Movements, id: MovementId, movement: Movement)
    ensures ms + news[id := movement] == (ms + news)[id := movement]
  {
  }

  lemma OneMoreProduct(ps: map<Id, Product>, ms: Movements, branches: map<Id, Branch>, due: set<Id>, p: Id)
    requires due <= ps.Keys && p in ps
    ensures Reconciled(ps, ms, branches, due + {p}) ==
            Reconciled(ps, ms, branches, due)[Reconcile(p) := NewMovement(ps, ms, branches, p)]
  {
    var news := NewMovements(ps, ms, branches, due);
    assert NewMovements(ps, ms, branches, due + {p}) == news[Reconcile(p) := NewMovement(ps, ms, branches, p)] by {
      assert NewIds(due + {p}) == NewIds(due) + {Reconcile(p)};
    }
    AddOne(ms, news, Reconcile(p), NewMovement(ps, ms, branches, p));
  }

  /** Whether a product needs a reconciling movement, and the movement. */
  method Reconciliation(ps: map<Id, Product>, ms: Movements, branches: map<Id, Branch>, p: Id)
    returns (needed: bool, movement: Movement)
    requires p in ps
    ensures needed <==> NeedsMovement(ps, ms, p)
    ensures movement == NewMovement(ps, ms, branches, p)
  {
    var product := ps[p];
    var total := SumQuantities(ms, MovementsOf(ms, product.tenant, p));
    var difference := product.currentStock.GetOr(0) - total;
    needed := product.live && product.goods && 2 * Abs(difference) > 1;
    movement := Movement(product.tenant, p, FirstWarehouse(branches, product.tenant), difference,
                         product.currentStock.GetOr(0));
  }

  /** The upgrade's two data steps. A reconciling id that already exists aborts the migration. */
  method Upgrade(ps: map<Id, Product>, ms: Movements, branches: map<Id, Branch>)
    returns (after: Movements, aborted: bool)
    ensures aborted <==> Collides(ps, Allocated(ms, branches))
    ensures after == if aborted then ms
                     else Reconciled(ps, Allocated(ms, branches), branches, Due(ps, Allocated(ms, branches)))
  {
    var placed := Allocated(ms, branches);
    after, aborted := placed, false;
    var left: set<Id> := ps.Keys;
    ghost var due: set<Id> := {};
    assert Reconciled(ps, placed, branches, {}) == placed;
    while left != {}
      invariant left <= ps.Keys && due <= ps.Keys
      invariant forall p :: p in due <==> p in ps && p !in left && NeedsMovement(ps, placed, p)
      invariant forall p :: p in due ==> Reconcile(p) !in placed
      invariant after == Reconciled(ps, placed, branches, due)
      decreases left
    {
      ghost var one := Member(left);
      var p :| p in left;
      var needed, movement := Reconciliation(ps, placed, branches, p);
      if needed {
        if Reconcile(p) in placed {
          return ms, true;
        }
        OneMoreProduct(ps, placed, branches, due, p);
        after, due := after[Reconcile(p) := movement], due + {p};
      }
      left := left - {p};
    }
    assert due == Due(ps, placed);
  }
}

/** The after-flush listener that flips the claim to COMMITTED inside the business transaction. */
module CommitMarker {
  import opened Options
  import opened KeyRow

  /** An object of the session: its class name, its primary key once assigned, and whether it has a
      tenant_id attribute. */
  datatype Entity = Entity(kind: string, id: Option<string>, tenantOwned: bool)

  predicate IsReportable(e: Entity) {
    e.kind != "IdempotencyRecord" && e.tenantOwned && e.id.Some?
  }

  /** The resource a response-lost replay will name: the handler's preferred one, else the first
      reportable new object. */
  function Chosen(preferred: Option<Entity>, added: seq<Entity>): Option<Resource> {
    if preferred.Some? && preferred.value.id.Some? then
      Some(Resource(preferred.value.kind, preferred.value.id.value))
    else FirstReportable(added)
  }

  function FirstReportable(added: seq<Entity>): (r: Option<Resource>)
    ensures r.None? <==> forall e :: e in added ==> !IsReportable(e)
    ensures r.Some? ==> exists i :: 0 <= i < |added| && IsReportable(added[i]) &&
                                    r.value == Resource(added[i].kind, added[i].id.value) &&
                                    forall j :: 0 <= j < i ==> !IsReportable(added[j])
  {
    if added == [] then None
    else if IsReportable(added[0]) then Some(Resource(added[0].kind, added[0].id.value))
    else
      var rest := FirstReportable(added[1..]);
      assert rest.Some? ==> exists i {:trigger added[i]} :: 1 <= i < |added| && IsReportable(added[i]) &&
                                  rest.value == Resource(added[i].kind, added[i].id.value) &&
                                  forall j :: 0 <= j < i ==> !IsReportable(added[j]) by {
        if rest.Some? {
          var i :| 0 <= i < |added[1..]| && IsReportable(added[1..][i]) &&
                   rest.value == Resource(added[1..][i].kind, added[1..][i].id.value) &&
                   forall j :: 0 <= j < i ==> !IsReportable(added[1..][j]);
          assert added[i + 1] == added[1..][i];
          forall j | 0 <= j < i + 1 ensures !IsReportable(added[j]) {
            assert j > 0 ==> added[j] == added[1..][j - 1];
          }
        }
      }
      rest
  }

  /** The resource names the first new object that is no claim record and has a tenant_id and a primary key. */
  ghost predicate IsFirstReportable(added: seq<Entity>, resource: Option<Resource>) {
    match resource
    case None => forall e :: e in added && e.kind != "IdempotencyRecord" && e.tenantOwned ==> e.id.None?
    case Some(named) =>
      exists i :: 0 <= i < |added| && added[i] == Entity(named.kind, Some(named.id), true) &&
                  named.kind != "IdempotencyRecord" &&
                  forall e :: e in added[..i] && e.kind != "IdempotencyRecord" && e.tenantOwned ==> e.id.None?
  }

  lemma FirstReportableIsFirst(added: seq<Entity>)
    ensures IsFirstReportable(added, FirstReportable(added))
  {
    var r := FirstReportable(added);
    if r.Some? {
      var i :| 0 <= i < |added| && IsReportable(added[i]) &&
               r.value == Resource(added[i].kind, added[i].id.value) &&
               forall j :: 0 <= j < i ==> !IsReportable(added[j]);
      assert added[i] == Entity(r.value.kind, Some(r.value.id), true);
    } else {
      assert forall e :: e in added ==> !IsReportable(e);
    }
  }

  method ChooseResource(preferred: Option<Entity>, added: seq<Entity>) returns (resource: Option<Resource>)
    ensures resource == Chosen(preferred, added)
    ensures preferred.Some? && preferred.value.id.Some? ==>
              resource == Some(Resource(preferred.value.kind, preferred.value.id.value))
    ensures preferred.None? || preferred.value.id.None? ==> IsFirstReportable(added, resource)
  {
    FirstReportableIsFirst(added);
    resource := None;
    if preferred.Some? && preferred.value.id.Some? {
      resource := Some(Resource(preferred.value.kind, preferred.value.id.value));
    }
    if resource.None? {
      for i := 0 to |added|
        invariant resource.None?
        invariant FirstReportable(added) == FirstReportable(added[i..])
      {
        if added[i].kind == "IdempotencyRecord" {
          continue;
        }
        if added[i].tenantOwned && added[i].id.Some? {
          resource := Some(Resource(added[i].kind, added[i].id.value));
          return;
        }
      }
    }
  }

  /** The ORM session of a business transaction, as far as the listener sees it. */
  class BusinessSession {
    var marked: bool
    var deferred: bool
    var preferred: Option<Entity>
    var added: seq<Entity>

    constructor (deferred: bool, preferred: Option<Entity>, added: seq<Entity>)
      ensures !marked && this.deferred == deferred && this.preferred == preferred && this.added == added
    {
      marked := false;
      this.deferred, this.preferred, this.added := deferred, preferred, added;
    }

    /** `lost`: the claim is gone and IdempotencyClaimLostError aborts the transaction. A session
        marks at most once, and not while a direct edit defers the mark. */
    method AfterFlush(keys: KeyTable, claim: Option<ClaimKey>, postgres: bool) returns (lost: bool)
      requires keys as object != this
      modifies this`marked, keys
      ensures var fires := claim.Some? && postgres && !old(marked) && !deferred;
              if !fires then !lost && marked == old(marked) && keys.rows == old(keys.rows)
              else
                && (lost <==> claim.value !in old(keys.rows))
                && (marked <==> !lost)
                && keys.rows == PutRow(old(keys.rows), claim.value,
                                       Mark(RowAt(old(keys.rows), claim.value), Chosen(preferred, added)))
    {
      lost := false;
      if claim.None? || !postgres || marked || deferred {
        return;
      }
      var resource := ChooseResource(preferred, added);
      var count := keys.MarkCommitted(claim.value, resource);
      if count == 0 {
        lost := true;
        return;
      }
      marked := true;
    }
  }
}

/** One row of idempotency_keys and the SQL statements that touch it, as functions of the row.

    The table is unique on (idempotency_key, tenant_id, method, path), so every statement of the
    middleware and of the commit marker reads or writes at most one row. `None` is "no such row". */
module KeyRow {
  import opened Options

  /** SHA-256 of the request body; the model treats equal hashes as equal payloads. */
  type Hash = int

  datatype ClaimKey = ClaimKey(key: string, tenant: int, verb: string, path: string)

  datatype Status = Processing | Committed | Completed

  datatype Resource = Resource(kind: string, id: string)

  /** A response as the middleware stores it: status, decoded text and content type column. */
  datatype Response = Response(status: int, body: string, contentType: Option<string>)

  datatype Row = Row(
    id: nat,
    hash: Option<Hash>,
    createdAt: int,
    status: Status,
    response: Option<Response>,
    resource: Option<Resource>)

  /** What a request that lost the insert decides after reading the row. */
  datatype Verdict =
    | StaleClaim
    | InProgress
    | Mismatch
    | ReplayStored(response: Response)
    | ReplayCommitted(resource: Option<Resource>)

  /** INSERT ... ON CONFLICT DO NOTHING. */
  function Insert(row: Option<Row>, id: nat, hash: Hash, now: int): Option<Row> {
    if row.Some? then row else Some(Row(id, Some(hash), now, Processing, None, None))
  }

  /** DELETE ... AND status='PROCESSING': the takeover and the exception clean-up. */
  function DeleteProcessing(row: Option<Row>): Option<Row> {
    if row.Some? && row.value.status == Processing then None else row
  }

  /** The commit marker: UPDATE ... SET status='COMMITTED', by key alone. */
  function Mark(row: Option<Row>, resource: Option<Resource>): Option<Row> {
    if row.None? then None
    else Some(row.value.(status := Committed,
                         resource := if resource.Some? then resource else row.value.resource))
  }

  /** What follows the handler's answer: a 5xx deletes the row whatever its status, anything else
      stores the response, both by key alone. */
  function Settle(row: Option<Row>, response: Response): Option<Row> {
    if response.status >= 500 || row.None? then None
    else Some(row.value.(status := Completed, response := Some(response)))
  }

  function Inspect(row: Option<Row>, hash: Hash, now: int, stale: nat): Verdict {
    if row.Some? && row.value.status == Processing then
      if now - row.value.createdAt > stale then StaleClaim else InProgress
    else if row.Some? && row.value.hash.Some? && row.value.hash.value != hash then Mismatch
    else if row.Some? && row.value.status == Committed then
      if row.value.response.Some? then ReplayStored(row.value.response.value)
      else ReplayCommitted(row.value.resource)
    else if row.Some? && row.value.status == Completed && row.value.response.Some? then
      ReplayStored(row.value.response.value)
    else InProgress
  }

  function RowAt(rows: map<ClaimKey, Row>, k: ClaimKey): Option<Row> {
    if k in rows then Some(rows[k]) else None
  }

  function PutRow(rows: map<ClaimKey, Row>, k: ClaimKey, row: Option<Row>): map<ClaimKey, Row> {
    if row.Some? then rows[k := row.value] else rows - {k}
  }

  /** The idempotency_keys table. Each statement touches the row of one key and no other. */
  class KeyTable {
    var rows: map<ClaimKey, Row>

    constructor ()
      ensures rows == map[]
    {
      rows := map[];
    }

    method InsertClaim(k: ClaimKey, id: nat, hash: Hash, now: int) returns (inserted: bool)
      modifies this
      ensures inserted == (k !in old(rows))
      ensures rows == PutRow(old(rows), k, Insert(RowAt(old(rows), k), id, hash, now))
      ensures rows == if inserted then old(rows)[k := Row(id, Some(hash), now, Processing, None, None)] else old(rows)
    {
      inserted := k !in rows;
      if inserted {
        rows := rows[k := Row(id, Some(hash), now, Processing, None, None)];
      }
    }

    method DeleteIfProcessing(k: ClaimKey)
      modifies this
      ensures rows == PutRow(old(rows), k, DeleteProcessing(RowAt(old(rows), k)))
      ensures forall j :: j in rows <==> j in old(rows) && (j == k ==> old(rows)[k].status != Processing)
      ensures forall j :: j in rows ==> rows[j] == old(rows)[j]
    {
      if k in rows && rows[k].status == Processing {
        rows := rows - {k};
      }
    }

    method MarkCommitted(k: ClaimKey, resource: Option<Resource>) returns (count: nat)
      modifies this
      ensures count == if k in old(rows) then 1 else 0
      ensures rows == PutRow(old(rows), k, Mark(RowAt(old(rows), k), resource))
      ensures rows.Keys == old(rows).Keys && forall j :: j in rows && j != k ==> rows[j] == old(rows)[j]
      ensures k in rows ==>
                var was := old(rows)[k];
                rows[k] == Row(was.id, was.hash, was.createdAt, Committed, was.response,
                               if resource.Some? then resource else was.resource)
    {
      count := 0;
      if k in rows {
        var row := rows[k];
        rows := rows[k := row.(status := Committed,
                               resource := if resource.Some? then resource else row.resource)];
        count := 1;
      }
    }

    method StoreOutcome(k: ClaimKey, response: Response)
      modifies this
      ensures rows == PutRow(old(rows), k, Settle(RowAt(old(rows), k), response))
      ensures forall j :: j in rows <==> j in old(rows) && (j == k ==> response.status < 500)
      ensures forall j :: j in rows && j != k ==> rows[j] == old(rows)[j]
      ensures k in rows ==>
                var was := old(rows)[k];
                rows[k] == Row(was.id, was.hash, was.createdAt, Completed, Some(response), was.resource)
    {
      if response.status >= 500 {
        rows := rows - {k};
      } else if k in rows {
        rows := rows[k := rows[k].(status := Completed, response := Some(response))];
      }
    }
  }
}

# Verification of the bookkeeping core

A Dafny 4.11 model of the two places where this system must not be wrong about money, and of five
smaller algorithms around them. `dafny verify dfyconfig.toml` checks everything.

* **The idempotency protocol.** A financial request claims a row keyed by (key, tenant, method, path),
  its business transaction flips that row to COMMITTED in the same commit as its effect, and the
  response is stored afterwards. `KeyRow` has the SQL statements on the row, `CommitMarker` the
  after-flush listener, `Middleware` the dispatch of one request, `Protocol` the interleaving of any
  number of requests, one SQL transaction at a time, with crashes anywhere. `Accounting` holds what
  every run keeps, `Fenced` what runs keep in which no execution outlives its claim, `Settled` the exact
  condition for the unfenced case, `Unfenced` the runs that break the promise, `Replay` the bodies.
* **The double-entry ledger under triggers and row-level security.** `LedgerRows` has the tables, the
  policies, the BEFORE guards, the foreign keys and the deferred balance queue; `LedgerSession` the
  trigger bodies and a connection, step by step; `Tenancy`, `JournalBalance` and `LedgerHistory` what
  whole runs of transactions keep; `JournalConcurrency` the same under concurrent snapshots;
  `Hardening` the installation of policies and triggers in the catalog; `LedgerAcceptance` what the
  database lets through, table by table, and `LedgerGaps` the committed transactions it should not.
* **Around them.** `AllocationMigration`, `StockReconciliation`, `Backfill`, `Subscription`,
  `PaymentNumbers`.

Each algorithm that the code runs by updating state is a class or method with its state as fields, proved
equal to a specification function; the theorems are about those functions and about runs of them.

## What fails, and exactly when

* *At most one execution per key commits* is false of the code without fencing. The commit mark and the
  5xx DELETE address the row by key alone, so an execution slower than the stale window can commit onto, or
  delete, the row of the execution that took over, and a 5xx answer after a commit deletes the commit's own
  row; `Unfenced` has a run for each. `Settled.AtMostOneCommitIff` is the exact condition: from a state on,
  no continuation sees two commits if and only if there is at most one so far, the row is past PROCESSING,
  no handler is running and no 5xx answer is pending. `Fenced.AtMostOneCommit` is the guarantee with these
  three statements fenced; the takeover and clean-up DELETEs need no fence, and storing an answer below 500
  needs one only for *a replay never changes* (`Fenced.ReplayIsStable`; the run without it is
  `Unfenced.OutlivedClaimOverwritesAnswer`). The comment in `config.py` that the timeout "only re-runs
  requests that provably never committed" is right about the moment of the takeover
  (`Accounting.TakeoverNeverDiscardsCommit`) and not about what the slow execution does later.
* *A 503 means the request was not executed* is false after a takeover: the new dispatch runs inside the
  `try` block of the first, which answers an exception of the handler with that text. Absent infrastructure
  failures, a lone request gets it if and only if the row it met was a stale PROCESSING one and its handler
  raised, so only after an execution, which may have committed (`Middleware.UnavailableIff`).
* *A replay shows the original response* is false for a body stored without a content type, which is
  replayed as JSON (`Replay.UntypedTextIsNotReplayed`), and for a malformed JSON body, which answers 503
  (`Replay.MalformedJsonIsNotReplayed`); exactly when it holds is `Replay.ReplayShowsOriginalIff`.
* *A payment without a number is an exact re-import* is false: two equal instalments of one transaction are
  two payments, but once the first is flushed under their common base, the lookup takes the second for a
  re-import of it, and it is dropped (`PaymentNumbers.EqualInstalmentIsDropped`). The unit tests expect a
  suffixed number there, with a database that has not seen the first. `PaymentNumbers.DroppedIff` reads the
  dropped payments off the import; `PaymentNumbers.OnlyReimportsDroppedIff` is the exact condition.
* *Journal entries are append-only* is false of `created_at`, which the guard does not compare, and of the
  facts of an unlocked entry: `LedgerGaps.CreatedAtIsRewritten` and `LedgerGaps.UnlockedFactsAreRewritten`
  are transactions that commit. `LedgerHistory.UpdateAppendsOnlyIff` is the exact condition for one
  UPDATE; `LedgerHistory.EntryIsAppendOnlyIff` says that over any run these columns are all that can
  differ, and `LedgerHistory.EntryIsAppendOnlyUnlessRewritten` reads it off the statements of the run.
* *Stock movements are never updated* is true of every column but the primary key, which the guard does
  not compare (`LedgerGaps.MovementIsRenamed`); `LedgerHistory.MovementIdKeptIff` and, over runs,
  `LedgerHistory.StockIsAppendOnly`.
* *The migration establishes tenant agreement or aborts* holds only where the tenant_id column was not
  there yet; a table that already has it is not checked (`AllocationMigration.CrossTenantLinkSurvives`).
  `AllocationMigration.Upgrade` says exactly when, per table.

## Model

| member | source | states |
|---|---|---|
| KeyRow.KeyTable.InsertClaim | backend/src/api/idempotency_middleware.py:179-197 | the claim is inserted exactly when no row has the key; an existing row is left alone, and no other key's row changes |
| KeyRow.KeyTable.DeleteIfProcessing | backend/src/api/idempotency_middleware.py:311-324 | only a PROCESSING row of this key goes |
| KeyRow.KeyTable.MarkCommitted | backend/src/core/idempotency.py:77-95 | whatever row the key has becomes COMMITTED, keeping all else and an earlier resource if none is named; the row count tells whether there was one |
| KeyRow.KeyTable.StoreOutcome | backend/src/api/idempotency_middleware.py:343-380 | a 5xx removes the row in any status, any other answer makes it COMPLETED with the response |
| CommitMarker.FirstReportable | backend/src/core/idempotency.py:65-75 | the earliest new object that is tenant-owned, has a primary key and is not the claim record; none exactly if there is none |
| CommitMarker.ChooseResource | backend/src/core/idempotency.py:56-75 | the preferred resource if it has a key, whatever it is; otherwise the first new object that is no claim record and has a tenant and a key, and none exactly if there is none |
| CommitMarker.BusinessSession.AfterFlush | backend/src/core/idempotency.py:36-100 | the claim is marked at most once per session, not while deferred; the transaction is aborted exactly when the claim is gone |
| Middleware.IdempotencyMiddleware.CallNext | backend/src/api/idempotency_middleware.py:304-305 | the handler's commit changes the key row exactly as the marker does, and no other row |
| Middleware.IdempotencyMiddleware.Dispatch | backend/src/api/idempotency_middleware.py:174-393 | claim, takeover with re-dispatch, clean-up and settling compute the specification Alone, and touch no other key |
| Middleware.LoneRequestExecutesIff | backend/src/api/idempotency_middleware.py:199-281 | the handler runs exactly when there is no row or a stale PROCESSING one, even one of another payload |
| Middleware.LoneRequestConflictsIff | backend/src/api/idempotency_middleware.py:216-278 | 409 exactly inside the stale window or on a COMPLETED row of the payload without a response, 422 exactly for another payload on a finished row, else execution or replay |
| Middleware.RetryExecutesAgainIff | backend/src/api/idempotency_middleware.py:304-380 | a retry executes again exactly after a 5xx answer or an exception without commit; otherwise it replays the answer or names the committed resource |
| Middleware.UnavailableIff | backend/src/api/idempotency_middleware.py:235-300 | absent infrastructure failures, 503 is answered exactly to a takeover whose handler raised, so only to a request that was executed |
| Middleware.LoneDispatchIsRun | backend/src/api/idempotency_middleware.py:174-393 | the sequential dispatch is a run of the interleaving protocol with the same row and answer, a 503 being an exception after a takeover |
| Middleware.NoWedgedKey | backend/src/api/idempotency_middleware.py:216-281 | from any reachable state a lone request gets 409 only inside the stale window, and with the row's payload otherwise executes or replays |
| Protocol.AnythingMayHappen | backend/src/api/idempotency_middleware.py:174-393 | each request may take its next step or die at any time, the row staying as it is |
| Accounting.ReachableIsConsistent | backend/src/api/idempotency_middleware.py:178-380 | in every reachable state: the execution count, COMPLETED carries a response, PROCESSING means no commit since the insert, takeover times |
| Accounting.ExecutionConservation | backend/src/api/idempotency_middleware.py:178-235 | executions started = effective row deletions + rows present; commits <= 1 + deletions - executions that ended uncommitted; no fencing assumed |
| Accounting.TakeoverNeverDiscardsCommit | backend/src/core/config.py:131-136 | neither the takeover nor the clean-up DELETE ever removes a row since whose insertion something committed |
| Accounting.TakeoverDepthIsBounded | backend/src/api/idempotency_middleware.py:216-235 | a request re-dispatched d times is at least (d - 1) stale windows old, strictly more from two on |
| Fenced.StepKeepsCommittedOnce | backend/src/core/idempotency.py:77-100 | with the commit mark and the 5xx DELETE fenced, every step keeps all commits recorded on the present row by the execution that claimed it, and after a commit adds none and starts no execution |
| Fenced.CommittedRun | backend/src/api/idempotency_middleware.py:199-281 | after a commit no later request of such a run starts an execution |
| Fenced.AtMostOneCommit | backend/src/core/idempotency.py:1-7 | in every run with these statements fenced at most one execution commits, a PROCESSING row means none has, and after it the executions are fixed for good |
| Fenced.StepKeepsOnce | backend/src/api/idempotency_middleware.py:357-380 | with every answer fenced, a COMPLETED row holds the very answer that its execution sent |
| Fenced.WhenFinal | backend/src/api/idempotency_middleware.py:260-270 | a stored response, or a commit whose process died, is final |
| Fenced.FinalRun | backend/src/api/idempotency_middleware.py:244-270 | a final row never changes, and every answer given from it is the one its payload hash decides |
| Fenced.ReplayIsStable | backend/src/api/idempotency_middleware.py:244-270 | every later answer to the same payload is the response the one execution sent, and any other payload gets 422 |
| Settled.SettledRun | backend/src/api/idempotency_middleware.py:178-380 | a settled key stays settled and gains neither commits nor executions, with no fencing |
| Settled.NoFurtherCommitIffSettled | backend/src/api/idempotency_middleware.py:216-380 | no continuation whatever commits again if and only if the state is settled |
| Settled.AtMostOneCommitIff | backend/src/core/idempotency.py:1-7 | every continuation keeps to at most one commit if and only if the state is settled with at most one; from any other, two executions can still commit |
| Unfenced.OutlivedClaimCommitsTwice | backend/src/core/idempotency.py:77-94 | a run, unfenced at one commit mark on a foreign row, in which two executions commit |
| Unfenced.OutlivedClaimDeletesCommit | backend/src/api/idempotency_middleware.py:343-356 | a run, unfenced at one 5xx DELETE of a foreign row, in which two executions commit |
| Unfenced.ServerErrorAfterCommitReexecutes | backend/src/api/idempotency_middleware.py:343-356 | a run, unfenced at one 5xx answer after a commit, in which two executions commit |
| Unfenced.OutlivedClaimOverwritesAnswer | backend/src/api/idempotency_middleware.py:357-380 | a run, unfenced only where an answer is stored over a foreign row, in which the same payload is answered in two ways |
| Replay.ReplayShowsOriginalIff | backend/src/api/idempotency_middleware.py:88-113 | the replay shows the original status and body if and only if there is no body to show or a content type under which JSON parses |
| Replay.ReplayIs | backend/src/api/idempotency_middleware.py:88-113 | nothing under 204 or for an empty body, the stored text under its own type, or the value reserialised as JSON |
| Replay.IsJsonIff | backend/src/api/idempotency_middleware.py:103 | JSON is any content type that contains application/json |
| Replay.UntypedTextIsNotReplayed | backend/src/api/idempotency_middleware.py:91-113 | a text stored without a content type is never shown again as that text |
| Replay.MalformedJsonIsNotReplayed | backend/src/api/idempotency_middleware.py:103-108 | a JSON body that does not parse is not replayed |
| LedgerSession.ChildTenantMatchesParent | backend/src/core/postgres_hardening.py:96-124 | raises unless the child has a tenant and its parent, an entry for a line and the header of its own kind for a detail row, exists with that tenant |
| LedgerSession.AllocationTenantMatchesParents | backend/src/core/postgres_hardening.py:184-220 | raises unless payment and document both exist with the allocation's tenant |
| LedgerSession.GuardJournalEntriesUpdate | backend/src/core/postgres_hardening.py:272-306 | raises exactly on a lock change, or on a locked entry on any change but of the linkage and of created_at |
| LedgerSession.GuardStockLedgerUpdate | backend/src/core/postgres_hardening.py:355-383 | raises exactly on any change but of the reversal linkage |
| LedgerSession.FireDeleteGuard | backend/src/core/postgres_hardening.py:307-354 | ledger rows may go only under a purge flag naming their own tenant |
| LedgerSession.Connection.AfterBegin | backend/src/core/database.py:66-83 | every transaction starts as the request's tenant, or as nobody, with no purge flag |
| LedgerSession.Connection.SetDbTenantContext | backend/src/core/database.py:20-32 | binds the tenant for the request and for the transaction already open |
| LedgerSession.Connection.Execute | backend/src/core/postgres_hardening.py:61-81 | a statement takes effect exactly as the policies, triggers and keys specify, or raises and changes nothing |
| LedgerSession.Connection.CommitTransaction | backend/src/core/postgres_hardening.py:596-615 | the queued entries are all checked, and the commit happens exactly when all pass |
| LedgerSession.Connection.RunTransaction | backend/src/core/database.py:66-97 | a request's transaction leaves the committed database as Transact specifies |
| JournalBalance.ValidateJournalBalance | backend/src/core/postgres_hardening.py:561-592 | raises exactly for an existing entry with fewer than two lines or unequal sides |
| JournalBalance.ExecQueuesChanges | backend/src/core/postgres_hardening.py:569-573 | a statement changes an entry's lines or creates its header only by queueing that entry, though the queue takes one entry per row |
| JournalBalance.TransactKeepsBalance | backend/src/core/postgres_hardening.py:561-615 | no transaction, purges included, commits an unbalanced entry |
| JournalBalance.CommittedHistoryBalances | backend/src/core/postgres_hardening.py:561-615 | over any run of transactions every committed entry stays balanced |
| JournalBalance.PartialPurgeAborts | backend/src/core/postgres_hardening.py:338-354 | a purge that leaves an entry behind unbalanced does not commit |
| JournalBalance.TrialBalanceIsZero | backend/src/core/postgres_hardening.py:577-586 | debits minus credits over a tenant's accounts sum to zero, by exchanging accounts for entries |
| JournalBalance.AccountBalanceIs | backend/src/core/postgres_hardening.py:577-586 | an account's balance is its debit total less its credit total, over its tenant's lines |
| JournalBalance.CommittedTrialBalanceIsZero | backend/src/core/postgres_hardening.py:561-615 | the same in every committed state reached from an empty ledger |
| JournalConcurrency.AddedIsBalanced | backend/src/core/postgres_hardening.py:574-586 | what a transaction adds to an entry is balanced by itself, by the check whose two queries see two snapshots |
| JournalConcurrency.CommitKeepsBalance | backend/src/core/postgres_hardening.py:596-615 | a check passed over older snapshots still leaves the entry balanced in the newer state |
| JournalConcurrency.StepKeepsSound | backend/src/core/postgres_hardening.py:270-400 | every step of every interleaving keeps balance, tenant agreement of all children and allocations, lines, and the guarded columns of entries and stock movements |
| JournalConcurrency.DoubleEntrySurvivesWriteSkew | backend/src/core/postgres_hardening.py:561-615 | in every purge-free interleaving of postings each committed state balances and agrees on tenants, every trial balance is zero, and earlier rows persist with their tenant, lines unchanged, entries and movements with all that their guards protect |
| JournalConcurrency.AnySnapshotWillDo | backend/src/core/postgres_hardening.py:596-615 | no statement or check is made to see more than the transaction has seen |
| JournalConcurrency.UninterruptedIsTransact | backend/src/core/postgres_hardening.py:596-615 | a transaction that nothing interrupts leaves the committed state of the serial specification, whatever else is open |
| Tenancy.TenantFrame | backend/src/core/postgres_hardening.py:61-81 | transactions that never run as a tenant leave all its rows untouched; under no context, nobody's rows change |
| Tenancy.ExecKeepsAgreement | backend/src/core/postgres_hardening.py:96-137 | one statement keeps every child's tenant equal to its parents', triggers and policy together |
| Tenancy.TenantAgreement | backend/src/core/postgres_hardening.py:37-233 | over any run of the restricted role every line, detail row and allocation keeps the tenant of its parents, each taken from its own table |
| Tenancy.MatchesParentsIff | backend/src/core/postgres_hardening.py:37-52 | the trigger condition, table by table: which parent, by which column, with which tenant |
| LedgerAcceptance.VisibleIff | backend/src/core/postgres_hardening.py:16-34 | the tables and tenants a session sees and writes |
| LedgerAcceptance.InsertSucceedsIff | backend/src/core/postgres_hardening.py:61-137 | an INSERT into an owned table succeeds exactly for a new, well-formed row of the session's tenant under parents of that tenant |
| LedgerAcceptance.EntryUpdateSucceedsIff | backend/src/core/postgres_hardening.py:147-154 | an UPDATE of an entry succeeds exactly if it changes only the unguarded columns and, unlocked, the facts |
| LedgerAcceptance.MovementUpdateSucceedsIff | backend/src/core/postgres_hardening.py:158-162 | one of a stock movement exactly if it changes only the reversal linkage |
| LedgerAcceptance.OtherUpdateSucceedsIff | backend/src/core/postgres_hardening.py:96-137 | none of a line or an audit row, and of other owned rows exactly those that keep the tenant and name parents of it |
| LedgerAcceptance.LedgerDeleteSucceedsIff | backend/src/core/postgres_hardening.py:307-400 | a ledger row goes exactly under a purge flag naming its tenant and, for an entry, once its lines are gone |
| LedgerAcceptance.LinkageUpdateCommits | backend/src/api/v1/accounting.py:433-438 | a posted entry can be marked reversed by a transaction of its tenant |
| LedgerAcceptance.MovementLinkageUpdateCommits | backend/src/core/postgres_hardening.py:158-162 | so can a stock movement |
| LedgerAcceptance.PostingCommitsIff | backend/src/core/postgres_hardening.py:561-615 | a posting of any lines commits if and only if there are two or more, all positive, with equal sides; then exactly it is added, and otherwise nothing |
| LedgerAcceptance.PurgeCommitsIff | backend/src/core/postgres_hardening.py:258-267 | a purge of a tenant's whole ledger commits if and only if the flag names that tenant, and then exactly its ledger rows are gone |
| LedgerHistory.JournalIsAppendOnly | backend/src/core/postgres_hardening.py:236-354 | for a tenant never flagged for purging, committed lines persist unchanged and entries keep owner, lock state and, once locked, all guarded columns, whatever else is purged |
| LedgerHistory.UpdateAppendsOnlyIff | backend/src/core/postgres_hardening.py:272-306 | an UPDATE that the guard lets through changes the linkage only if and only if it keeps created_at and, unlocked, the facts |
| LedgerHistory.EntryIsAppendOnlyIff | backend/src/core/postgres_hardening.py:239-246 | over any run a committed entry stays, and differs in its linkage only if and only if created_at and, unlocked, the facts are the same |
| LedgerHistory.EntryIsAppendOnlyUnlessRewritten | backend/src/core/postgres_hardening.py:239-246 | unless a statement of the run sets one of those columns to another value, the entry keeps everything but its linkage |
| LedgerGaps.CreatedAtIsRewritten | backend/src/core/postgres_hardening.py:284-296 | a transaction that commits another created_at on a locked entry |
| LedgerGaps.UnlockedFactsAreRewritten | backend/src/core/postgres_hardening.py:279-283 | a transaction that commits another description on an unlocked entry |
| LedgerGaps.MovementIsRenamed | backend/src/core/postgres_hardening.py:358-378 | a transaction that commits another id for a stock movement |
| LedgerHistory.StockIsAppendOnly | backend/src/core/postgres_hardening.py:355-400 | every movement of such a tenant persists with all guarded columns, up to an injective change of ids |
| LedgerHistory.MovementIdKeptIff | backend/src/core/postgres_hardening.py:358-378 | a statement leaves a movement under its id exactly if it is not an UPDATE of that id by its owner |
| Hardening.Catalog.IsolateTables | backend/src/core/postgres_hardening.py:509-529 | the loop isolates every table with tenant_id and frees the exempt one, in any listing order |
| Hardening.Catalog.HardenChildTables | backend/src/core/postgres_hardening.py:84-137 | every child table with tenant_id gets its policy and its tenant trigger |
| Hardening.Catalog.ApplyPostgresHardening | backend/src/core/postgres_hardening.py:504-639 | raises and changes nothing exactly if a table named unconditionally is missing; otherwise the result is Hardened of the catalog, independent of the listing order |
| Hardening.HardenedIsPointwise | backend/src/core/postgres_hardening.py:504-534 | the passes one after the other are one transformation of each table |
| Hardening.HardeningIsIdempotent | backend/src/core/postgres_hardening.py:1-6 | hardening twice is hardening once, and it succeeds again where it succeeded |
| Hardening.HardenedPolicy | backend/src/core/postgres_hardening.py:509-529 | on any catalog, forced row security with its kind of policy on exactly the tables with tenant_id that are not exempt, none on the exempt one, and no change to others |
| Hardening.HardenedTableIsolates | backend/src/core/postgres_hardening.py:61-81 | a hardened table with its tenant_id admits exactly the rows the ledger results assume visible |
| Hardening.HardenedTriggersIff | backend/src/core/postgres_hardening.py:84-233 | whatever triggers it had, a table ends with those the ledger results assume, if and only if it had those already whose installer finds its tables or columns missing |
| Hardening.AssumedTriggersAreGuards | backend/src/core/postgres_hardening.py:84-450 | those triggers raise on exactly the updates, deletions and parents that the ledger's guards refuse, and check the tables whose rows are queued |
| AllocationMigration.UpgradeTable | backend/alembic/versions/20260811_0001_harden_payment_allocations.py:55-112 | backfills from the payment side and aborts exactly on an orphaned or mismatched row; skips a table with the column |
| AllocationMigration.UpgradeAgreesOrAborts | backend/alembic/versions/20260811_0001_harden_payment_allocations.py:62-100 | the backfilled table agrees exactly when the upgrade does not abort, it aborts exactly on a missing payment or a cross-tenant link, and no column but tenant_id differs |
| AllocationMigration.Upgrade | backend/alembic/versions/20260811_0001_harden_payment_allocations.py:43-115 | over both tables: abort exactly when an unmigrated table is unresolvable; afterwards each table agrees exactly if it was migrated or agreed before, and nothing but tenant_id of migrated allocations has changed |
| AllocationMigration.CrossTenantLinkSurvives | backend/alembic/versions/20260811_0001_harden_payment_allocations.py:55-60 | a cross-tenant link in a table that has the column neither aborts the upgrade nor is repaired |
| StockReconciliation.AllocationKeepsTotals | backend/alembic/versions/20260714_0007_add_barcode_and_warehouse_stock.py:66-88 | assigning warehouses changes no product's total |
| StockReconciliation.MigratedIs | backend/alembic/versions/20260714_0007_add_barcode_and_warehouse_stock.py:66-126 | a movement without a warehouse gains exactly its tenant's first one, all others stay as they are, and each product due gets one movement of the difference, with the stock as its balance |
| StockReconciliation.CollidesIff | backend/alembic/versions/20260714_0007_add_barcode_and_warehouse_stock.py:93-126 | abort exactly if a product is due whose reconciling id is taken |
| StockReconciliation.MovementTotalIs | backend/alembic/versions/20260714_0007_add_barcode_and_warehouse_stock.py:115-120 | the total is over the movements of the product in its tenant |
| StockReconciliation.FirstWarehouseIff | backend/alembic/versions/20260714_0007_add_barcode_and_warehouse_stock.py:69-76 | the warehouse chosen is the active branch of the tenant before all others by creation and id, and none exactly without any |
| StockReconciliation.ReconciliationIsExact | backend/alembic/versions/20260714_0007_add_barcode_and_warehouse_stock.py:89-126 | live goods end with movements summing exactly to current stock, other totals and all earlier movements stay, a rerun inserts nothing |
| StockReconciliation.Upgrade | backend/alembic/versions/20260714_0007_add_barcode_and_warehouse_stock.py:66-126 | the two data steps compute that state, and abort exactly on a reconciling id already taken |
| Backfill.BackfillRun.AttemptDocument | backend/src/api/v1/backfill.py:85-96 | a failing document's writes are rolled back to its savepoint and only its own counter or error moves |
| Backfill.BackfillRun.BackfillPostings | backend/src/api/v1/backfill.py:98-108 | the four lists are attempted in order, with the counters of the response, and one commit keeps all or nothing |
| Backfill.NothingIsLost | backend/src/api/v1/backfill.py:73-96 | per kind, posted + skipped + errors = documents attempted |
| Backfill.FailuresAreIndependent | backend/src/api/v1/backfill.py:85-96 | a run over the posted documents alone posts them all and ends with the same ledger |
| Backfill.LedgerGainsPosted | backend/src/api/v1/backfill.py:1-13 | existing postings are untouched and the ledger gains exactly the posted documents, each once |
| Backfill.SecondRunPostsNothingTwice | backend/src/api/v1/backfill.py:10-12 | a second run over the committed ledger posts nothing the first run posted or skipped |
| Backfill.HelpersPostIfMissing | backend/src/domains/accounting/backfill_posting.py:81-270 | the helpers meet their documented contract, and every entry they add is balanced |
| Backfill.PostedExactlyIf | backend/src/domains/accounting/backfill_posting.py:81-126 | a document is refused exactly if it has no positive total or is posted already, and is posted, with its lines rounded to cents, exactly if these are two or more, positive and balanced |
| Backfill.QuantizedIsNearest | backend/src/domains/accounting/services.py:20 | an amount becomes the nearest cent, of two equally near the even one |
| Backfill.TotalGrows | backend/src/domains/accounting/services.py:49-50 | a side's total counts each line of that side with its amount |
| Backfill.ErrorsWereRaised | backend/src/api/v1/backfill.py:95-96 | each reported error is a message its document's helper raised |
| Backfill.PostedIsBalanced | backend/src/domains/accounting/services.py:44-57 | every entry a batch has added passes the deferred check |
| Backfill.BatchIsKept | backend/src/api/v1/backfill.py:10-12 | the commit keeps the batch, and the ledger is the one of a run over the posted documents alone |
| Subscription.TenantSubscription.RequireActive | backend/src/core/subscription_guard.py:51-91 | one request's verdict and new record; the row is written exactly when the status moves |
| Subscription.RequireActiveSubscription | backend/src/core/subscription_guard.py:36-91 | a tenant without a record passes, any other as its record says |
| Subscription.GuardIsClosedForm | backend/src/core/subscription_guard.py:65-91 | the lazily advanced guard equals a closed form of the request times: pass to T, refuse the first after at f, pass to f + g, refuse after |
| Subscription.RecordIsClosedForm | backend/src/core/subscription_guard.py:65-89 | the record a run leaves: past due to f + g, suspended after, both period ends at f + g |
| Subscription.SettledRecord | backend/src/core/subscription_guard.py:51-63 | suspended tenants are refused, cancelled ones from the end of the paid period, all others passed, and their records stay |
| Subscription.StatusOnlyAdvances | backend/src/core/subscription_guard.py:51-91 | the status only moves forward, one write per move, at most two over any run |
| PaymentNumbers.CandidatesDiffer | backend/src/common/import_normalization.py:45-49 | no two candidates of a base coincide |
| PaymentNumbers.CandidatesAreSuffixed | backend/src/common/import_normalization.py:45-49 | the candidates are the base, base-2, base-3 and so on |
| PaymentNumbers.FirstFreeIsFirst | backend/src/common/import_normalization.py:45-49 | the search ends at a free candidate with all earlier ones busy |
| PaymentNumbers.ImportRun.NextPaymentNumber | backend/src/common/import_normalization.py:22-51 | the loop returns the first free candidate and records it, or None exactly for an exact re-import |
| PaymentNumbers.ImportRun.ImportPayments | backend/src/api/v1/vyapar_import.py:1206-1288 | each payment is flushed under its number before the next lookup, for both payment tables |
| PaymentNumbers.NumbersAreFreshAndDistinct | backend/src/common/import_normalization.py:29-41 | over a whole import the numbers are pairwise distinct and new to database and run, and none is given exactly for a payment stored before or one equal to the holder of its base in this run |
| PaymentNumbers.EqualInstalmentIsDropped | backend/src/api/v1/vyapar_import.py:1236-1258 | the second of two equal instalments of one transaction gets no number |
| PaymentNumbers.DroppedIff | backend/src/common/import_normalization.py:34-41 | read off the import alone: dropped are the re-imports and exactly the payments equal to the first of their base |
| PaymentNumbers.OnlyReimportsDroppedIff | backend/src/common/import_normalization.py:34-41 | an import drops re-imports only if and only if no payment equals the first of its base |
| PaymentNumbers.TransactionBasesAreUnrelated | backend/src/api/v1/vyapar_import.py:1236-1242 | bases made of transaction ids meet what the two conditions assume of an import |

## Assumptions

* The clock of the protocol is one monotone clock, and `created_at` is the moment of the insertion. SHA-256
  is taken as injective; so is the md5 id of a reconciling movement.
* A business transaction flushes, so the marker runs, and a session is not rolled back after marking and
  then committed: mark and effect are published together or not at all.
* A SET list that names a tenant or parent column without changing it fires a trigger in PostgreSQL and
  not in the model; the model then allows strictly more statements.
* Row facts come from the baseline schema: positive line amounts
  (backend/alembic/versions/20260811_0000_squashed_baseline.py:2054), the line-to-entry foreign key (:5367)
  without cascade, and uniqueness of the idempotency key (:3546).
* What a posting helper drafts for a document, or its failure to resolve an account, is a parameter; the checks
  on the draft, the rounding to cents and the flush are modelled. An amount has at most four decimals.
* An imported payment is flushed with the amount its number was asked for.

## Left out

* The guards of `dispatch` before the claim: methods, purge routes, missing or malformed headers, the
  table of mandatory paths. Finite tables that add only easy members.
* Middleware.IdempotencyMiddleware.Dispatch: does not model infrastructure failures answered 503, which no
  property here needs (the 503 of a handler after a takeover is modelled): a request that fails before claiming is one that goes away in the
  protocol, and after its claim one that crashes. Whether "not executed" is true of a 503 is not claimed.
* gzip, streaming, response headers and the decoding of bytes; a failure to store a response is a crash.
* Transactions concurrent with a purge, or with the deletion or re-keying of rows other than journal rows: the
  snapshot results are for postings, which insert and update, the others for transactions one after the other.
* Primary-key updates apart from the statement Rekey, multi-row statements as such (they are sequences),
  numeric overflow of totals, foreign keys other than child to parent and allocation to its two parents.
* Roles that bypass row-level security: the migration role can move a header's tenant, so tenant agreement
  is a statement about the restricted role.
* Hardening.Catalog.ApplyPostgresHardening: does not model the unique indexes, the bodies of the functions
  and the tenant enumerator as catalog objects, only that they need their tables.
* The duplicate-transfer renaming and the barcode columns of the stock migration, `downgrade` of both.
* `require_feature`, `check_usage_limit` and `normalize_hsn_sac`: single lookups and string clean-up.
* The posting engine, the purge service, the importers around `next_payment_number`, and the rest of the API.

/** Committed transactions that the guards let through although history is said to be append-only. */
module LedgerGaps {
  import opened Options
  import opened FiniteSums
  import opened LedgerRows
  import opened Tenancy
  import opened JournalBalance
  import opened LedgerHistory

  const ENTRY := Key(JournalEntries, 1)
  const DEBIT_LINE := Key(JournalLines, 1)
  const CREDIT_LINE := Key(JournalLines, 2)
  const FACTS := EntryFacts(20260401, None, Some("Rent"), "MANUAL", None, None, None, None, None, None)
  const META := EntryMeta(None, None, None, None, None, 100, 100)

  function Entry(locked: bool): Row {
    EntryRow(Some(7), locked, FACTS, META)
  }

  /** The ledger of one tenant: one entry of two lines, and one stock movement. */
  function Ledger(locked: bool): Rows {
    map[
      ENTRY := Entry(locked),
      DEBIT_LINE := LineRow(Some(7), 1, 500, 10000, Debit),
      CREDIT_LINE := LineRow(Some(7), 1, 100, 10000, Credit),
      Key(StockLedger, 1) := MovementRow(
        Some(7), MovementFacts(3, None, "OPENING", None, 50000, 50000, None, 100, None, None, None),
        MovementMeta(None, None, None))]
  }

  lemma LedgerIsSound(locked: bool)
    ensures WellTyped(Ledger(locked)) && Agrees(Ledger(locked)) && AllBalanced(Ledger(locked))
  {
    var rows := Ledger(locked);
    assert LinesOf(rows, 1) == {DEBIT_LINE, CREDIT_LINE};
    forall side: Direction ensures Total(rows, LinesOf(rows, 1), side) == 10000 {
      SumPick({DEBIT_LINE, CREDIT_LINE}, DEBIT_LINE, Side(rows, side));
      assert {DEBIT_LINE, CREDIT_LINE} - {DEBIT_LINE} == {CREDIT_LINE};
      SumPick({CREDIT_LINE}, CREDIT_LINE, Side(rows, side));
      assert {CREDIT_LINE} - {CREDIT_LINE} == {};
    }
  }

  /** Rewriting the entry's header commits whenever its guard lets it through. */
  lemma HeaderUpdateCommits(locked: bool, row: Row)
    requires row.EntryRow? && row.tenant == Some(7) && MayUpdate(JournalEntries, Entry(locked), row)
    ensures Transact(Ledger(locked), Some(7), [Update(ENTRY, row)]) == Ledger(locked)[ENTRY := row]
  {
    var begun := Session(Ledger(locked), Some(7), None, {});
    var updated := begun.(rows := Ledger(locked)[ENTRY := row], pending := {1});
    HeaderUpdateSucceeds(locked, row);
    assert [Update(ENTRY, row)][1..] == [] && ExecAll(updated, []) == Some(updated);
    LedgerIsSound(locked);
    assert IsBalanced(Ledger(locked), 1);
    SameEntrySameBalance(Ledger(locked), updated.rows, 1);
  }

  lemma HeaderUpdateSucceeds(locked: bool, row: Row)
    requires row.EntryRow? && row.tenant == Some(7) && MayUpdate(JournalEntries, Ledger(locked)[ENTRY], row)
    ensures Exec(Session(Ledger(locked), Some(7), None, {}), Update(ENTRY, row)) ==
            Some(Session(Ledger(locked)[ENTRY := row], Some(7), None, {1}))
  {
    assert {} + Queued(ENTRY, row) == {1};
    assert Ledger(locked)[ENTRY] == Entry(locked);
  }

  /** Even a locked entry can be given another created_at. */
  lemma CreatedAtIsRewritten()
    ensures var row := EntryRow(Some(7), true, FACTS, META.(createdAt := 1));
            && Transact(Ledger(true), Some(7), [Update(ENTRY, row)]) == Ledger(true)[ENTRY := row]
            && !OnlyLinkageDiffers(Entry(true), row)
  {
    HeaderUpdateCommits(true, EntryRow(Some(7), true, FACTS, META.(createdAt := 1)));
  }

  /** An unlocked one can be given other facts. */
  lemma UnlockedFactsAreRewritten()
    ensures var row := EntryRow(Some(7), false, FACTS.(description := Some("Travel")), META);
            && Transact(Ledger(false), Some(7), [Update(ENTRY, row)]) == Ledger(false)[ENTRY := row]
            && !OnlyLinkageDiffers(Entry(false), row)
  {
    HeaderUpdateCommits(false, EntryRow(Some(7), false, FACTS.(description := Some("Travel")), META));
  }

  /** A stock movement can be given another id: it is gone under its own. */
  lemma MovementIsRenamed()
    ensures var after := Transact(Ledger(true), Some(7), [Rekey(Key(StockLedger, 1), 2)]);
            && Key(StockLedger, 1) !in after && Key(StockLedger, 2) in after
            && MovementIds(Ledger(true), 7) == {1} && MovementIds(after, 7) == {2}
  {
    var rows, from, to := Ledger(true), Key(StockLedger, 1), Key(StockLedger, 2);
    var begun := Session(rows, Some(7), None, {});
    assert !IsReferenced(rows, from);
    var after := (rows - {from})[to := rows[from]];
    assert {} + Queued(to, rows[from]) == {};
    assert Found(begun, from) && to !in rows;
    assert Exec(begun, Rekey(from, 2)) == Some(begun.(rows := after));
    assert [Rekey(from, 2)][1..] == [] && ExecAll(begun.(rows := after), []) == Some(begun.(rows := after));
    assert MovementIds(rows, 7) == {1} by {
      assert from in rows;
    }
    assert MovementIds(after, 7) == {2} by {
      assert to in after;
    }
  }
}

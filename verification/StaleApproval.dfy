/**
  The run that breaks the correspondence between open cases and HELD payments: a validator loads the
  ledger, an officer approves a held payment, and the validator then reads the queue
  (crates/kani-node/src/lib.rs:857-910). The payment becomes final and its case is open again.
 */
module StaleApproval {
  import opened Wrappers
  import opened Types
  import opened Ledgers
  import opened LedgerCore
  import opened Store
  import opened Reload
  import opened Merging
  import opened Consensus
  import opened Blocks
  import opened Protocol
  import opened Passes
  import opened Uninterrupted

  /** A quiet store: nothing queued, and case `k` open for the HELD payment in row `i`, which would be valid next. */
  ghost predicate QuietHold(c: Config, s: State, p: nat, k: Uuid, i: nat) {
    var t := s.tables;
    && Undisturbed(c, s, p) && LeadsStore(c, t, s.processes[p].validator) && c.maxTransactions >= 1
    && PendingTxs(t.rows) == []
    && i < |t.rows| && t.rows[i].status.Held? && Load(t).DryRun([t.rows[i].tx]).Ok?
    && k in t.cases && !t.cases[k].Terminal() && t.cases[k].paymentId == t.rows[i].tx.id
  }

  function Approved(s: State, k: Uuid): State
    requires k in s.tables.cases
  {
    s.(approved := s.approved + {s.tables.cases[k].paymentId})
  }

  function ApprovedTables(t: Tables, k: Uuid): Tables
    requires k in t.cases
  {
    t.(cases := t.cases[k := t.cases[k].Approve(None, None)], rows := MoveRow(t.rows, t.cases[k].paymentId, Held, Pending, None))
  }

  lemma {:induction false} ReleasedIsQueued(rows: seq<Row>, i: nat)
    requires OrderedRows(rows) && UniqueIds(rows) && PendingTxs(rows) == [] && i < |rows| && rows[i].status.Held?
    ensures PendingTxs(MoveRow(rows, rows[i].tx.id, Held, Pending, None)) == [rows[i].tx]
  {
    var after := MoveRow(rows, rows[i].tx.id, Held, Pending, None);
    PendingOrdered(after);
    assert forall j | 0 <= j < |rows| && j != i :: after[j] == rows[j];
    forall x ensures x in PendingTxs(after) <==> x in [rows[i].tx] {
      PendingMember(after, x);
      PendingMember(rows, x);
      assert after[i].tx == rows[i].tx && after[i].status.Pending?;
    }
    OrderedListsAgree(PendingTxs(after), [rows[i].tx]);
  }

  lemma {:induction false} ApproveStep(c: Config, s: State, p: nat, k: Uuid, i: nat)
    requires QuietHold(c, s, p, k, i)
    ensures var l := Load(s.tables);
            Execute(c, At(s, p, Loaded(l), s.tables), [Resolve(k, Approval, None, None)])
            == Some(At(Approved(s, k), p, Loaded(l), ApprovedTables(s.tables, k)))
  {
    ExecuteOne(c, At(s, p, Loaded(Load(s.tables)), s.tables), Resolve(k, Approval, None, None));
  }

  /** From the load on: the queue is read, the payment is selected and its block is built. */
  lemma SelectStep(c: Config, s: State, p: nat, k: Uuid, i: nat, now: int) returns (run: seq<Action>, b: Block)
    requires QuietHold(c, s, p, k, i)
    ensures var l, t2, s2 := Load(s.tables), ApprovedTables(s.tables, k), Approved(s, k);
            && b.txs == [s.tables.rows[i].tx] && ApplyBlock(l, b).Ok?
            && Execute(c, At(s2, p, Loaded(l), t2), run) == Some(At(s2, p, Built(l, b), t2))
  {
    var l, t2, s2, tx := Load(s.tables), ApprovedTables(s.tables, k), Approved(s, k), s.tables.rows[i].tx;
    ReleasedIsQueued(s.tables.rows, i);
    assert PendingPage(t2.rows, c.maxTransactions) == [tx];
    ReadStep(c, s2, p, t2, l);
    var filtering := FilterRun(c, s2, p, t2, l, [], [tx]);
    assert [] + [tx] == [tx];
    assert FilterAll(t2, l, [], [tx]).accepted == [tx] && FilterAll(t2, l, [], [tx]).tables == t2;
    BuildingCannotFail(l, [tx], c.engine, c.crypto, s.processes[p].validator, now);
    b := BuildBlockForValidator(l, [tx], c.engine, c.crypto, s.processes[p].validator, now).value;
    BuildStep(c, s2, p, now, t2, l, [tx], b);
    ExecuteConcat(c, At(s2, p, Loaded(l), t2), [ReadPending(p)], filtering);
    ExecuteConcat(c, At(s2, p, Loaded(l), t2), [ReadPending(p)] + filtering, [Build(p, now)]);
    run := [ReadPending(p)] + filtering + [Build(p, now)];
  }

  lemma BuiltRun(c: Config, s: State, p: nat, k: Uuid, i: nat, now: int) returns (run: seq<Action>, b: Block)
    requires QuietHold(c, s, p, k, i)
    ensures Resolve(k, Approval, None, None) in run
    ensures b.txs == [s.tables.rows[i].tx] && ApplyBlock(Load(s.tables), b).Ok?
    ensures Execute(c, s, run) == Some(At(Approved(s, k), p, Built(Load(s.tables), b), ApprovedTables(s.tables, k)))
  {
    var opening := OpeningRun(c, s, p);
    ApproveStep(c, s, p, k, i);
    var more: seq<Action>;
    more, b := SelectStep(c, s, p, k, i, now);
    ExecuteConcat(c, s, opening, [Resolve(k, Approval, None, None)]);
    ExecuteConcat(c, s, opening + [Resolve(k, Approval, None, None)], more);
    run := opening + [Resolve(k, Approval, None, None)] + more;
  }

  lemma MergedOutcome(c: Config, t: Tables, l: Ledger, b: Block, i: nat, k: Uuid)
    requires WellFormed(t) && Ready(c.engine, c.crypto, t, l, b) && i < |t.rows| && b.txs == [t.rows[i].tx] && k in l.cases
    ensures var after := Merge(t, ApplyBlock(l, b).value);
            IsFinal(after.rows, t.rows[i].tx) && k in after.cases && after.cases[k] == l.cases[k]
  {
    MergedRow(c.engine, c.crypto, t, l, b, i);
    var rows := MergeRows(t.rows, ApplyBlock(l, b).value.payments);
    assert rows[i].tx == t.rows[i].tx && rows[i].status.Finalized?;
  }

  lemma SavedOutcome(c: Config, t: Tables, l: Ledger, b: Block, snapshot: Snapshot, i: nat, k: Uuid)
    requires ConfigOk(c) && StoreInv(c.engine, c.crypto, c.genesis, t) && Ready(c.engine, c.crypto, t, l, b)
    requires IsSnapshot(snapshot, ApplyBlock(l, b).value)
    requires i < |t.rows| && b.txs == [t.rows[i].tx] && k in l.cases
    ensures var after := Save(t, snapshot);
            IsFinal(after.rows, t.rows[i].tx) && k in after.cases && after.cases[k] == l.cases[k]
  {
    SaveKeepsStore(c, t, l, b, snapshot);
    MergedOutcome(c, t, l, b, i, k);
  }

  /**
    The failing family: from every quiet store with a payment on hold, approving between the load and the
    reading of the queue ends with the payment final in the chain and its approved case open again.
   */
  lemma ApprovalLost(c: Config, s: State, p: nat, k: Uuid, i: nat, now: int) returns (run: seq<Action>)
    requires QuietHold(c, s, p, k, i)
    ensures Resolve(k, Approval, None, None) in run && Execute(c, s, run).Some?
    ensures var t := Execute(c, s, run).value.tables;
            && IsFinal(t.rows, s.tables.rows[i].tx)
            && k in t.cases && t.cases[k] == s.tables.cases[k] && !t.cases[k].Terminal()
  {
    var built, b := BuiltRun(c, s, p, k, i, now);
    var l, t2, s2 := Load(s.tables), ApprovedTables(s.tables, k), Approved(s, k);
    SavedIsWellKeyed(s.tables, b);
    var snapshot := SnapshotExists(ApplyBlock(l, b).value);
    SaveStep(c, s2, p, t2, l, b, snapshot);
    ExecuteConcat(c, s, built, [SaveBlock(p, snapshot)]);
    run := built + [SaveBlock(p, snapshot)];
    RunsKeepInv(c, s, built);
    var m := At(s2, p, Built(l, b), t2);
    assert PhaseInv(c, t2, m.processes[p]);
    assert t2.rows[i].tx == s.tables.rows[i].tx;
    SavedOutcome(c, t2, l, b, snapshot, i, k);
  }
}

/**
  The keys of stored payments in every interleaving (crates/kani-ledger/src/lib.rs:1146-1221, 1294-1417,
  2052-2090): no two rows ever share a client reference id, or an account and nonce.
 */
module StoredKeys {
  import opened Wrappers
  import opened Types
  import opened Ledgers
  import opened LedgerCore
  import opened Store
  import opened Merging
  import opened Blocks
  import opened Protocol
  import opened Approvals
  import opened Safety

  predicate SameKey(q: Row, r: Row) {
    || (q.clientReferenceId.Some? && q.clientReferenceId == r.clientReferenceId)
    || (q.tx.from, q.tx.nonce) == (r.tx.from, r.tx.nonce)
  }

  ghost predicate KeysDiffer(rows: seq<Row>) {
    forall q, r | q in rows && r in rows && q != r :: !SameKey(q, r)
  }

  ghost predicate AllFingerprinted(c: Config, rows: seq<Row>) {
    forall r | r in rows :: Fingerprinted(c, r)
  }

  /** The same rows in the same order, each with its transaction, reference and fingerprint. */
  ghost predicate Rewritten(before: seq<Row>, after: seq<Row>) {
    && |after| == |before|
    && forall i | 0 <= i < |before| :: SameIdentity(before[i], after[i])
  }

  /** A step rewrites the rows, or inserts the one row of an API call. */
  ghost predicate RowsStep(c: Config, t: Tables, a: Action, after: Tables) {
    || Rewritten(t.rows, after.rows)
    || ((a.Enqueue? || a.HoldRow?) && Insertable(t, a.row) && Fingerprinted(c, a.row) && !a.row.status.Finalized?
        && after.rows == InsertRow(t.rows, a.row))
  }

  lemma {:induction false} MoveRewrites(rows: seq<Row>, id: Uuid, from: TransactionStatus, to: TransactionStatus, reason: Option<string>)
    ensures Rewritten(rows, MoveRow(rows, id, from, to, reason))
  {
  }

  lemma {:induction false} SaveRewrites(c: Config, t: Tables, l: Ledger, b: Block)
    requires WellFormed(t) && Ready(c.engine, c.crypto, t, l, b)
    ensures Rewritten(t.rows, Merge(t, ApplyBlock(l, b).value).rows)
  {
    var after := MergeRows(t.rows, ApplyBlock(l, b).value.payments);
    forall i: nat | i < |t.rows| ensures SameIdentity(t.rows[i], after[i]) {
      MergedRow(c.engine, c.crypto, t, l, b, i);
    }
  }

  lemma {:induction false} ApiStepRows(c: Config, s: State, a: Action)
    requires IsApi(a) && ApiStep(c, s, a).Some?
    ensures RowsStep(c, s.tables, a, ApiStep(c, s, a).value.tables)
  {
    match a {
      case Enqueue(row) =>
      case HoldRow(row, _) =>
      case Resolve(k, resolution, _, _) =>
        var id := s.tables.cases[k].paymentId;
        MoveRewrites(s.tables.rows, id, Held, Pending, None);
        if resolution.Rejection? {
          MoveRewrites(s.tables.rows, id, Held, Rejected, Some(resolution.reason));
        }
    }
  }

  lemma {:induction false} ProcessStepRows(c: Config, s: State, a: Action, p: nat)
    requires ConfigOk(c) && Inv(c, s) && ProcessStep(c, s, a, p).Some?
    ensures Rewritten(s.tables.rows, ProcessStep(c, s, a, p).value.tables.rows)
  {
    StepShape(c, s, a, p);
    if ProcessStep(c, s, a, p).value.tables != s.tables {
      if a.FilterOne? {
        MoveRewrites(s.tables.rows, s.processes[p].phase.rest[0].id, Pending, Rejected, Some(a.reason));
      } else {
        assert PhaseInv(c, s.tables, s.processes[p]);
        SaveStepInv(c, s, p, a.snapshot);
        SaveRewrites(c, s.tables, s.processes[p].phase.base, s.processes[p].phase.block);
      }
    }
  }

  /** What one step does to the rows' identities. */
  lemma {:induction false} StepRows(c: Config, s: State, a: Action)
    requires ConfigOk(c) && Inv(c, s) && StepState(c, s, a).Some?
    ensures RowsStep(c, s.tables, a, StepState(c, s, a).value.tables)
  {
    if IsApi(a) {
      ApiStepRows(c, s, a);
    } else {
      ProcessStepRows(c, s, a, a.p);
    }
  }

  lemma {:induction false} RewriteKeepsKeys(c: Config, before: seq<Row>, after: seq<Row>)
    requires UniqueIds(before) && KeysDiffer(before) && AllFingerprinted(c, before) && Rewritten(before, after)
    ensures KeysDiffer(after) && AllFingerprinted(c, after)
  {
    forall q, r | q in after && r in after && q != r ensures !SameKey(q, r) {
      var i, j :| 0 <= i < |after| && 0 <= j < |after| && after[i] == q && after[j] == r;
      assert before[i] in before && before[j] in before && before[i] != before[j];
    }
    forall q | q in after ensures Fingerprinted(c, q) {
      var i :| 0 <= i < |after| && after[i] == q;
      assert before[i] in before;
    }
  }

  lemma {:induction false} InsertKeepsKeys(c: Config, t: Tables, r: Row)
    requires WellFormed(t) && KeysDiffer(t.rows) && AllFingerprinted(c, t.rows)
    requires Insertable(t, r) && Fingerprinted(c, r) && !r.status.Finalized?
    ensures KeysDiffer(InsertRow(t.rows, r)) && AllFingerprinted(c, InsertRow(t.rows, r))
  {
    InsertExtends(t, r, t.cases);
    forall q | q in t.rows ensures !SameKey(q, r) && !SameKey(r, q) {
      var i :| 0 <= i < |t.rows| && t.rows[i] == q;
    }
  }

  /** Over every run: keys differ, and a row with a reference carries its own request's fingerprint. */
  lemma {:induction false} RunsKeepKeys(c: Config, s: State, actions: seq<Action>)
    requires ConfigOk(c) && Initial(c, s) && Execute(c, s, actions).Some?
    ensures Inv(c, Execute(c, s, actions).value)
    ensures KeysDiffer(Execute(c, s, actions).value.tables.rows) && AllFingerprinted(c, Execute(c, s, actions).value.tables.rows)
    decreases |actions|
  {
    InitialInv(c, s);
    RunsKeepInv(c, s, actions);
    if actions != [] {
      var front, a := actions[..|actions| - 1], actions[|actions| - 1];
      RunsKeepKeys(c, s, front);
      var m := Execute(c, s, front).value;
      assert WellFormed(m.tables);
      StepRows(c, m, a);
      if Rewritten(m.tables.rows, StepState(c, m, a).value.tables.rows) {
        RewriteKeepsKeys(c, m.tables.rows, StepState(c, m, a).value.tables.rows);
      } else {
        InsertKeepsKeys(c, m.tables, a.row);
      }
    }
  }

  /** In every run at most one stored payment carries a client reference, and at most one an account and nonce. */
  lemma {:induction false} OnePaymentPerKey(c: Config, s: State, actions: seq<Action>, i: nat, j: nat)
    requires ConfigOk(c) && Initial(c, s) && Execute(c, s, actions).Some?
    requires var rows := Execute(c, s, actions).value.tables.rows; i < |rows| && j < |rows| && SameKey(rows[i], rows[j])
    ensures i == j
  {
    RunsKeepKeys(c, s, actions);
    var rows := Execute(c, s, actions).value.tables.rows;
    assert rows[i] in rows && rows[j] in rows;
  }
}

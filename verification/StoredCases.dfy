/**
  Which stored payments have a compliance case, in every interleaving of validators and API calls
  (crates/kani-ledger/src/lib.rs:1294-1417, 1486-1600): exactly the transfers the policy sends to review,
  whatever has become of them since.
 */
module StoredCases {
  import opened Wrappers
  import opened Types
  import opened Ledgers
  import opened LedgerCore
  import opened Store
  import opened Merging
  import opened Blocks
  import opened Compliance
  import opened Protocol
  import opened Approvals
  import opened Safety
  import opened CaseRuns
  import opened StoredKeys

  ghost predicate HasCase(cases: map<Uuid, ComplianceCase>, id: Uuid) {
    exists k :: k in cases && cases[k].paymentId == id
  }

  /** A row has a case exactly when its transfer is over the limit. */
  ghost predicate CasesMatch(c: Config, t: Tables) {
    forall r | r in t.rows :: HasCase(t.cases, r.tx.id) <==> OverLimit(c, r.tx)
  }

  /** The same cases, each for the same payment, whatever their standing. */
  predicate SameOwners(a: map<Uuid, ComplianceCase>, b: map<Uuid, ComplianceCase>) {
    a.Keys == b.Keys && forall k | k in a :: b[k].paymentId == a[k].paymentId
  }

  lemma OwnersAgree(a: map<Uuid, ComplianceCase>, b: map<Uuid, ComplianceCase>, id: Uuid)
    requires SameOwners(a, b)
    ensures HasCase(a, id) <==> HasCase(b, id)
  {
    if HasCase(a, id) {
      var k :| k in a && a[k].paymentId == id;
      assert b[k].paymentId == id;
    }
    if HasCase(b, id) {
      var k :| k in b && b[k].paymentId == id;
      assert a[k].paymentId == id;
    }
  }

  lemma {:induction false} RewriteKeepsMatch(c: Config, t: Tables, after: Tables)
    requires CasesMatch(c, t) && Rewritten(t.rows, after.rows) && SameOwners(t.cases, after.cases)
    ensures CasesMatch(c, after)
  {
    forall r | r in after.rows ensures HasCase(after.cases, r.tx.id) <==> OverLimit(c, r.tx) {
      var i :| 0 <= i < |after.rows| && after.rows[i] == r;
      assert t.rows[i] in t.rows && t.rows[i].tx == r.tx;
      OwnersAgree(t.cases, after.cases, r.tx.id);
    }
  }

  lemma NewIdHasNoCase(t: Tables, row: Row)
    requires CasesOk(t.rows, t.cases) && Insertable(t, row)
    ensures !HasCase(t.cases, row.tx.id)
  {
    assert forall k | k in t.cases :: HasRow(t.rows, t.cases[k].paymentId);
    assert !HasRow(t.rows, row.tx.id);
  }

  lemma {:induction false} EnqueueKeepsMatch(c: Config, t: Tables, row: Row)
    requires WellFormed(t) && CasesOk(t.rows, t.cases) && CasesMatch(c, t)
    requires Insertable(t, row) && !row.status.Finalized? && !OverLimit(c, row.tx)
    ensures CasesMatch(c, t.(rows := InsertRow(t.rows, row)))
  {
    InsertExtends(t, row, t.cases);
    NewIdHasNoCase(t, row);
  }

  lemma OneMoreOwner(cases: map<Uuid, ComplianceCase>, k: Uuid, newCase: ComplianceCase, id: Uuid)
    requires k !in cases
    ensures HasCase(cases[k := newCase], id) <==> HasCase(cases, id) || newCase.paymentId == id
  {
    var after := cases[k := newCase];
    assert after[k] == newCase;
    if HasCase(cases, id) {
      var j :| j in cases && cases[j].paymentId == id;
      assert after[j] == cases[j];
    }
  }

  lemma {:induction false} HoldKeepsMatch(c: Config, t: Tables, row: Row, newCase: ComplianceCase)
    requires WellFormed(t) && CasesMatch(c, t) && Insertable(t, row) && row.status.Held? && OverLimit(c, row.tx)
    requires newCase.id !in t.cases && newCase.paymentId == row.tx.id
    ensures CasesMatch(c, t.(rows := InsertRow(t.rows, row), cases := t.cases[newCase.id := newCase]))
  {
    InsertExtends(t, row, t.cases);
    var cases := t.cases[newCase.id := newCase];
    forall r | r in InsertRow(t.rows, row) ensures HasCase(cases, r.tx.id) <==> OverLimit(c, r.tx) {
      OneMoreOwner(t.cases, newCase.id, newCase, r.tx.id);
    }
  }

  lemma {:induction false} ResolveKeepsMatch(c: Config, t: Tables, caseId: Uuid, resolution: Resolution, reviewer: Option<string>,
                                             why: Option<string>)
    requires CasesMatch(c, t) && ResolveStored(t, caseId, resolution, reviewer, why).Ok?
    ensures CasesMatch(c, ResolveStored(t, caseId, resolution, reviewer, why).value)
  {
    var after := ResolveStored(t, caseId, resolution, reviewer, why).value;
    var id := t.cases[caseId].paymentId;
    if resolution.Approval? {
      MoveRewrites(t.rows, id, Held, Pending, None);
    } else {
      MoveRewrites(t.rows, id, Held, Rejected, Some(resolution.reason));
    }
    RewriteKeepsMatch(c, t, after);
  }

  lemma AllowedIsNotOver(c: Config, tx: Transaction)
    requires tx.kind.Transfer? ==> ScreenTx(c.policy, tx).Allow?
    ensures !OverLimit(c, tx)
  {
  }

  lemma {:induction false} ApiStepMatch(c: Config, s: State, a: Action)
    requires WellFormed(s.tables) && CasesOk(s.tables.rows, s.tables.cases) && CasesMatch(c, s.tables)
    requires IsApi(a) && ApiStep(c, s, a).Some?
    ensures CasesMatch(c, ApiStep(c, s, a).value.tables)
  {
    match a {
      case Enqueue(row) =>
        AllowedIsNotOver(c, row.tx);
        EnqueueKeepsMatch(c, s.tables, row);
      case HoldRow(row, newCase) => HoldKeepsMatch(c, s.tables, row, newCase);
      case Resolve(caseId, resolution, reviewer, why) => ResolveKeepsMatch(c, s.tables, caseId, resolution, reviewer, why);
    }
  }

  lemma MergedOwners(t: Tables, l: Ledger)
    requires CasesCurrent(t, l)
    ensures SameOwners(t.cases, t.cases + l.cases)
  {
  }

  lemma {:induction false} ProcessStepOwners(c: Config, s: State, a: Action, p: nat)
    requires ConfigOk(c) && Inv(c, s) && CaseInv(s) && ProcessStep(c, s, a, p).Some? && a.p == p && !IsApi(a)
    ensures SameOwners(s.tables.cases, ProcessStep(c, s, a, p).value.tables.cases)
  {
    ProcessStepTables(c, s, a, p);
    if a.SaveBlock? && s.processes[p].phase.Built? {
      SaveStepTables(c, s, p, a.snapshot);
      assert BaseOf(s.processes[p].phase) == Some(s.processes[p].phase.base);
      MergedOwners(s.tables, s.processes[p].phase.base);
    }
  }

  lemma {:induction false} StepMatch(c: Config, s: State, a: Action)
    requires ConfigOk(c) && Inv(c, s) && CaseInv(s) && CasesMatch(c, s.tables) && StepState(c, s, a).Some?
    ensures CasesMatch(c, StepState(c, s, a).value.tables)
  {
    if IsApi(a) {
      assert WellFormed(s.tables) && CasesOk(s.tables.rows, s.tables.cases);
      ApiStepMatch(c, s, a);
    } else {
      ProcessStepRows(c, s, a, a.p);
      ProcessStepOwners(c, s, a, a.p);
      RewriteKeepsMatch(c, s.tables, StepState(c, s, a).value.tables);
    }
  }

  lemma {:induction false} RunsKeepMatch(c: Config, s: State, actions: seq<Action>)
    requires ConfigOk(c) && Initial(c, s) && Execute(c, s, actions).Some?
    ensures var m := Execute(c, s, actions).value; Inv(c, m) && CaseInv(m) && CasesMatch(c, m.tables)
    decreases |actions|
  {
    RunCases(c, s, actions, |actions|);
    assert actions[..|actions|] == actions;
    if actions != [] {
      var front, a := actions[..|actions| - 1], actions[|actions| - 1];
      RunsKeepMatch(c, s, front);
      StepMatch(c, Execute(c, s, front).value, a);
    }
  }

  /**
    In every run a stored payment has a case exactly when the policy sends it to review - held, approved,
    rejected or final - and then it has exactly one, which is open as long as the payment is HELD.
   */
  lemma {:induction false} CaseIffOverLimit(c: Config, s: State, actions: seq<Action>, r: Row)
    requires ConfigOk(c) && Initial(c, s) && Execute(c, s, actions).Some?
    requires r in Execute(c, s, actions).value.tables.rows
    ensures var cases := Execute(c, s, actions).value.tables.cases;
            && ((exists k :: k in cases && cases[k].paymentId == r.tx.id) <==> NeedsReview(c.policy, r.tx))
            && (forall j, k | j in cases && k in cases && cases[j].paymentId == r.tx.id == cases[k].paymentId :: j == k)
            && (r.status.Held? ==> exists k :: k in cases && cases[k].paymentId == r.tx.id && !cases[k].Terminal())
  {
    RunsKeepMatch(c, s, actions);
    var m := Execute(c, s, actions).value;
    assert CasesOk(m.tables.rows, m.tables.cases);
    assert HasCase(m.tables.cases, r.tx.id) <==> OverLimit(c, r.tx);
    if r.status.Held? {
      HeldPaymentsHaveOpenCases(c, s, actions, r);
    }
  }
}

/**
  Compliance cases and held payments in every interleaving of validators and API calls
  (crates/kani-api/src/lib.rs:885-989; crates/kani-ledger/src/lib.rs:1286-1395, 1486-1600, 2076-2110).
  Every HELD payment always has an open case. The converse - an open case's payment is HELD - and the
  finality of a resolution are each broken by exactly one kind of save, characterised here.
 */
module CaseRuns {
  import opened Wrappers
  import opened Types
  import opened Ledgers
  import opened LedgerCore
  import opened Store
  import opened Reload
  import opened Merging
  import opened Consensus
  import opened Blocks
  import opened Compliance
  import opened Protocol
  import opened Approvals
  import opened Safety

  predicate IsHeld(rows: seq<Row>, id: Uuid) {
    exists i :: 0 <= i < |rows| && rows[i].tx.id == id && rows[i].status.Held?
  }

  ghost predicate OpenCaseFor(cases: map<Uuid, ComplianceCase>, id: Uuid) {
    exists k :: k in cases && !cases[k].Terminal() && cases[k].paymentId == id
  }

  /** Every open case's payment is HELD. */
  ghost predicate OpenIsHeld(rows: seq<Row>, cases: map<Uuid, ComplianceCase>) {
    forall k | k in cases && !cases[k].Terminal() :: IsHeld(rows, cases[k].paymentId)
  }

  ghost predicate LedgerOpenIsHeld(l: Ledger) {
    forall k | k in l.cases && !l.cases[k].Terminal() ::
      l.cases[k].paymentId in l.payments && l.payments[l.cases[k].paymentId].status.Held?
  }

  /** One case per payment, each for an existing row, and every HELD row has an open one. */
  ghost predicate CasesOk(rows: seq<Row>, cases: map<Uuid, ComplianceCase>) {
    && (forall j, k | j in cases && k in cases && cases[j].paymentId == cases[k].paymentId :: j == k)
    && (forall k | k in cases :: HasRow(rows, cases[k].paymentId))
    && (forall i | 0 <= i < |rows| && rows[i].status.Held? :: OpenCaseFor(cases, rows[i].tx.id))
  }

  /** A loaded ledger's cases are the store's, as they were. */
  ghost predicate CasesCurrent(t: Tables, l: Ledger) {
    && (forall k | k in l.cases :: k in t.cases && t.cases[k].paymentId == l.cases[k].paymentId)
    && (forall k | k in t.cases && k !in l.cases :: t.cases[k].paymentId !in l.payments)
    && (forall k | k in l.cases :: l.cases[k].paymentId in l.payments)
    && (forall id | id in l.payments && l.payments[id].status.Held? :: OpenCaseFor(l.cases, id))
  }

  ghost predicate CaseInv(s: State) {
    && CasesOk(s.tables.rows, s.tables.cases)
    && forall p | p in s.processes && BaseOf(s.processes[p].phase).Some? ::
         CasesCurrent(s.tables, BaseOf(s.processes[p].phase).value)
  }

  /** So far every open case's payment is HELD, in the store and in every ledger in use. */
  ghost predicate Clean(s: State) {
    && OpenIsHeld(s.tables.rows, s.tables.cases)
    && forall p | p in s.processes && BaseOf(s.processes[p].phase).Some? ::
         LedgerOpenIsHeld(BaseOf(s.processes[p].phase).value)
  }

  /** The save about to happen finalizes a payment that was HELD in the ledger its process loaded. */
  predicate StaleBlock(l: Ledger, b: Block) {
    exists k :: 0 <= k < |b.txs| && b.txs[k].id in l.payments && l.payments[b.txs[k].id].status.Held?
  }

  predicate StaleSave(s: State, a: Action) {
    && a.SaveBlock? && a.p in s.processes && s.processes[a.p].phase.Built?
    && StaleBlock(s.processes[a.p].phase.base, s.processes[a.p].phase.block)
  }

  lemma LoadCases(t: Tables)
    requires WellFormed(t) && CasesOk(t.rows, t.cases)
    ensures CasesCurrent(t, Load(t))
    ensures OpenIsHeld(t.rows, t.cases) ==> LedgerOpenIsHeld(Load(t))
  {
    PaymentsOfLookup(t.rows, t.headers);
    var l := Load(t);
    forall id | id in l.payments && l.payments[id].status.Held? ensures OpenCaseFor(l.cases, id) {
      var i :| 0 <= i < |t.rows| && t.rows[i].tx.id == id;
      assert l.payments[id] == PaymentOf(t.rows[i], t.headers);
    }
    if OpenIsHeld(t.rows, t.cases) {
      forall k | k in l.cases && !l.cases[k].Terminal()
        ensures l.cases[k].paymentId in l.payments && l.payments[l.cases[k].paymentId].status.Held?
      {
        var i :| 0 <= i < |t.rows| && t.rows[i].tx.id == t.cases[k].paymentId && t.rows[i].status.Held?;
        assert l.payments[t.rows[i].tx.id] == PaymentOf(t.rows[i], t.headers);
      }
    }
  }

  // Row changes other than a save: cases stay, and only rows outside HELD may move.

  lemma {:induction false} InsertKeepsRows(t: Tables, r: Row)
    requires WellFormed(t) && Insertable(t, r) && !r.status.Finalized?
    ensures forall id | HasRow(t.rows, id) :: HasRow(InsertRow(t.rows, r), id)
    ensures forall id | IsHeld(t.rows, id) :: IsHeld(InsertRow(t.rows, r), id)
    ensures forall q | q in InsertRow(t.rows, r) && q != r && q.status.Held? :: IsHeld(t.rows, q.tx.id)
    ensures HasRow(InsertRow(t.rows, r), r.tx.id)
    ensures r.status.Held? ==> IsHeld(InsertRow(t.rows, r), r.tx.id)
  {
    InsertExtends(t, r, t.cases);
    var after := InsertRow(t.rows, r);
    forall id | HasRow(t.rows, id) ensures HasRow(after, id) {
      var i :| 0 <= i < |t.rows| && t.rows[i].tx.id == id;
      assert t.rows[i] in after;
    }
    forall id | IsHeld(t.rows, id) ensures IsHeld(after, id) {
      var i :| 0 <= i < |t.rows| && t.rows[i].tx.id == id && t.rows[i].status.Held?;
      assert t.rows[i] in after;
    }
    assert r in after;
  }

  lemma HeldHasCase(rows: seq<Row>, cases: map<Uuid, ComplianceCase>, id: Uuid)
    requires CasesOk(rows, cases) && IsHeld(rows, id)
    ensures OpenCaseFor(cases, id)
  {
  }

  lemma OneMoreCase(cases: map<Uuid, ComplianceCase>, k: Uuid, newCase: ComplianceCase, id: Uuid)
    requires k !in cases && OpenCaseFor(cases, id)
    ensures OpenCaseFor(cases[k := newCase], id)
  {
    var j :| j in cases && !cases[j].Terminal() && cases[j].paymentId == id;
    assert cases[k := newCase][j] == cases[j];
  }

  lemma {:induction false} InsertCases(t: Tables, r: Row)
    requires WellFormed(t) && CasesOk(t.rows, t.cases) && Insertable(t, r) && r.status.Pending?
    ensures CasesOk(InsertRow(t.rows, r), t.cases)
    ensures OpenIsHeld(t.rows, t.cases) ==> OpenIsHeld(InsertRow(t.rows, r), t.cases)
  {
    InsertKeepsRows(t, r);
    var after := InsertRow(t.rows, r);
    forall i | 0 <= i < |after| && after[i].status.Held? ensures OpenCaseFor(t.cases, after[i].tx.id) {
      assert after[i] in after;
      HeldHasCase(t.rows, t.cases, after[i].tx.id);
    }
  }

  lemma {:induction false} HoldCases(t: Tables, r: Row, newCase: ComplianceCase)
    requires WellFormed(t) && CasesOk(t.rows, t.cases) && Insertable(t, r) && r.status.Held?
    requires newCase.id !in t.cases && newCase.paymentId == r.tx.id && newCase.status.Opened?
    ensures CasesOk(InsertRow(t.rows, r), t.cases[newCase.id := newCase])
    ensures OpenIsHeld(t.rows, t.cases) ==> OpenIsHeld(InsertRow(t.rows, r), t.cases[newCase.id := newCase])
  {
    InsertKeepsRows(t, r);
    var after := InsertRow(t.rows, r);
    var cases := t.cases[newCase.id := newCase];
    assert !HasRow(t.rows, r.tx.id);
    forall i | 0 <= i < |after| && after[i].status.Held? ensures OpenCaseFor(cases, after[i].tx.id) {
      HeldAfterHold(t, r, newCase, i);
    }
  }

  lemma {:induction false} HeldAfterHold(t: Tables, r: Row, newCase: ComplianceCase, i: nat)
    requires WellFormed(t) && CasesOk(t.rows, t.cases) && Insertable(t, r) && r.status.Held?
    requires newCase.id !in t.cases && newCase.paymentId == r.tx.id && newCase.status.Opened?
    requires i < |InsertRow(t.rows, r)| && InsertRow(t.rows, r)[i].status.Held?
    ensures OpenCaseFor(t.cases[newCase.id := newCase], InsertRow(t.rows, r)[i].tx.id)
  {
    InsertKeepsRows(t, r);
    var q := InsertRow(t.rows, r)[i];
    assert q in InsertRow(t.rows, r);
    if q == r {
      assert t.cases[newCase.id := newCase][newCase.id] == newCase;
    } else {
      HeldHasCase(t.rows, t.cases, q.tx.id);
      OneMoreCase(t.cases, newCase.id, newCase, q.tx.id);
    }
  }

  lemma MoveRowsEffect(rows: seq<Row>, id: Uuid, from: TransactionStatus, to: TransactionStatus, reason: Option<string>)
    requires !to.Held?
    ensures var after := MoveRow(rows, id, from, to, reason);
            && |after| == |rows|
            && (forall x | HasRow(rows, x) :: HasRow(after, x))
            && (forall x | IsHeld(rows, x) && (x != id || !from.Held?) :: IsHeld(after, x))
            && (forall i | 0 <= i < |after| && after[i].status.Held? ::
                  rows[i] == after[i] && (from.Held? ==> rows[i].tx.id != id))
  {
    var after := MoveRow(rows, id, from, to, reason);
    forall x | HasRow(rows, x) ensures HasRow(after, x) {
      var i :| 0 <= i < |rows| && rows[i].tx.id == x;
      assert after[i].tx.id == x;
    }
    forall x | IsHeld(rows, x) && (x != id || !from.Held?) ensures IsHeld(after, x) {
      var i :| 0 <= i < |rows| && rows[i].tx.id == x && rows[i].status.Held?;
      assert after[i] == rows[i];
    }
  }

  /** Closing one case together with moving its own payment out of HELD. */
  lemma CloseCase(t: Tables, k: Uuid, closed: ComplianceCase, to: TransactionStatus, reason: Option<string>)
    requires CasesOk(t.rows, t.cases) && k in t.cases && closed.Terminal() && closed.paymentId == t.cases[k].paymentId && !to.Held?
    ensures var after := t.(rows := MoveRow(t.rows, closed.paymentId, Held, to, reason), cases := t.cases[k := closed]);
            CasesOk(after.rows, after.cases) && (OpenIsHeld(t.rows, t.cases) ==> OpenIsHeld(after.rows, after.cases))
  {
    var id := closed.paymentId;
    var after := t.(rows := MoveRow(t.rows, id, Held, to, reason), cases := t.cases[k := closed]);
    MoveRowsEffect(t.rows, id, Held, to, reason);
    forall i | 0 <= i < |after.rows| && after.rows[i].status.Held? ensures OpenCaseFor(after.cases, after.rows[i].tx.id) {
      var j :| j in t.cases && !t.cases[j].Terminal() && t.cases[j].paymentId == t.rows[i].tx.id;
      assert after.cases[j] == t.cases[j];
    }
  }

  lemma ResolveCases(t: Tables, caseId: Uuid, resolution: Resolution, reviewer: Option<string>, why: Option<string>)
    requires CasesOk(t.rows, t.cases) && ResolveStored(t, caseId, resolution, reviewer, why).Ok?
    ensures var after := ResolveStored(t, caseId, resolution, reviewer, why).value;
            CasesOk(after.rows, after.cases) && (OpenIsHeld(t.rows, t.cases) ==> OpenIsHeld(after.rows, after.cases))
  {
    var k := t.cases[caseId];
    if resolution.Approval? {
      CloseCase(t, caseId, k.Approve(reviewer, why), Pending, None);
    } else {
      CloseCase(t, caseId, k.Reject(reviewer, why), Rejected, Some(resolution.reason));
    }
  }

  lemma RejectCases(t: Tables, id: Uuid, reason: string)
    requires CasesOk(t.rows, t.cases)
    ensures CasesOk(RejectRow(t.rows, id, reason), t.cases)
    ensures OpenIsHeld(t.rows, t.cases) ==> OpenIsHeld(RejectRow(t.rows, id, reason), t.cases)
  {
    MoveRowsEffect(t.rows, id, Pending, Rejected, Some(reason));
  }

  // The save.

  lemma SaveRowIsHeld(c: Config, t: Tables, l: Ledger, b: Block, i: nat)
    requires WellFormed(t) && Ready(c.engine, c.crypto, t, l, b) && i < |t.rows|
    ensures var after := MergeRows(t.rows, ApplyBlock(l, b).value.payments);
            after[i].tx == t.rows[i].tx
            && (after[i].status.Held? <==> t.rows[i].tx !in b.txs
                                           && (if t.rows[i].tx.id in l.payments then l.payments[t.rows[i].tx.id].status.Held?
                                               else t.rows[i].status.Held?))
  {
    MergedRow(c.engine, c.crypto, t, l, b, i);
  }

  /** Whose case a row of a saved store belongs to. */
  lemma SavedCase(t: Tables, l: Ledger, id: Uuid)
    requires CasesOk(t.rows, t.cases) && CasesCurrent(t, l)
    ensures if id in l.payments then OpenCaseFor(t.cases + l.cases, id) <==> OpenCaseFor(l.cases, id)
            else OpenCaseFor(t.cases + l.cases, id) <==> OpenCaseFor(t.cases, id)
  {
    var after := t.cases + l.cases;
    forall k | k in after && after[k].paymentId == id
      ensures k in t.cases && t.cases[k].paymentId == id && (id in l.payments <==> k in l.cases)
    {
    }
    if id in l.payments && OpenCaseFor(l.cases, id) {
      var k :| k in l.cases && !l.cases[k].Terminal() && l.cases[k].paymentId == id;
      assert after[k] == l.cases[k];
    }
    if id !in l.payments && OpenCaseFor(t.cases, id) {
      var k :| k in t.cases && !t.cases[k].Terminal() && t.cases[k].paymentId == id;
      assert after[k] == t.cases[k];
    }
  }

  lemma MergedCases(t: Tables, l: Ledger, rows: seq<Row>)
    requires CasesOk(t.rows, t.cases) && CasesCurrent(t, l)
    requires |rows| == |t.rows| && forall i | 0 <= i < |rows| :: rows[i].tx == t.rows[i].tx
    requires forall i | 0 <= i < |rows| && rows[i].status.Held? ::
               if t.rows[i].tx.id in l.payments then l.payments[t.rows[i].tx.id].status.Held? else t.rows[i].status.Held?
    ensures CasesOk(rows, t.cases + l.cases)
  {
    var after := t.cases + l.cases;
    assert forall k | k in after :: k in t.cases && after[k].paymentId == t.cases[k].paymentId;
    forall k | k in after ensures HasRow(rows, after[k].paymentId) {
      var i: nat :| i < |t.rows| && t.rows[i].tx.id == t.cases[k].paymentId;
      assert rows[i].tx.id == t.cases[k].paymentId;
    }
    forall i: nat | i < |rows| && rows[i].status.Held? ensures OpenCaseFor(after, rows[i].tx.id) {
      SavedCase(t, l, t.rows[i].tx.id);
    }
  }

  lemma SaveCases(c: Config, t: Tables, l: Ledger, b: Block)
    requires WellFormed(t) && Ready(c.engine, c.crypto, t, l, b) && CasesOk(t.rows, t.cases) && CasesCurrent(t, l)
    ensures var after := Merge(t, ApplyBlock(l, b).value); CasesOk(after.rows, after.cases)
  {
    var rows := MergeRows(t.rows, ApplyBlock(l, b).value.payments);
    forall i: nat | i < |rows|
      ensures && rows[i].tx == t.rows[i].tx
              && (rows[i].status.Held? ==>
                    if t.rows[i].tx.id in l.payments then l.payments[t.rows[i].tx.id].status.Held? else t.rows[i].status.Held?)
    {
      SaveRowIsHeld(c, t, l, b, i);
    }
    MergedCases(t, l, rows);
  }

  // ---- Exactly which saves break the correspondence ----

  /** Row by row: the rows a save leaves HELD, for a store whose open cases are all HELD. */
  lemma MergedHeld(c: Config, t: Tables, l: Ledger, b: Block, i: nat)
    requires WellFormed(t) && Ready(c.engine, c.crypto, t, l, b) && i < |t.rows|
    requires (if t.rows[i].tx.id in l.payments then l.payments[t.rows[i].tx.id].status.Held? else t.rows[i].status.Held?)
    requires !StaleBlock(l, b)
    ensures MergeRows(t.rows, ApplyBlock(l, b).value.payments)[i].status.Held?
  {
    SaveRowIsHeld(c, t, l, b, i);
    MergedRow(c.engine, c.crypto, t, l, b, i);
    assert t.rows[i].tx.id in l.payments ==> forall k | 0 <= k < |b.txs| :: b.txs[k] != t.rows[i].tx;
  }

  lemma FreshSaveKeepsOpenHeld(c: Config, t: Tables, l: Ledger, b: Block)
    requires WellFormed(t) && Ready(c.engine, c.crypto, t, l, b) && CasesCurrent(t, l)
    requires OpenIsHeld(t.rows, t.cases) && LedgerOpenIsHeld(l) && !StaleBlock(l, b)
    ensures OpenIsHeld(MergeRows(t.rows, ApplyBlock(l, b).value.payments), t.cases + l.cases)
  {
    var rows, cases := MergeRows(t.rows, ApplyBlock(l, b).value.payments), t.cases + l.cases;
    forall k | k in cases && !cases[k].Terminal() ensures IsHeld(rows, cases[k].paymentId) {
      var id := cases[k].paymentId;
      assert HasRow(t.rows, id) && (k in l.cases ==> id in l.payments && l.payments[id].status.Held?) by {
        if k !in l.cases {
          assert IsHeld(t.rows, id);
        }
      }
      var i: nat :| i < |t.rows| && t.rows[i].tx.id == id && (k in l.cases || t.rows[i].status.Held?);
      assert k !in l.cases ==> id !in l.payments;
      MergedHeld(c, t, l, b, i);
      assert rows[i].tx.id == id;
    }
  }

  lemma StaleSaveBreaksOpenHeld(c: Config, t: Tables, l: Ledger, b: Block)
    requires WellFormed(t) && Ready(c.engine, c.crypto, t, l, b) && CasesCurrent(t, l) && StaleBlock(l, b)
    ensures !OpenIsHeld(MergeRows(t.rows, ApplyBlock(l, b).value.payments), t.cases + l.cases)
  {
    var rows, cases := MergeRows(t.rows, ApplyBlock(l, b).value.payments), t.cases + l.cases;
    var n :| 0 <= n < |b.txs| && b.txs[n].id in l.payments && l.payments[b.txs[n].id].status.Held?;
    var id := b.txs[n].id;
    var k :| k in l.cases && !l.cases[k].Terminal() && l.cases[k].paymentId == id;
    assert cases[k] == l.cases[k];
    FinalizedIsNotHeld(c, t, l, b, id);
  }

  lemma FinalizedIsNotHeld(c: Config, t: Tables, l: Ledger, b: Block, id: Uuid)
    requires WellFormed(t) && Ready(c.engine, c.crypto, t, l, b) && InBlock(b, id)
    ensures !IsHeld(MergeRows(t.rows, ApplyBlock(l, b).value.payments), id)
  {
    var rows := MergeRows(t.rows, ApplyBlock(l, b).value.payments);
    forall i: nat | i < |rows| && rows[i].tx.id == id ensures !rows[i].status.Held? {
      MergedRow(c.engine, c.crypto, t, l, b, i);
    }
  }

  /** A case added or updated in the store leaves a ledger loaded before it in step with the store. */
  lemma CasesMoveOn(t: Tables, after: Tables, l: Ledger)
    requires Current(t, l) && CasesCurrent(t, l)
    requires forall k | k in t.cases :: k in after.cases && after.cases[k].paymentId == t.cases[k].paymentId
    requires forall k | k in after.cases && k !in t.cases :: !HasRow(t.rows, after.cases[k].paymentId)
    ensures CasesCurrent(after, l)
  {
  }

  // ---- Steps ----

  /** Rows and cases after a step of the API, for cases and for ledgers loaded earlier. */
  ghost predicate CasesMoved(a: Tables, b: Tables) {
    && CasesOk(b.rows, b.cases)
    && (OpenIsHeld(a.rows, a.cases) ==> OpenIsHeld(b.rows, b.cases))
    && (forall k | k in a.cases :: k in b.cases && b.cases[k].paymentId == a.cases[k].paymentId)
    && (forall k | k in b.cases && k !in a.cases :: !HasRow(a.rows, b.cases[k].paymentId))
  }

  lemma {:induction false} HoldMoves(t: Tables, row: Row, newCase: ComplianceCase)
    requires WellFormed(t) && CasesOk(t.rows, t.cases) && Insertable(t, row) && row.status.Held?
    requires newCase.id !in t.cases && newCase.paymentId == row.tx.id && newCase.status.Opened?
    ensures CasesMoved(t, t.(rows := InsertRow(t.rows, row), cases := t.cases[newCase.id := newCase]))
  {
    HoldCases(t, row, newCase);
    assert !HasRow(t.rows, row.tx.id);
  }

  lemma ResolveMoves(t: Tables, caseId: Uuid, resolution: Resolution, reviewer: Option<string>, why: Option<string>)
    requires CasesOk(t.rows, t.cases) && ResolveStored(t, caseId, resolution, reviewer, why).Ok?
    ensures CasesMoved(t, ResolveStored(t, caseId, resolution, reviewer, why).value)
  {
    ResolveCases(t, caseId, resolution, reviewer, why);
  }

  lemma ApiStepTables(c: Config, s: State, a: Action)
    requires Inv(c, s) && CaseInv(s) && IsApi(a) && ApiStep(c, s, a).Some?
    ensures CasesMoved(s.tables, ApiStep(c, s, a).value.tables)
  {
    assert WellFormed(s.tables) && CasesOk(s.tables.rows, s.tables.cases);
    match a {
      case Enqueue(row) => InsertCases(s.tables, row);
      case HoldRow(row, newCase) => HoldMoves(s.tables, row, newCase);
      case Resolve(caseId, resolution, reviewer, why) => ResolveMoves(s.tables, caseId, resolution, reviewer, why);
    }
  }

  lemma BaseIsCurrent(c: Config, s: State, p: nat)
    requires Inv(c, s) && p in s.processes && BaseOf(s.processes[p].phase).Some?
    ensures Current(s.tables, BaseOf(s.processes[p].phase).value)
  {
    assert PhaseInv(c, s.tables, s.processes[p]);
  }

  lemma ApiStepCases(c: Config, s: State, a: Action)
    requires ConfigOk(c) && Inv(c, s) && CaseInv(s) && IsApi(a) && ApiStep(c, s, a).Some?
    ensures CaseInv(ApiStep(c, s, a).value)
    ensures Clean(s) ==> Clean(ApiStep(c, s, a).value)
  {
    var next := ApiStep(c, s, a).value;
    ApiStepTables(c, s, a);
    assert next.processes == s.processes;
    forall p | p in next.processes && BaseOf(next.processes[p].phase).Some?
      ensures CasesCurrent(next.tables, BaseOf(next.processes[p].phase).value)
    {
      BaseIsCurrent(c, s, p);
      CasesMoveOn(s.tables, next.tables, BaseOf(next.processes[p].phase).value);
    }
  }

  /** The effect of a process step on rows and cases, and when it breaks the correspondence. */
  lemma ProcessStepTables(c: Config, s: State, a: Action, p: nat)
    requires ConfigOk(c) && Inv(c, s) && CaseInv(s) && ProcessStep(c, s, a, p).Some? && a.p == p && !IsApi(a)
    ensures var t, after := s.tables, ProcessStep(c, s, a, p).value.tables;
            && CasesOk(after.rows, after.cases)
            && (Clean(s) ==> (OpenIsHeld(after.rows, after.cases) <==> !StaleSave(s, a)))
            && (!(a.SaveBlock? && s.processes[p].phase.Built?) ==> after.cases == t.cases)
  {
    StepShape(c, s, a, p);
    var next := ProcessStep(c, s, a, p).value;
    if a.FilterOne? && s.processes[p].phase.Filtering? && next.tables != s.tables {
      RejectCases(s.tables, s.processes[p].phase.rest[0].id, a.reason);
    } else if a.SaveBlock? && s.processes[p].phase.Built? {
      SaveStepTables(c, s, p, a.snapshot);
    }
  }

  /** The save of a ledger loaded in step with the store. */
  lemma MergeTables(c: Config, t: Tables, l: Ledger, b: Block)
    requires WellFormed(t) && Ready(c.engine, c.crypto, t, l, b) && CasesOk(t.rows, t.cases) && CasesCurrent(t, l)
    ensures var after := Merge(t, ApplyBlock(l, b).value);
            && CasesOk(after.rows, after.cases)
            && after.cases == t.cases + l.cases
            && (OpenIsHeld(t.rows, t.cases) && LedgerOpenIsHeld(l) ==> (OpenIsHeld(after.rows, after.cases) <==> !StaleBlock(l, b)))
  {
    SaveCases(c, t, l, b);
    if StaleBlock(l, b) {
      StaleSaveBreaksOpenHeld(c, t, l, b);
    } else if OpenIsHeld(t.rows, t.cases) && LedgerOpenIsHeld(l) {
      FreshSaveKeepsOpenHeld(c, t, l, b);
    }
  }

  lemma SaveStepTables(c: Config, s: State, p: nat, snapshot: Snapshot)
    requires ConfigOk(c) && Inv(c, s) && CaseInv(s) && p in s.processes && s.processes[p].phase.Built?
    requires ProcessStep(c, s, SaveBlock(p, snapshot), p).Some?
    ensures var after := ProcessStep(c, s, SaveBlock(p, snapshot), p).value.tables;
            && CasesOk(after.rows, after.cases)
            && after.cases == s.tables.cases + s.processes[p].phase.base.cases
            && (Clean(s) ==> (OpenIsHeld(after.rows, after.cases) <==> !StaleSave(s, SaveBlock(p, snapshot))))
  {
    assert PhaseInv(c, s.tables, s.processes[p]);
    assert BaseOf(s.processes[p].phase) == Some(s.processes[p].phase.base);
    SaveStepInv(c, s, p, snapshot);
    MergeTables(c, s.tables, s.processes[p].phase.base, s.processes[p].phase.block);
  }

  /** After a save no process has a ledger loaded: the saver is done and the others are outside the lock. */
  lemma SaveLeavesNoLedger(c: Config, s: State, p: nat, snapshot: Snapshot)
    requires Inv(c, s) && p in s.processes && s.processes[p].phase.Built?
    requires ProcessStep(c, s, SaveBlock(p, snapshot), p).Some?
    ensures var next := ProcessStep(c, s, SaveBlock(p, snapshot), p).value;
            forall q | q in next.processes :: BaseOf(next.processes[q].phase) == None
  {
    SaveStepIs(c, s, p, snapshot);
    var next := ProcessStep(c, s, SaveBlock(p, snapshot), p).value;
    forall q | q in next.processes ensures BaseOf(next.processes[q].phase) == None {
      if q != p {
        OthersAreOutside(c, s, p, q);
      }
    }
  }

  /** A step may change the ledger in use of one process only, and only to what it loads now. */
  ghost predicate LedgersStep(s: State, p: nat, next: State) {
    && p in s.processes && next.processes.Keys == s.processes.Keys
    && (forall q | q in s.processes && q != p :: next.processes[q] == s.processes[q])
    && BaseOf(next.processes[p].phase) in {None, BaseOf(s.processes[p].phase), Some(Load(s.tables))}
  }

  lemma OtherStepCases(s: State, p: nat, next: State)
    requires WellFormed(s.tables) && CaseInv(s) && LedgersStep(s, p, next) && next.tables.cases == s.tables.cases
    ensures forall q | q in next.processes && BaseOf(next.processes[q].phase).Some? ::
              && CasesCurrent(next.tables, BaseOf(next.processes[q].phase).value)
              && (Clean(s) ==> LedgerOpenIsHeld(BaseOf(next.processes[q].phase).value))
  {
    LoadCases(s.tables);
    forall q | q in next.processes && BaseOf(next.processes[q].phase).Some?
      ensures CasesCurrent(next.tables, BaseOf(next.processes[q].phase).value)
      ensures Clean(s) ==> LedgerOpenIsHeld(BaseOf(next.processes[q].phase).value)
    {
      var l := BaseOf(next.processes[q].phase).value;
      assert BaseOf(s.processes[q].phase) == Some(l) || l == Load(s.tables);
      SameCasesCurrent(s.tables, next.tables, l);
    }
  }

  lemma SameCasesCurrent(a: Tables, b: Tables, l: Ledger)
    requires CasesCurrent(a, l) && b.cases == a.cases
    ensures CasesCurrent(b, l)
  {
  }

  lemma ProcessStepCases(c: Config, s: State, a: Action, p: nat)
    requires ConfigOk(c) && Inv(c, s) && CaseInv(s) && ProcessStep(c, s, a, p).Some? && a.p == p && !IsApi(a)
    ensures CaseInv(ProcessStep(c, s, a, p).value)
    ensures Clean(s) && !StaleSave(s, a) ==> Clean(ProcessStep(c, s, a, p).value)
  {
    ProcessStepTables(c, s, a, p);
    if a.SaveBlock? && s.processes[p].phase.Built? {
      SaveLeavesNoLedger(c, s, p, a.snapshot);
    } else {
      StepShape(c, s, a, p);
      OtherStepCases(s, p, ProcessStep(c, s, a, p).value);
    }
  }

  /** One step of anything keeps cases and rows in order, and breaks the correspondence exactly when it is a stale save. */
  lemma StepCases(c: Config, s: State, a: Action)
    requires ConfigOk(c) && Inv(c, s) && CaseInv(s) && StepState(c, s, a).Some?
    ensures var next := StepState(c, s, a).value;
            && CaseInv(next)
            && (Clean(s) ==> (OpenIsHeld(next.tables.rows, next.tables.cases) <==> !StaleSave(s, a)))
            && (Clean(s) && !StaleSave(s, a) ==> Clean(next))
  {
    if IsApi(a) {
      ApiStepCases(c, s, a);
    } else {
      ProcessStepTables(c, s, a, a.p);
      ProcessStepCases(c, s, a, a.p);
    }
  }

  // ---- Runs ----

  /** The state after the first `k` actions. */
  ghost function StateAt(c: Config, s: State, actions: seq<Action>, k: nat): State
    requires k <= |actions| && Execute(c, s, actions).Some?
  {
    PrefixRuns(c, s, actions, k);
    Execute(c, s, actions[..k]).value
  }

  lemma {:induction false} PrefixRuns(c: Config, s: State, actions: seq<Action>, k: nat)
    requires k <= |actions| && Execute(c, s, actions).Some?
    ensures Execute(c, s, actions[..k]).Some?
    decreases |actions|
  {
    if k == |actions| {
      assert actions[..k] == actions;
    } else {
      PrefixRuns(c, s, actions[..|actions| - 1], k);
      assert actions[..|actions| - 1][..k] == actions[..k];
    }
  }

  lemma {:induction false} StateAtStep(c: Config, s: State, actions: seq<Action>, k: nat)
    requires k < |actions| && Execute(c, s, actions).Some?
    ensures StepState(c, StateAt(c, s, actions, k), actions[k]) == Some(StateAt(c, s, actions, k + 1))
  {
    PrefixRuns(c, s, actions, k);
    PrefixRuns(c, s, actions, k + 1);
    assert actions[..k + 1][..k] == actions[..k];
  }

  /** After `k` actions every open case's payment is HELD. */
  ghost predicate HeldAt(c: Config, s: State, actions: seq<Action>, k: nat)
    requires k <= |actions| && Execute(c, s, actions).Some?
  {
    OpenIsHeld(StateAt(c, s, actions, k).tables.rows, StateAt(c, s, actions, k).tables.cases)
  }

  /** Action `k` is not a stale save. */
  ghost predicate FreshAt(c: Config, s: State, actions: seq<Action>, k: nat)
    requires k < |actions| && Execute(c, s, actions).Some?
  {
    !StaleSave(StateAt(c, s, actions, k), actions[k])
  }

  /** No action before `n` is a stale save. */
  ghost predicate FreshUpTo(c: Config, s: State, actions: seq<Action>, n: nat)
    requires n <= |actions| && Execute(c, s, actions).Some?
  {
    forall k: nat | k < n :: FreshAt(c, s, actions, k)
  }

  lemma {:induction false} RunInv(c: Config, s: State, actions: seq<Action>, k: nat)
    requires ConfigOk(c) && Initial(c, s) && Execute(c, s, actions).Some? && k <= |actions|
    ensures Inv(c, StateAt(c, s, actions, k))
  {
    InitialInv(c, s);
    PrefixRuns(c, s, actions, k);
    RunsKeepInv(c, s, actions[..k]);
  }

  lemma InitialCases(c: Config, s: State)
    requires Initial(c, s)
    ensures CaseInv(s) && Clean(s)
  {
  }

  lemma {:induction false} RunCases(c: Config, s: State, actions: seq<Action>, k: nat)
    requires ConfigOk(c) && Initial(c, s) && Execute(c, s, actions).Some? && k <= |actions|
    ensures Inv(c, StateAt(c, s, actions, k)) && CaseInv(StateAt(c, s, actions, k))
    ensures FreshUpTo(c, s, actions, k) ==> Clean(StateAt(c, s, actions, k))
    decreases k
  {
    RunInv(c, s, actions, k);
    if k == 0 {
      InitialCases(c, s);
      assert StateAt(c, s, actions, 0) == s;
    } else {
      RunCases(c, s, actions, k - 1);
      StateAtStep(c, s, actions, k - 1);
      StepCases(c, StateAt(c, s, actions, k - 1), actions[k - 1]);
      assert FreshAt(c, s, actions, k - 1) <==> !StaleSave(StateAt(c, s, actions, k - 1), actions[k - 1]);
    }
  }

  /** A HELD payment always has an open case: whoever holds a payment, its case can be found and resolved. */
  lemma {:induction false} HeldPaymentsHaveOpenCases(c: Config, s: State, actions: seq<Action>, r: Row)
    requires ConfigOk(c) && Initial(c, s) && Execute(c, s, actions).Some?
    requires r in Execute(c, s, actions).value.tables.rows && r.status.Held?
    ensures OpenCaseFor(Execute(c, s, actions).value.tables.cases, r.tx.id)
  {
    RunCases(c, s, actions, |actions|);
    assert actions[..|actions|] == actions;
  }

  lemma {:induction false} FreshRunHolds(c: Config, s: State, actions: seq<Action>, k: nat)
    requires ConfigOk(c) && Initial(c, s) && Execute(c, s, actions).Some? && k <= |actions|
    requires FreshUpTo(c, s, actions, k)
    ensures HeldAt(c, s, actions, k)
  {
    RunCases(c, s, actions, k);
  }

  lemma {:induction false} StillHeldMeansFresh(c: Config, s: State, actions: seq<Action>, k: nat)
    requires ConfigOk(c) && Initial(c, s) && Execute(c, s, actions).Some? && k < |actions|
    requires FreshUpTo(c, s, actions, k)
    requires HeldAt(c, s, actions, k + 1)
    ensures FreshAt(c, s, actions, k)
  {
    RunCases(c, s, actions, k);
    StateAtStep(c, s, actions, k);
    StepCases(c, StateAt(c, s, actions, k), actions[k]);
  }

  lemma {:induction false} OneMoreFresh(c: Config, s: State, actions: seq<Action>, n: nat)
    requires n < |actions| && Execute(c, s, actions).Some? && FreshUpTo(c, s, actions, n) && FreshAt(c, s, actions, n)
    ensures FreshUpTo(c, s, actions, n + 1)
  {
  }

  lemma {:induction false} HeldMeansFresh(c: Config, s: State, actions: seq<Action>, n: nat)
    requires ConfigOk(c) && Initial(c, s) && Execute(c, s, actions).Some? && n <= |actions|
    requires forall k: nat | k <= |actions| :: HeldAt(c, s, actions, k)
    ensures FreshUpTo(c, s, actions, n)
    decreases n
  {
    if n > 0 {
      HeldMeansFresh(c, s, actions, n - 1);
      StillHeldMeansFresh(c, s, actions, n - 1);
      OneMoreFresh(c, s, actions, n - 1);
    }
  }

  /**
    Over a whole run, every open case's payment is HELD at every moment exactly when no save finalizes a
    payment that its process had loaded as HELD. Such a save follows a case approved between the load and
    the reading of the queue: the payment becomes final and the save writes its case back as open.
   */
  lemma {:induction false} OpenCasesHeldIff(c: Config, s: State, actions: seq<Action>)
    requires ConfigOk(c) && Initial(c, s) && Execute(c, s, actions).Some?
    ensures (forall k: nat | k <= |actions| :: HeldAt(c, s, actions, k))
            <==> (forall k: nat | k < |actions| :: FreshAt(c, s, actions, k))
  {
    if forall k: nat | k < |actions| :: FreshAt(c, s, actions, k) {
      forall k: nat | k <= |actions| ensures HeldAt(c, s, actions, k) {
        FreshRunHolds(c, s, actions, k);
      }
    } else if forall k: nat | k <= |actions| :: HeldAt(c, s, actions, k) {
      HeldMeansFresh(c, s, actions, |actions|);
    }
  }

  // ---- Resolutions ----

  /** A save whose process had loaded case `k` while it was open. */
  predicate ReopeningSave(s: State, a: Action, k: Uuid) {
    && a.SaveBlock? && a.p in s.processes && s.processes[a.p].phase.Built?
    && k in s.processes[a.p].phase.base.cases && !s.processes[a.p].phase.base.cases[k].Terminal()
  }

  lemma SaveStepTerminal(c: Config, s: State, p: nat, snapshot: Snapshot, k: Uuid)
    requires ConfigOk(c) && Inv(c, s) && p in s.processes && s.processes[p].phase.Built?
    requires ProcessStep(c, s, SaveBlock(p, snapshot), p).Some? && k in s.tables.cases && s.tables.cases[k].Terminal()
    ensures var after := ProcessStep(c, s, SaveBlock(p, snapshot), p).value.tables.cases;
            k in after && (after[k].Terminal() <==> !ReopeningSave(s, SaveBlock(p, snapshot), k))
  {
    SaveStepInv(c, s, p, snapshot);
  }

  /** A resolved case stays resolved through every step but a reopening save, which always opens it again. */
  lemma ResolutionSurvivesIff(c: Config, s: State, a: Action, k: Uuid)
    requires ConfigOk(c) && Inv(c, s) && StepState(c, s, a).Some? && k in s.tables.cases && s.tables.cases[k].Terminal()
    ensures var after := StepState(c, s, a).value.tables.cases;
            k in after && (after[k].Terminal() <==> !ReopeningSave(s, a, k))
  {
    if !IsApi(a) {
      StepShape(c, s, a, a.p);
      if a.SaveBlock? && s.processes[a.p].phase.Built? {
        SaveStepTerminal(c, s, a.p, a.snapshot, k);
      }
    }
  }

  predicate Resolved(s: State, caseId: Uuid) {
    caseId in s.tables.cases && s.tables.cases[caseId].Terminal()
  }

  /** After `k` actions the case is resolved. */
  ghost predicate ResolvedAt(c: Config, s: State, actions: seq<Action>, caseId: Uuid, k: nat)
    requires k <= |actions| && Execute(c, s, actions).Some?
  {
    Resolved(StateAt(c, s, actions, k), caseId)
  }

  ghost predicate ReopensAt(c: Config, s: State, actions: seq<Action>, caseId: Uuid, k: nat)
    requires k < |actions| && Execute(c, s, actions).Some?
  {
    ReopeningSave(StateAt(c, s, actions, k), actions[k], caseId)
  }

  lemma {:induction false} ResolvedStep(c: Config, s: State, actions: seq<Action>, caseId: Uuid, k: nat)
    requires ConfigOk(c) && Initial(c, s) && Execute(c, s, actions).Some? && k < |actions|
    requires ResolvedAt(c, s, actions, caseId, k)
    ensures ResolvedAt(c, s, actions, caseId, k + 1) <==> !ReopensAt(c, s, actions, caseId, k)
  {
    RunInv(c, s, actions, k);
    StateAtStep(c, s, actions, k);
    ResolutionSurvivesIff(c, StateAt(c, s, actions, k), actions[k], caseId);
  }

  /** Where a property that held is lost. */
  lemma {:induction false} FindLoss<T>(states: seq<T>, p: T -> bool, i: nat, j: nat) returns (m: nat)
    requires i <= j < |states| && p(states[i]) && !p(states[j])
    ensures i <= m < j && p(states[m]) && !p(states[m + 1])
    decreases j
  {
    if p(states[j - 1]) {
      m := j - 1;
    } else {
      m := FindLoss(states, p, i, j - 1);
    }
  }

  lemma {:induction false} ResolveNeedsOpen(c: Config, s: State, actions: seq<Action>, k: nat)
    requires Execute(c, s, actions).Some? && k < |actions| && actions[k].Resolve?
    ensures !ResolvedAt(c, s, actions, actions[k].caseId, k) && ResolvedAt(c, s, actions, actions[k].caseId, k + 1)
  {
    StateAtStep(c, s, actions, k);
  }

  lemma {:induction false} LastResolution(c: Config, s: State, actions: seq<Action>, caseId: Uuid, i: nat, j: nat) returns (m: nat)
    requires Execute(c, s, actions).Some? && i <= j <= |actions|
    requires ResolvedAt(c, s, actions, caseId, i) && !ResolvedAt(c, s, actions, caseId, j)
    ensures i <= m < j && ResolvedAt(c, s, actions, caseId, m) && !ResolvedAt(c, s, actions, caseId, m + 1)
  {
    var states := seq(|actions| + 1, k requires 0 <= k <= |actions| => StateAt(c, s, actions, k));
    assert states[i] == StateAt(c, s, actions, i) && states[j] == StateAt(c, s, actions, j);
    assert Resolved(states[i], caseId) && !Resolved(states[j], caseId);
    m := FindLoss(states, (st: State) => Resolved(st, caseId), i, j);
    assert Resolved(states[m], caseId) && !Resolved(states[m + 1], caseId);
    assert states[m] == StateAt(c, s, actions, m) && states[m + 1] == StateAt(c, s, actions, m + 1);
  }

  lemma {:induction false} ReopeningBetween(c: Config, s: State, actions: seq<Action>, caseId: Uuid, i: nat, j: nat) returns (m: nat)
    requires ConfigOk(c) && Initial(c, s) && Execute(c, s, actions).Some? && i <= j <= |actions|
    requires ResolvedAt(c, s, actions, caseId, i) && !ResolvedAt(c, s, actions, caseId, j)
    ensures i <= m < j && ReopensAt(c, s, actions, caseId, m)
  {
    m := LastResolution(c, s, actions, caseId, i, j);
    ResolvedStep(c, s, actions, caseId, m);
  }

  /**
    A case resolved at one moment of a run is resolved at every later one exactly when no save in between
    opens it again.
   */
  lemma {:induction false} StaysResolvedIff(c: Config, s: State, actions: seq<Action>, caseId: Uuid, i: nat)
    requires ConfigOk(c) && Initial(c, s) && Execute(c, s, actions).Some? && i <= |actions| && ResolvedAt(c, s, actions, caseId, i)
    ensures (forall k: nat | i <= k <= |actions| :: ResolvedAt(c, s, actions, caseId, k))
            <==> (forall k: nat | i <= k < |actions| :: !ReopensAt(c, s, actions, caseId, k))
  {
    if forall k: nat | i <= k < |actions| :: !ReopensAt(c, s, actions, caseId, k) {
      forall k: nat | i <= k <= |actions| ensures ResolvedAt(c, s, actions, caseId, k) {
        if !ResolvedAt(c, s, actions, caseId, k) {
          var m := ReopeningBetween(c, s, actions, caseId, i, k);
          assert false;
        }
      }
    } else if forall k: nat | i <= k <= |actions| :: ResolvedAt(c, s, actions, caseId, k) {
      forall k: nat | i <= k < |actions| ensures !ReopensAt(c, s, actions, caseId, k) {
        assert ResolvedAt(c, s, actions, caseId, k + 1);
        ResolvedStep(c, s, actions, caseId, k);
      }
    }
  }

  /** A case is resolved a second time only after a save between the two has opened it again. */
  lemma ResolvedOnceUnlessReopened(c: Config, s: State, actions: seq<Action>, i: nat, j: nat) returns (m: nat)
    requires ConfigOk(c) && Initial(c, s) && Execute(c, s, actions).Some? && i < j < |actions|
    requires actions[i].Resolve? && actions[j].Resolve? && actions[i].caseId == actions[j].caseId
    ensures i < m < j && ReopensAt(c, s, actions, actions[i].caseId, m)
  {
    ResolveNeedsOpen(c, s, actions, i);
    ResolveNeedsOpen(c, s, actions, j);
    m := ReopeningBetween(c, s, actions, actions[i].caseId, i + 1, j);
  }
}

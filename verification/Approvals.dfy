/**
  A transfer above the policy limit is never finalized without an approval, in any interleaving of
  validators and API calls (crates/kani-api/src/lib.rs:885-989; crates/kani-node/src/lib.rs:819-915).
 */
module Approvals {
  import opened Wrappers
  import opened Types
  import opened Ledgers
  import opened LedgerCore
  import opened Store
  import opened Reload
  import opened Merging
  import opened Consensus
  import opened Blocks
  import opened Compliance
  import opened Protocol
  import opened Safety

  /** A transfer the policy sends to review. */
  predicate OverLimit(c: Config, tx: Transaction) {
    NeedsReview(c.policy, tx)
  }

  predicate Released(status: TransactionStatus) {
    status.Pending? || status.Finalized?
  }

  /** The ledger a process has loaded and still uses. */
  function BaseOf(phase: Phase): Option<Ledger> {
    match phase
    case Loaded(l) => Some(l)
    case Filtering(l, _, _) => Some(l)
    case Built(l, _) => Some(l)
    case _ => None
  }

  ghost predicate RowsApproved(c: Config, rows: seq<Row>, approved: set<Uuid>) {
    forall r | r in rows && OverLimit(c, r.tx) && Released(r.status) :: r.tx.id in approved
  }

  ghost predicate LedgerApproved(c: Config, l: Ledger, approved: set<Uuid>) {
    forall id | id in l.payments && OverLimit(c, l.payments[id].transaction) && Released(l.payments[id].status) :: id in approved
  }

  ghost predicate ApprovedInv(c: Config, s: State) {
    && RowsApproved(c, s.tables.rows, s.approved)
    && forall p | p in s.processes && BaseOf(s.processes[p].phase).Some? ::
         LedgerApproved(c, BaseOf(s.processes[p].phase).value, s.approved)
  }

  lemma MoveApproved(c: Config, rows: seq<Row>, id: Uuid, from: TransactionStatus, to: TransactionStatus, reason: Option<string>,
                     approved: set<Uuid>, more: set<Uuid>)
    requires RowsApproved(c, rows, approved) && approved <= more
    requires Released(to) ==> id in more
    ensures RowsApproved(c, MoveRow(rows, id, from, to, reason), more)
  {
    var after := MoveRow(rows, id, from, to, reason);
    forall r | r in after && OverLimit(c, r.tx) && Released(r.status) ensures r.tx.id in more {
      var i :| 0 <= i < |after| && after[i] == r;
      assert rows[i] in rows;
    }
  }

  lemma SaveApproved(c: Config, t: Tables, l: Ledger, b: Block, approved: set<Uuid>)
    requires WellFormed(t) && Ready(c.engine, c.crypto, t, l, b)
    requires RowsApproved(c, t.rows, approved) && LedgerApproved(c, l, approved)
    ensures RowsApproved(c, Merge(t, ApplyBlock(l, b).value).rows, approved)
  {
    var after := Merge(t, ApplyBlock(l, b).value).rows;
    forall r | r in after && OverLimit(c, r.tx) && Released(r.status) ensures r.tx.id in approved {
      var i :| 0 <= i < |after| && after[i] == r;
      MergedRow(c.engine, c.crypto, t, l, b, i);
      assert t.rows[i] in t.rows;
      if r.tx !in b.txs && r.tx.id in l.payments {
        assert Matches(t.rows[i], l.payments[r.tx.id]);
      }
    }
  }

  lemma LoadApproved(c: Config, t: Tables, approved: set<Uuid>)
    requires WellFormed(t) && RowsApproved(c, t.rows, approved)
    ensures LedgerApproved(c, Load(t), approved)
  {
    PaymentsOfLookup(t.rows, t.headers);
    var l := Load(t);
    forall id | id in l.payments && OverLimit(c, l.payments[id].transaction) && Released(l.payments[id].status)
      ensures id in approved
    {
      var i :| 0 <= i < |t.rows| && t.rows[i].tx.id == id;
      assert l.payments[id] == PaymentOf(t.rows[i], t.headers);
      assert t.rows[i] in t.rows;
    }
  }

  lemma ApiStepApproved(c: Config, s: State, a: Action)
    requires Inv(c, s) && ApprovedInv(c, s) && IsApi(a) && ApiStep(c, s, a).Some?
    ensures ApprovedInv(c, ApiStep(c, s, a).value)
  {
    var next := ApiStep(c, s, a).value;
    match a {
      case Enqueue(row) => InsertExtends(s.tables, row, s.tables.cases);
      case HoldRow(row, newCase) => InsertExtends(s.tables, row, s.tables.cases);
      case Resolve(caseId, resolution, _, _) =>
        var id := s.tables.cases[caseId].paymentId;
        if resolution.Approval? {
          MoveApproved(c, s.tables.rows, id, Held, Pending, None, s.approved, next.approved);
        } else {
          MoveApproved(c, s.tables.rows, id, Held, Rejected, Some(resolution.reason), s.approved, next.approved);
        }
    }
  }

  /** What a process step may change: its own process, and the rows in one of two ways. */
  lemma StepShape(c: Config, s: State, a: Action, p: nat)
    requires ProcessStep(c, s, a, p).Some?
    ensures var next := ProcessStep(c, s, a, p).value;
            && next.approved == s.approved && next.processes.Keys == s.processes.Keys
            && (forall q | q in s.processes && q != p :: next.processes[q] == s.processes[q])
            && var before, after := s.processes[p].phase, next.processes[p].phase;
               && (BaseOf(after) == None || BaseOf(after) == BaseOf(before) || BaseOf(after) == Some(Load(s.tables)))
               && (|| next.tables == s.tables
                   || (a.FilterOne? && before.Filtering? && before.rest != []
                       && next.tables == s.tables.(rows := RejectRow(s.tables.rows, before.rest[0].id, a.reason)))
                   || (a.SaveBlock? && before.Built? && after == Finishing
                       && ProcessStep(c, s, SaveBlock(p, a.snapshot), p) == Some(next)))
  {
  }

  lemma StepRowsApproved(c: Config, s: State, a: Action, p: nat)
    requires ConfigOk(c) && Inv(c, s) && ApprovedInv(c, s) && ProcessStep(c, s, a, p).Some?
    ensures RowsApproved(c, ProcessStep(c, s, a, p).value.tables.rows, s.approved)
  {
    StepShape(c, s, a, p);
    var next := ProcessStep(c, s, a, p).value;
    if next.tables != s.tables {
      if a.FilterOne? {
        MoveApproved(c, s.tables.rows, s.processes[p].phase.rest[0].id, Pending, Rejected, Some(a.reason), s.approved, s.approved);
      } else {
        assert PhaseInv(c, s.tables, s.processes[p]);
        SaveStepInv(c, s, p, a.snapshot);
        SaveApproved(c, s.tables, s.processes[p].phase.base, s.processes[p].phase.block, s.approved);
      }
    }
  }

  lemma ProcessStepApproved(c: Config, s: State, a: Action, p: nat)
    requires ConfigOk(c) && Inv(c, s) && ApprovedInv(c, s) && ProcessStep(c, s, a, p).Some?
    ensures ApprovedInv(c, ProcessStep(c, s, a, p).value)
  {
    StepRowsApproved(c, s, a, p);
    StepShape(c, s, a, p);
    LoadApproved(c, s.tables, s.approved);
    var next := ProcessStep(c, s, a, p).value;
    forall q | q in next.processes && BaseOf(next.processes[q].phase).Some?
      ensures LedgerApproved(c, BaseOf(next.processes[q].phase).value, next.approved)
    {
      assert q in s.processes;
    }
  }

  lemma {:induction false} RunsApproved(c: Config, s: State, actions: seq<Action>)
    requires ConfigOk(c) && Initial(c, s) && Execute(c, s, actions).Some?
    ensures Inv(c, Execute(c, s, actions).value) && ApprovedInv(c, Execute(c, s, actions).value)
    decreases |actions|
  {
    InitialInv(c, s);
    RunsKeepInv(c, s, actions);
    if actions != [] {
      var front, a := actions[..|actions| - 1], actions[|actions| - 1];
      RunsApproved(c, s, front);
      var m := Execute(c, s, front).value;
      if IsApi(a) {
        ApiStepApproved(c, m, a);
      } else {
        ProcessStepApproved(c, m, a, a.p);
      }
    }
  }

  /** What the approval history records: an open case of that payment was approved at that moment of the run. */
  ghost predicate ApprovedAt(c: Config, s: State, actions: seq<Action>, k: nat, id: Uuid) {
    && k < |actions| && actions[k].Resolve? && actions[k].resolution.Approval?
    && Execute(c, s, actions[..k]).Some?
    && var t := Execute(c, s, actions[..k]).value.tables;
       actions[k].caseId in t.cases && !t.cases[actions[k].caseId].Terminal() && t.cases[actions[k].caseId].paymentId == id
  }

  lemma {:induction false} HistoryIsTrue(c: Config, s: State, actions: seq<Action>, id: Uuid) returns (k: nat)
    requires s.approved == {} && Execute(c, s, actions).Some? && id in Execute(c, s, actions).value.approved
    ensures ApprovedAt(c, s, actions, k, id)
    decreases |actions|
  {
    var front, a := actions[..|actions| - 1], actions[|actions| - 1];
    var m := Execute(c, s, front).value;
    if id in m.approved {
      k := HistoryIsTrue(c, s, front, id);
      assert front[..k] == actions[..k];
    } else {
      k := |actions| - 1;
      NewApproval(c, m, a, id);
    }
  }

  /** A step adds to the history only by approving an open case of that payment. */
  lemma NewApproval(c: Config, m: State, a: Action, id: Uuid)
    requires StepState(c, m, a).Some? && id !in m.approved && id in StepState(c, m, a).value.approved
    ensures a.Resolve? && a.resolution.Approval? && a.caseId in m.tables.cases
    ensures !m.tables.cases[a.caseId].Terminal() && m.tables.cases[a.caseId].paymentId == id
  {
    if !IsApi(a) {
      StepShape(c, m, a, a.p);
    }
  }

  /**
    In every interleaving, a transfer above the policy limit that is in the stored chain had its case
    approved, while open, at an earlier moment of the run.
   */
  lemma NoFinalityWithoutApproval(c: Config, s: State, actions: seq<Action>, tx: Transaction) returns (k: nat)
    requires ConfigOk(c) && Initial(c, s) && Execute(c, s, actions).Some?
    requires tx in AllTxs(Chain(Execute(c, s, actions).value.tables)) && OverLimit(c, tx)
    ensures ApprovedAt(c, s, actions, k, tx.id)
  {
    RunsApproved(c, s, actions);
    var end := Execute(c, s, actions).value;
    ChainHoldsFinalizedRows(end.tables, tx);
    var i :| 0 <= i < |end.tables.rows| && end.tables.rows[i].tx == tx && end.tables.rows[i].status.Finalized?;
    assert end.tables.rows[i] in end.tables.rows;
    k := HistoryIsTrue(c, s, actions, tx.id);
  }
}

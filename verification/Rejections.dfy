/**
  REJECTED in the store, over every step and every run (crates/kani-ledger/src/lib.rs:1651-1672, 2052-2090;
  crates/kani-node/src/lib.rs:873-910): a rejected payment stays rejected exactly until a save writes back
  another status its process had loaded, and such a run exists from every start over the sandbox.
 */
module Rejections {
  import opened Wrappers
  import opened Types
  import opened Ledgers
  import opened LedgerCore
  import opened Store
  import opened Reload
  import opened Merging
  import opened Consensus
  import opened Blocks
  import opened Selection
  import opened Protocol
  import opened Approvals
  import opened Safety
  import opened CaseRuns
  import opened Passes
  import opened Uninterrupted
  import opened StaleRun
  import opened WriteBack

  predicate IsRejected(rows: seq<Row>, id: Uuid) {
    exists i :: 0 <= i < |rows| && rows[i].tx.id == id && rows[i].status.Rejected?
  }

  /** A save whose process had loaded the payment with another status. */
  predicate RestoringSave(s: State, a: Action, id: Uuid) {
    && a.SaveBlock? && a.p in s.processes && s.processes[a.p].phase.Built?
    && id in s.processes[a.p].phase.base.payments && !s.processes[a.p].phase.base.payments[id].status.Rejected?
  }

  lemma MoveKeepsRejected(rows: seq<Row>, id: Uuid, from: TransactionStatus, to: TransactionStatus, reason: Option<string>, x: Uuid)
    requires IsRejected(rows, x) && !from.Rejected?
    ensures IsRejected(MoveRow(rows, id, from, to, reason), x)
  {
    var i :| 0 <= i < |rows| && rows[i].tx.id == x && rows[i].status.Rejected?;
    assert MoveRow(rows, id, from, to, reason)[i] == rows[i];
  }

  lemma {:induction false} InsertKeepsRejected(t: Tables, r: Row, x: Uuid)
    requires WellFormed(t) && Insertable(t, r) && !r.status.Finalized? && IsRejected(t.rows, x)
    ensures IsRejected(InsertRow(t.rows, r), x)
  {
    InsertExtends(t, r, t.cases);
    var i :| 0 <= i < |t.rows| && t.rows[i].tx.id == x && t.rows[i].status.Rejected?;
    assert t.rows[i] in InsertRow(t.rows, r);
  }

  lemma ApiStepKeepsRejected(c: Config, s: State, a: Action, id: Uuid)
    requires WellFormed(s.tables) && IsApi(a) && ApiStep(c, s, a).Some? && IsRejected(s.tables.rows, id)
    ensures IsRejected(ApiStep(c, s, a).value.tables.rows, id)
  {
    match a {
      case Enqueue(row) => InsertKeepsRejected(s.tables, row, id);
      case HoldRow(row, _) => InsertKeepsRejected(s.tables, row, id);
      case Resolve(k, resolution, _, _) =>
        var payment := s.tables.cases[k].paymentId;
        MoveKeepsRejected(s.tables.rows, payment, Held, Pending, None, id);
        if resolution.Rejection? {
          MoveKeepsRejected(s.tables.rows, payment, Held, Rejected, Some(resolution.reason), id);
        }
    }
  }

  /** The saved row of an id is at the place it was. */
  lemma SavedRowIs(c: Config, t: Tables, l: Ledger, b: Block, i: nat)
    requires WellFormed(t) && Ready(c.engine, c.crypto, t, l, b) && i < |t.rows|
    ensures var after := Merge(t, ApplyBlock(l, b).value).rows;
            |after| == |t.rows| && forall j | 0 <= j < |after| && after[j].tx.id == t.rows[i].tx.id :: j == i
    ensures Merge(t, ApplyBlock(l, b).value).rows[i].tx == t.rows[i].tx
  {
    var after := Merge(t, ApplyBlock(l, b).value).rows;
    assert forall j | 0 <= j < |after| :: after[j].tx == t.rows[j].tx;
  }

  lemma SavedRejected(c: Config, t: Tables, l: Ledger, b: Block, i: nat)
    requires WellFormed(t) && Ready(c.engine, c.crypto, t, l, b) && i < |t.rows| && t.rows[i].status.Rejected?
    ensures var id := t.rows[i].tx.id;
            IsRejected(Merge(t, ApplyBlock(l, b).value).rows, id) <==> (id in l.payments ==> l.payments[id].status.Rejected?)
  {
    MergedRow(c.engine, c.crypto, t, l, b, i);
    SavedRowIs(c, t, l, b, i);
  }

  lemma SaveStepRejected(c: Config, s: State, p: nat, snapshot: Snapshot, id: Uuid)
    requires ConfigOk(c) && Inv(c, s) && p in s.processes && s.processes[p].phase.Built?
    requires ProcessStep(c, s, SaveBlock(p, snapshot), p).Some? && IsRejected(s.tables.rows, id)
    ensures IsRejected(ProcessStep(c, s, SaveBlock(p, snapshot), p).value.tables.rows, id) <==> !RestoringSave(s, SaveBlock(p, snapshot), id)
  {
    var i: nat :| i < |s.tables.rows| && s.tables.rows[i].tx.id == id && s.tables.rows[i].status.Rejected?;
    assert WellFormed(s.tables) && Ready(c.engine, c.crypto, s.tables, s.processes[p].phase.base, s.processes[p].phase.block) by {
      assert PhaseInv(c, s.tables, s.processes[p]);
    }
    SaveStepInv(c, s, p, snapshot);
    SavedRejected(c, s.tables, s.processes[p].phase.base, s.processes[p].phase.block, i);
  }

  /** A rejected payment stays rejected through every step but a restoring save, which always changes it. */
  lemma StaysRejectedStep(c: Config, s: State, a: Action, id: Uuid)
    requires ConfigOk(c) && Inv(c, s) && StepState(c, s, a).Some? && IsRejected(s.tables.rows, id)
    ensures IsRejected(StepState(c, s, a).value.tables.rows, id) <==> !RestoringSave(s, a, id)
  {
    assert WellFormed(s.tables);
    if IsApi(a) {
      ApiStepKeepsRejected(c, s, a, id);
    } else {
      StepShape(c, s, a, a.p);
      if a.SaveBlock? && s.processes[a.p].phase.Built? {
        SaveStepRejected(c, s, a.p, a.snapshot, id);
      } else if a.FilterOne? && s.processes[a.p].phase.Filtering? && s.processes[a.p].phase.rest != [] {
        MoveKeepsRejected(s.tables.rows, s.processes[a.p].phase.rest[0].id, Pending, Rejected, Some(a.reason), id);
      }
    }
  }

  // ---- Runs ----

  ghost predicate RejectedAt(c: Config, s: State, actions: seq<Action>, id: Uuid, k: nat)
    requires k <= |actions| && Execute(c, s, actions).Some?
  {
    IsRejected(StateAt(c, s, actions, k).tables.rows, id)
  }

  ghost predicate RestoredAt(c: Config, s: State, actions: seq<Action>, id: Uuid, k: nat)
    requires k < |actions| && Execute(c, s, actions).Some?
  {
    RestoringSave(StateAt(c, s, actions, k), actions[k], id)
  }

  lemma {:induction false} RejectedStep(c: Config, s: State, actions: seq<Action>, id: Uuid, k: nat)
    requires ConfigOk(c) && Initial(c, s) && Execute(c, s, actions).Some? && k < |actions| && RejectedAt(c, s, actions, id, k)
    ensures RejectedAt(c, s, actions, id, k + 1) <==> !RestoredAt(c, s, actions, id, k)
  {
    RunInv(c, s, actions, k);
    StateAtStep(c, s, actions, k);
    StaysRejectedStep(c, StateAt(c, s, actions, k), actions[k], id);
  }

  lemma {:induction false} StatesOf(c: Config, s: State, actions: seq<Action>) returns (states: seq<State>)
    requires Execute(c, s, actions).Some?
    ensures |states| == |actions| + 1 && forall k | 0 <= k <= |actions| :: states[k] == StateAt(c, s, actions, k)
  {
    states := seq(|actions| + 1, k requires 0 <= k <= |actions| => StateAt(c, s, actions, k));
  }

  lemma {:induction false} LossIn(states: seq<State>, id: Uuid, i: nat, j: nat) returns (m: nat)
    requires i <= j < |states| && IsRejected(states[i].tables.rows, id) && !IsRejected(states[j].tables.rows, id)
    ensures i <= m < j && IsRejected(states[m].tables.rows, id) && !IsRejected(states[m + 1].tables.rows, id)
  {
    m := FindLoss(states, (st: State) => IsRejected(st.tables.rows, id), i, j);
  }

  lemma {:induction false} LastRejection(c: Config, s: State, actions: seq<Action>, id: Uuid, i: nat, j: nat) returns (m: nat)
    requires Execute(c, s, actions).Some? && i <= j <= |actions|
    requires RejectedAt(c, s, actions, id, i) && !RejectedAt(c, s, actions, id, j)
    ensures i <= m < j && RejectedAt(c, s, actions, id, m) && !RejectedAt(c, s, actions, id, m + 1)
  {
    var states := StatesOf(c, s, actions);
    m := LossIn(states, id, i, j);
  }

  lemma {:induction false} RestoringBetween(c: Config, s: State, actions: seq<Action>, id: Uuid, i: nat, j: nat) returns (m: nat)
    requires ConfigOk(c) && Initial(c, s) && Execute(c, s, actions).Some? && i <= j <= |actions|
    requires RejectedAt(c, s, actions, id, i) && !RejectedAt(c, s, actions, id, j)
    ensures i <= m < j && RestoredAt(c, s, actions, id, m)
  {
    m := LastRejection(c, s, actions, id, i, j);
    RejectedStep(c, s, actions, id, m);
  }

  /** A payment rejected at one moment of a run is rejected at every later one exactly when no save in between restores it. */
  lemma {:induction false} StaysRejectedIff(c: Config, s: State, actions: seq<Action>, id: Uuid, i: nat)
    requires ConfigOk(c) && Initial(c, s) && Execute(c, s, actions).Some? && i <= |actions| && RejectedAt(c, s, actions, id, i)
    ensures (forall k: nat | i <= k <= |actions| :: RejectedAt(c, s, actions, id, k))
            <==> (forall k: nat | i <= k < |actions| :: !RestoredAt(c, s, actions, id, k))
  {
    if forall k: nat | i <= k < |actions| :: !RestoredAt(c, s, actions, id, k) {
      forall k: nat | i <= k <= |actions| ensures RejectedAt(c, s, actions, id, k) {
        if !RejectedAt(c, s, actions, id, k) {
          var m := RestoringBetween(c, s, actions, id, i, k);
          assert false;
        }
      }
    } else if forall k: nat | i <= k <= |actions| :: RejectedAt(c, s, actions, id, k) {
      forall k: nat | i <= k < |actions| ensures !RestoredAt(c, s, actions, id, k) {
        assert RejectedAt(c, s, actions, id, k + 1);
        RejectedStep(c, s, actions, id, k);
      }
    }
  }

  // ---- A concrete run ----

  /** CORP_B asks to redeem what it does not have, behind the funding of CORP_A. */
  const DEBT := Transaction(3, CORP_B_ACCOUNT, TREASURY_ACCOUNT, KCAD_TEST, 1, 1, Burn, map[], 1)
  const DEBT_ROW := Row(DEBT, Pending, None, None, None, None)

  /** The sandbox with any engine, crypto, digest and policy; the first leader is idle and takes at least two transactions. */
  ghost predicate MixedStart(c: Config, s: State, p: nat) {
    && ConfigOk(c) && c.genesis == Sandbox() && c.maxTransactions >= 2
    && Initial(c, s) && p in s.processes && c.engine.LeaderForHeight(1) == Ok(s.processes[p].validator)
  }

  function Queueing(s: State): State {
    s.(tables := s.tables.(rows := [FUNDING_ROW, DEBT_ROW]))
  }

  lemma {:induction false} QueueingRun(c: Config, s: State, p: nat)
    requires MixedStart(c, s, p)
    ensures Execute(c, s, [Enqueue(FUNDING_ROW), Enqueue(DEBT_ROW)]) == Some(Queueing(s))
  {
    FundingIsQueued(c, s);
    assert TREASURY_ACCOUNT in s.tables.accounts && CORP_B_ACCOUNT in s.tables.accounts;
    DebtIsQueued(c, s);
    ExecuteSnoc(c, s, [Enqueue(FUNDING_ROW)], Enqueue(DEBT_ROW));
    assert [Enqueue(FUNDING_ROW)] + [Enqueue(DEBT_ROW)] == [Enqueue(FUNDING_ROW), Enqueue(DEBT_ROW)];
  }

  lemma {:induction false} DebtIsQueued(c: Config, s: State)
    requires TREASURY_ACCOUNT in s.tables.accounts && CORP_B_ACCOUNT in s.tables.accounts
    ensures StepState(c, Funded(s), Enqueue(DEBT_ROW)) == Some(Queueing(s))
  {
    assert InsertRow([], DEBT_ROW) == [DEBT_ROW];
    assert [FUNDING_ROW][1..] == [];
    assert InsertRow([FUNDING_ROW], DEBT_ROW) == [FUNDING_ROW, DEBT_ROW];
    assert TREASURY_ACCOUNT != CORP_B_ACCOUNT;
  }

  lemma {:induction false} MixedQueue(limit: nat)
    requires limit >= 2
    ensures PendingPage([FUNDING_ROW, DEBT_ROW], limit) == [FUNDING, DEBT]
  {
    assert [FUNDING_ROW, DEBT_ROW][..1] == [FUNDING_ROW] && [FUNDING_ROW][..0] == [];
    assert PendingTxs([]) == [] && PendingTxs([FUNDING_ROW]) == [FUNDING];
  }

  lemma MintTouchesOneRow(accounts: Accounts, tx: Transaction, height: int, w: Working, k: (AccountId, Asset))
    requires tx.kind.Mint? && StepTransaction(accounts, tx, height, w).Ok? && k != (tx.to, tx.asset)
    ensures Get(StepTransaction(accounts, tx, height, w).value.balances, k) == Get(w.balances, k)
  {
  }

  lemma {:induction false} FundingLeavesOthers(w: Working)
    requires w == Sandbox().working
    ensures ApplyAll(Sandbox().accounts, [FUNDING], 1, w).Ok?
    ensures Get(ApplyAll(Sandbox().accounts, [FUNDING], 1, w).value.balances, (CORP_B_ACCOUNT, KCAD_TEST)) == 0
  {
    FundingIsValid(w);
    ApplyAllOne(Sandbox().accounts, FUNDING, 1, w);
    MintTouchesOneRow(Sandbox().accounts, FUNDING, 1, w, (CORP_B_ACCOUNT, KCAD_TEST));
  }

  lemma {:induction false} DebtIsRefused(v: Working)
    requires Get(v.balances, (CORP_B_ACCOUNT, KCAD_TEST)) == 0
    ensures ValidateTransaction(Sandbox().accounts, DEBT, v).Err?
  {
  }

  lemma {:induction false} DebtIsInvalid(w: Working)
    requires w == Sandbox().working
    ensures ApplyAll(Sandbox().accounts, [FUNDING, DEBT], 1, w).Err?
  {
    FundingLeavesOthers(w);
    DebtIsRefused(ApplyAll(Sandbox().accounts, [FUNDING], 1, w).value);
    ApplyAllSnoc(Sandbox().accounts, [FUNDING], DEBT, 1, w);
    assert [FUNDING] + [DEBT] == [FUNDING, DEBT];
  }

  lemma {:induction false} OneOfTwo(l: Ledger, x: Transaction, y: Transaction)
    requires l.DryRun([x]).Ok? && l.DryRun([x, y]).Err?
    ensures Revalidated(l, [x, y]).accepted == [x]
  {
    OneOfOne(l, x);
    assert [x, y][..1] == [x] && [x] + [y] == [x, y];
  }

  lemma {:induction false} FreshLedger(c: Config, s: State, p: nat)
    requires MixedStart(c, s, p)
    ensures Load(Queueing(s).tables).working == Sandbox().working && Load(Queueing(s).tables).accounts == Sandbox().accounts
    ensures Load(Queueing(s).tables).NextHeight() == 1
  {
    var rows := [FUNDING_ROW, DEBT_ROW];
    assert rows[..1] == [FUNDING_ROW] && [FUNDING_ROW][..0] == [];
    assert ScanNonces([]) == map[] && ScanIssued([]) == map[];
    assert ScanNonces([FUNDING_ROW]) == map[] && ScanIssued([FUNDING_ROW]) == map[];
    assert Chain(Queueing(s).tables) == [];
  }

  lemma {:induction false} MixedSelection(c: Config, s: State, p: nat)
    requires MixedStart(c, s, p)
    ensures var t := Queueing(s).tables;
            PendingPage(t.rows, c.maxTransactions) == [FUNDING, DEBT] && Selected(c, t) == [FUNDING]
            && LeadsStore(c, t, s.processes[p].validator)
  {
    FreshLedger(c, s, p);
    MixedQueue(c.maxTransactions);
    FundingIsValid(Sandbox().working);
    DebtIsInvalid(Sandbox().working);
    OneOfTwo(Load(Queueing(s).tables), FUNDING, DEBT);
  }

  /** A mixed page is reachable from every start over the sandbox. */
  lemma {:induction false} MixedPageIsReached(c: Config, s: State, p: nat)
    requires MixedStart(c, s, p)
    ensures Execute(c, s, [Enqueue(FUNDING_ROW), Enqueue(DEBT_ROW)]) == Some(Queueing(s))
    ensures MixedPage(c, Queueing(s), p, DEBT)
  {
    QueueingRun(c, s, p);
    InitialInv(c, s);
    RunsKeepInv(c, s, [Enqueue(FUNDING_ROW), Enqueue(DEBT_ROW)]);
    MixedSelection(c, s, p);
    SandboxIsKeyed();
    assert Undisturbed(c, Queueing(s), p);
    assert DEBT in [FUNDING, DEBT] && DEBT !in [FUNDING];
  }

  /** So from every start over the sandbox some run rejects a payment and later has it PENDING again. */
  lemma {:induction false} RestoredRunExists(c: Config, s: State, p: nat, now: int) returns (run: seq<Action>, k: nat)
    requires MixedStart(c, s, p)
    ensures Execute(c, s, run).Some? && k <= |run| && Execute(c, s, run[..k]).Some?
    ensures HasStatus(Execute(c, s, run[..k]).value.tables.rows, DEBT, Rejected)
    ensures HasStatus(Execute(c, s, run).value.tables.rows, DEBT, Pending)
  {
    MixedPageIsReached(c, s, p);
    var queueing := [Enqueue(FUNDING_ROW), Enqueue(DEBT_ROW)];
    var filtered, saved := RejectedComesBack(c, Queueing(s), p, DEBT, now);
    ExecuteConcat(c, s, queueing, filtered);
    ExecuteConcat(c, s, queueing, filtered + saved);
    run, k := queueing + (filtered + saved), |queueing + filtered|;
    assert run[..k] == queueing + filtered;
  }
}

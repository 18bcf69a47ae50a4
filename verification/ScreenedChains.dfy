/**
  What screening (crates/kani-compliance/src/lib.rs:97-146) makes of the finalized chain, in the in-memory node
  (crates/kani-api/src/lib.rs:885-957) and in every run over the store.
 */
module ScreenedChains {
  import opened Wrappers
  import opened Types
  import opened Ledgers
  import opened Store
  import opened Reload
  import opened Merging
  import opened Blocks
  import opened Compliance
  import opened Idempotency
  import opened Node
  import opened NodeRuns
  import Text
  import F = ChainFacts
  import P = Protocol
  import K = StoredKeys
  import A = Approvals
  import S = Safety
  import C = LedgerCore

  /** The fields of a payment, trimmed, are on the policy's lists. */
  ghost predicate Listed(policy: Policy, tx: Transaction) {
    && (exists f :: Text.TrimsTo(tx.from, f) && f in policy.allowedAccounts)
    && (exists t :: Text.TrimsTo(tx.to, t) && t in policy.allowedAccounts)
    && (exists a :: Text.TrimsTo(tx.asset, a) && Coded(policy, a))
    && (policy.allowSelfTransfers || forall core :: !(Text.TrimsTo(tx.from, core) && Text.TrimsTo(tx.to, core)))
  }

  lemma PassedIsListed(policy: Policy, tx: Transaction)
    requires !ScreenTx(policy, tx).Deny?
    ensures Listed(policy, tx) && tx.amount > 0 && (ScreenTx(policy, tx).Review? <==> tx.amount > policy.maxPaymentAmount)
  {
    var f, t, a := Text.Trim(tx.from), Text.Trim(tx.to), Text.Trim(tx.asset);
    Text.TrimIff(tx.from, f);
    Text.TrimIff(tx.to, t);
    Text.TrimIff(tx.asset, a);
    ScreenIff(policy, tx.from, tx.to, tx.asset, tx.amount, f, t, a);
    forall core | Text.TrimsTo(tx.from, core) && Text.TrimsTo(tx.to, core) ensures policy.allowSelfTransfers {
      Text.TrimIff(tx.from, core);
      Text.TrimIff(tx.to, core);
    }
  }

  // ---- The in-memory node ----

  /** Mints and burns are the only transactions produced without screening. */
  predicate IssuesOnly(calls: seq<Call>) {
    forall i | 0 <= i < |calls| :: calls[i].IssueCall? ==> !calls[i].kind.Transfer?
  }

  /** A call leaves the chain as it was, or appends one transaction: an allowed transfer, a mint or a burn. */
  lemma CallExtends(config: NodeConfig, l: Ledger, call: Call)
    requires call.IssueCall? ==> !call.kind.Transfer?
    ensures var before, after := C.AllTxs(l.blocks), C.AllTxs(Do(config, l, call).blocks);
            after == before
            || exists tx :: after == before + [tx] && (tx.kind.Transfer? ==> ScreenTx(config.policy, tx).Allow?)
  {
    match call {
      case SubmitCall(r, id, k, now) => SubmissionExtends(config, l, r, id, k, now);
      case IssueCall(kind, from, to, asset, amount, id, now) =>
        var tx := Transaction(id, from, to, asset, amount, l.NextNonce(from), kind, map[], now);
        if Produce(l, [tx], config.engine, config.crypto, now).Ok? {
          ProduceOne(config, l, tx, now);
        }
      case _ =>
    }
  }

  lemma SubmissionExtends(config: NodeConfig, l: Ledger, r: Request, id: Uuid, k: Uuid, now: int)
    ensures var before, after := C.AllTxs(l.blocks), C.AllTxs(Do(config, l, SubmitCall(r, id, k, now)).blocks);
            after == before
            || exists tx :: after == before + [tx] && (tx.kind.Transfer? ==> ScreenTx(config.policy, tx).Allow?)
  {
    if !Screen(config.policy, r.from, r.to, r.asset, r.amount).decision.Allow? {
      HeldOrRefusedKeepsBlocks(config, l, r, id, k, now);
    } else {
      SubmitOutcome(config, l, r, id, k, now);
      var tx := TransferTx(config, l, r, id, now);
      if Produce(l, [tx], config.engine, config.crypto, now).Ok? {
        ProduceOne(config, l, tx, now);
        assert ScreenTx(config.policy, tx).Allow?;
      }
    }
  }

  lemma HeldOrRefusedKeepsBlocks(config: NodeConfig, l: Ledger, r: Request, id: Uuid, k: Uuid, now: int)
    requires !Screen(config.policy, r.from, r.to, r.asset, r.amount).decision.Allow?
    ensures Do(config, l, SubmitCall(r, id, k, now)).blocks == l.blocks
  {
    var screened := Screen(config.policy, r.from, r.to, r.asset, r.amount);
    DispatchKeepsBlocks(config, l, screened, r, id, k, now);
  }

  lemma DispatchKeepsBlocks(config: NodeConfig, l: Ledger, screened: ComplianceResult, r: Request, id: Uuid, k: Uuid, now: int)
    requires !screened.decision.Allow?
    ensures var result := Dispatched(config, l, screened, r, id, k, now);
            result.Ok? ==> result.value.0.blocks == l.blocks
  {
  }

  lemma {:induction false} ChainIsAllowed(config: NodeConfig, calls: seq<Call>, tx: Transaction)
    requires IssuesOnly(calls) && tx in C.AllTxs(DoAll(config, Sandbox(), calls).blocks) && tx.kind.Transfer?
    ensures ScreenTx(config.policy, tx).Allow?
    decreases |calls|
  {
    if calls != [] {
      var front := calls[..|calls| - 1];
      var l := DoAll(config, Sandbox(), front);
      CallExtends(config, l, calls[|calls| - 1]);
      if tx in C.AllTxs(l.blocks) {
        ChainIsAllowed(config, front, tx);
      }
    }
  }

  lemma SandboxNamesAreTrimmed(account: AccountId)
    requires account in Sandbox().accounts
    ensures Text.Trimmed(account)
  {
  }

  /**
    Whatever callers ask of the in-memory node, every transfer in its chain is between two accounts of the allow
    list, in an allowed asset, of a positive amount within the limit, and to another account unless the policy
    allows self transfers.
   */
  lemma {:induction false} TransfersAreBetweenListed(config: NodeConfig, calls: seq<Call>, tx: Transaction)
    requires IssuesOnly(calls) && tx in C.AllTxs(DoAll(config, Sandbox(), calls).blocks) && tx.kind.Transfer?
    ensures tx.from in config.policy.allowedAccounts && tx.to in config.policy.allowedAccounts
    ensures exists a :: Text.TrimsTo(tx.asset, a) && Coded(config.policy, a)
    ensures 0 < tx.amount <= config.policy.maxPaymentAmount
    ensures tx.from == tx.to ==> config.policy.allowSelfTransfers
  {
    ChainIsAllowed(config, calls, tx);
    PassedIsListed(config.policy, tx);
    var ops := RunIsLedgerRun(config, calls);
    F.MintsComeFromTreasury(ops, tx);
    ListedByName(config.policy, tx.from);
    ListedByName(config.policy, tx.to);
    OwnCore(tx.from);
    OwnCore(tx.to);
  }

  lemma OwnCore(account: AccountId)
    requires account in Sandbox().accounts
    ensures Text.TrimsTo(account, account)
  {
    SandboxNamesAreTrimmed(account);
    Text.TrimIsTrimmed(account);
    Text.TrimIff(account, account);
  }

  lemma ListedByName(policy: Policy, account: AccountId)
    requires account in Sandbox().accounts && exists f :: Text.TrimsTo(account, f) && f in policy.allowedAccounts
    ensures account in policy.allowedAccounts
  {
    var f :| Text.TrimsTo(account, f) && f in policy.allowedAccounts;
    SandboxNamesAreTrimmed(account);
    Text.TrimIsTrimmed(account);
    Text.TrimIff(account, f);
  }

  // ---- The store ----

  /** A positive amount between known accounts; a transfer has passed screening. */
  predicate Admissible(policy: Policy, accounts: C.Accounts, tx: Transaction) {
    && tx.amount > 0 && tx.from in accounts && tx.to in accounts
    && (tx.kind.Transfer? ==> !ScreenTx(policy, tx).Deny?)
  }

  ghost predicate AllAdmissible(policy: Policy, t: Tables) {
    forall r | r in t.rows :: Admissible(policy, t.accounts, r.tx)
  }

  lemma RewriteKeepsAdmissible(policy: Policy, before: Tables, after: Tables)
    requires AllAdmissible(policy, before) && K.Rewritten(before.rows, after.rows) && after.accounts == before.accounts
    ensures AllAdmissible(policy, after)
  {
    forall r | r in after.rows ensures Admissible(policy, after.accounts, r.tx) {
      var i :| 0 <= i < |after.rows| && after.rows[i] == r;
      assert S.SameIdentity(before.rows[i], after.rows[i]) && before.rows[i] in before.rows;
    }
  }

  lemma {:induction false} InsertIsAdmissible(c: P.Config, s: P.State, a: P.Action)
    requires (a.Enqueue? || a.HoldRow?) && P.StepState(c, s, a).Some?
    ensures Admissible(c.policy, s.tables.accounts, a.row.tx)
  {
  }

  lemma {:induction false} InsertKeepsAdmissible(policy: Policy, t: Tables, after: Tables, r: Row)
    requires WellFormed(t) && Insertable(t, r) && !r.status.Finalized? && AllAdmissible(policy, t)
    requires Admissible(policy, t.accounts, r.tx) && after.rows == InsertRow(t.rows, r) && after.accounts == t.accounts
    ensures AllAdmissible(policy, after)
  {
    P.InsertExtends(t, r, t.cases);
  }

  /** Nothing a run does touches the accounts. */
  lemma {:induction false} AccountsStay(c: P.Config, s: P.State, actions: seq<P.Action>)
    requires P.ConfigOk(c) && P.Initial(c, s) && P.Execute(c, s, actions).Some?
    ensures P.Execute(c, s, actions).value.tables.accounts == c.genesis.accounts
  {
    P.InitialInv(c, s);
    P.RunsKeepInv(c, s, actions);
  }

  lemma {:induction false} RunsKeepAdmissible(c: P.Config, s: P.State, actions: seq<P.Action>)
    requires P.ConfigOk(c) && P.Initial(c, s) && P.Execute(c, s, actions).Some?
    ensures AllAdmissible(c.policy, P.Execute(c, s, actions).value.tables)
    decreases |actions|
  {
    AccountsStay(c, s, actions);
    if actions != [] {
      var front, a := actions[..|actions| - 1], actions[|actions| - 1];
      RunsKeepAdmissible(c, s, front);
      AccountsStay(c, s, front);
      K.RunsKeepKeys(c, s, front);
      StepKeepsAdmissible(c, P.Execute(c, s, front).value, a);
    }
  }

  lemma {:induction false} StepKeepsAdmissible(c: P.Config, s: P.State, a: P.Action)
    requires P.ConfigOk(c) && P.Inv(c, s) && P.StepState(c, s, a).Some? && AllAdmissible(c.policy, s.tables)
    requires P.StepState(c, s, a).value.tables.accounts == s.tables.accounts
    ensures AllAdmissible(c.policy, P.StepState(c, s, a).value.tables)
  {
    K.StepRows(c, s, a);
    var after := P.StepState(c, s, a).value.tables;
    if K.Rewritten(s.tables.rows, after.rows) {
      RewriteKeepsAdmissible(c.policy, s.tables, after);
    } else {
      InsertIsAdmissible(c, s, a);
      InsertKeepsAdmissible(c.policy, s.tables, after, a.row);
    }
  }

  /**
    In every interleaving every stored payment, whatever its status, has a positive amount between two accounts of
    the genesis, and every stored transfer is between listed accounts in an allowed asset.
   */
  lemma {:induction false} StoredPaymentsAreAdmissible(c: P.Config, s: P.State, actions: seq<P.Action>, r: Row)
    requires P.ConfigOk(c) && P.Initial(c, s) && P.Execute(c, s, actions).Some?
    requires r in P.Execute(c, s, actions).value.tables.rows
    ensures r.tx.amount > 0 && r.tx.from in c.genesis.accounts && r.tx.to in c.genesis.accounts
    ensures r.tx.kind.Transfer? ==> Listed(c.policy, r.tx)
  {
    RunsKeepAdmissible(c, s, actions);
    AccountsStay(c, s, actions);
    assert Admissible(c.policy, c.genesis.accounts, r.tx);
    if r.tx.kind.Transfer? {
      PassedIsListed(c.policy, r.tx);
    }
  }

  /**
    In every interleaving of validators, officers and callers, every transfer in the stored chain is between
    listed accounts in an allowed asset, of a positive amount; above the limit, its case was approved before.
   */
  lemma {:induction false} StoredTransfersAreListed(c: P.Config, s: P.State, actions: seq<P.Action>, tx: Transaction)
    requires P.ConfigOk(c) && P.Initial(c, s) && P.Execute(c, s, actions).Some?
    requires tx in C.AllTxs(Chain(P.Execute(c, s, actions).value.tables)) && tx.kind.Transfer?
    ensures Listed(c.policy, tx) && tx.amount > 0
    ensures tx.amount > c.policy.maxPaymentAmount ==> exists k :: A.ApprovedAt(c, s, actions, k, tx.id)
  {
    ScreenedInChain(c, s, actions, tx);
    PassedIsListed(c.policy, tx);
    if tx.amount > c.policy.maxPaymentAmount {
      var k := A.NoFinalityWithoutApproval(c, s, actions, tx);
      assert A.ApprovedAt(c, s, actions, k, tx.id);
    }
  }

  lemma {:induction false} ScreenedInChain(c: P.Config, s: P.State, actions: seq<P.Action>, tx: Transaction)
    requires P.ConfigOk(c) && P.Initial(c, s) && P.Execute(c, s, actions).Some?
    requires tx in C.AllTxs(Chain(P.Execute(c, s, actions).value.tables)) && tx.kind.Transfer?
    ensures !ScreenTx(c.policy, tx).Deny?
  {
    RunsKeepAdmissible(c, s, actions);
    K.RunsKeepKeys(c, s, actions);
    var t := P.Execute(c, s, actions).value.tables;
    ChainHoldsFinalizedRows(t, tx);
    var i :| 0 <= i < |t.rows| && t.rows[i].tx == tx && t.rows[i].status.Finalized?;
    assert t.rows[i] in t.rows;
  }
}

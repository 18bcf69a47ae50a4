/**
  A concrete run from the start that ends with a final payment whose approved case is open again, for every
  configuration over the sandbox ledger whose policy sends the payment to review
  (crates/kani-node/src/lib.rs:857-910; crates/kani-api/src/lib.rs:885-989).
 */
module StaleRun {
  import opened Wrappers
  import opened Types
  import opened Ledgers
  import opened LedgerCore
  import opened Books
  import opened Store
  import opened Reload
  import opened Merging
  import opened Consensus
  import opened Blocks
  import opened Selection
  import opened Compliance
  import opened Protocol
  import opened Safety
  import opened CaseRuns
  import opened Passes
  import opened Drain
  import opened Uninterrupted
  import opened Runtime
  import opened StaleApproval

  /** CORP_A is funded, then asks for a transfer of everything it has. */
  const FUNDING := Transaction(1, TREASURY_ACCOUNT, CORP_A_ACCOUNT, KCAD_TEST, 600000, 1, Mint, map[], 0)
  const PAYMENT := Transaction(2, CORP_A_ACCOUNT, CORP_B_ACCOUNT, KCAD_TEST, 600000, 1, Transfer, map[], 1)
  const FUNDING_ROW := Row(FUNDING, Pending, None, None, None, None)
  const PAYMENT_ROW := Row(PAYMENT, Held, None, Some("review"), None, None)
  const OPEN_CASE := ComplianceCase(7, 2, Opened, "review", None, None)

  /** The sandbox with any engine, crypto and policy; the first two leaders are idle. */
  ghost predicate Start(c: Config, s: State, p: nat, q: nat) {
    && ConfigOk(c) && c.genesis == Sandbox() && c.maxTransactions >= 1 && NeedsReview(c.policy, PAYMENT)
    && Initial(c, s) && p in s.processes && q in s.processes
    && c.engine.LeaderForHeight(1) == Ok(s.processes[p].validator)
    && c.engine.LeaderForHeight(2) == Ok(s.processes[q].validator)
  }

  function Funded(s: State): State {
    s.(tables := s.tables.(rows := [FUNDING_ROW]))
  }

  function Holding(s: State): State {
    s.(tables := s.tables.(rows := InsertRow(s.tables.rows, PAYMENT_ROW), cases := s.tables.cases[7 := OPEN_CASE]))
  }

  lemma {:induction false} FundingIsValid(w: Working)
    requires w == Sandbox().working
    ensures ApplyAll(Sandbox().accounts, [FUNDING], 1, w).Ok?
    ensures var v := ApplyAll(Sandbox().accounts, [FUNDING], 1, w).value;
            Get(v.balances, (CORP_A_ACCOUNT, KCAD_TEST)) == 600000 && Get(v.nonces, CORP_A_ACCOUNT) == 0
  {
    CodeIsNotBlank();
    assert [FUNDING][..0] == [];
    assert ApplyAll(Sandbox().accounts, [], 1, w) == Ok(w);
    assert CORP_A_ACCOUNT != TREASURY_ACCOUNT;
  }

  lemma {:induction false} PaymentIsValid(w: Working, height: int)
    requires Get(w.balances, (CORP_A_ACCOUNT, KCAD_TEST)) == 600000 && Get(w.nonces, CORP_A_ACCOUNT) == 0
    ensures ApplyAll(Sandbox().accounts, [PAYMENT], height, w).Ok?
  {
    CodeIsNotBlank();
    assert [PAYMENT][..0] == [];
    assert ApplyAll(Sandbox().accounts, [], height, w) == Ok(w);
    assert CORP_A_ACCOUNT in Sandbox().accounts && CORP_B_ACCOUNT in Sandbox().accounts;
  }

  /** The funding is enqueued and waits alone. */
  lemma {:induction false} FundingStep(c: Config, s: State, p: nat, q: nat)
    requires Start(c, s, p, q)
    ensures Execute(c, s, [Enqueue(FUNDING_ROW)]) == Some(Funded(s)) && Inv(c, Funded(s))
    ensures PendingPage([FUNDING_ROW], c.maxTransactions) == [FUNDING]
  {
    FundingIsQueued(c, s);
    InitialInv(c, s);
    RunsKeepInv(c, s, [Enqueue(FUNDING_ROW)]);
    assert [FUNDING_ROW][..0] == [];
    assert PendingTxs([]) == [];
  }

  lemma {:induction false} FundingIsQueued(c: Config, s: State)
    requires c.genesis == Sandbox() && s.tables == StartTables(c)
    ensures Execute(c, s, [Enqueue(FUNDING_ROW)]) == Some(Funded(s))
  {
    ExecuteOne(c, s, Enqueue(FUNDING_ROW));
    assert InsertRow([], FUNDING_ROW) == [FUNDING_ROW];
    assert TREASURY_ACCOUNT in s.tables.accounts && CORP_A_ACCOUNT in s.tables.accounts;
  }

  lemma {:induction false} OneOfOne(l: Ledger, tx: Transaction)
    requires l.DryRun([tx]).Ok?
    ensures Revalidated(l, [tx]).accepted == [tx]
  {
    assert [tx][..0] == [] && [] + [tx] == [tx];
    assert Revalidated(l, []) == Split([], []);
  }

  lemma {:induction false} FundingIsSelected(c: Config, s: State, p: nat, q: nat)
    requires Start(c, s, p, q) && PendingPage([FUNDING_ROW], c.maxTransactions) == [FUNDING]
    ensures Chain(Funded(s).tables) == [] && LeadsStore(c, Funded(s).tables, s.processes[p].validator)
    ensures Selected(c, Funded(s).tables) == [FUNDING]
  {
    var t := Funded(s).tables;
    assert Chain(t) == [];
    var l := Load(t);
    assert l.working == Sandbox().working && l.accounts == Sandbox().accounts && l.NextHeight() == 1 by {
      assert [FUNDING_ROW][..0] == [];
      assert ScanNonces([]) == map[] && ScanIssued([]) == map[];
    }
    FundingIsValid(l.working);
    OneOfOne(l, FUNDING);
  }

  /** The first leader's pass finalizes the funding. */
  lemma {:induction false} FundingPass(c: Config, s: State, p: nat, q: nat, now: int)
    requires Start(c, s, p, q) && Inv(c, Funded(s))
    requires PendingPage([FUNDING_ROW], c.maxTransactions) == [FUNDING]
    ensures var t := Pass(c, Funded(s).tables, s.processes[p].validator, now).tables;
            && StoreInv(c.engine, c.crypto, c.genesis, t)
            && |Chain(t)| == 1 && Chain(t)[0].txs == [FUNDING]
            && |t.rows| == 1 && t.rows[0].tx == FUNDING && !t.rows[0].status.Pending? && t.cases == map[]
  {
    var t, v := Funded(s).tables, s.processes[p].validator;
    FundingIsSelected(c, s, p, q);
    assert (var after := Pass(c, t, v, now).tables.rows;
            |after| == 1 && after[0].tx == FUNDING && !after[0].status.Pending?) by {
      SavingPassRow(c, t, v, now, 0);
    }
    assert StoreInv(c.engine, c.crypto, c.genesis, Pass(c, t, v, now).tables) && Chain(Pass(c, t, v, now).tables) == [Pass(c, t, v, now).block.value]
           && Pass(c, t, v, now).block.value.txs == [FUNDING] by {
      PassFinalizes(c, t, v, now);
      PassKeepsStore(c, t, v, now);
    }
    PassKeepsNoCase(c, t, v, now);
  }

  lemma {:induction false} PassKeepsNoCase(c: Config, t: Tables, v: ValidatorId, now: int)
    requires ConfigOk(c) && StoreInv(c.engine, c.crypto, c.genesis, t) && LeadsStore(c, t, v) && Selected(c, t) != []
    requires t.cases == map[]
    ensures Pass(c, t, v, now).tables.cases == map[]
  {
    var f := FilterAll(t, Load(t), [], PendingPage(t.rows, c.maxTransactions)).tables;
    FilterKeepsTables(t, Load(t), [], PendingPage(t.rows, c.maxTransactions));
    PassFinalizes(c, t, v, now);
    MergeKeepsPeople(f, Load(t), Pass(c, t, v, now).block.value);
  }

  /** What the store looks like once the funding is final. */
  ghost predicate OnlyFunding(c: Config, t: Tables) {
    && StoreInv(c.engine, c.crypto, c.genesis, t)
    && |Chain(t)| == 1 && Chain(t)[0].txs == [FUNDING]
    && |t.rows| == 1 && t.rows[0].tx == FUNDING && !t.rows[0].status.Pending? && t.cases == map[]
  }

  lemma {:induction false} FundedMoney(c: Config, t: Tables)
    requires c.genesis == Sandbox() && OnlyFunding(c, t)
    ensures t.accounts == Sandbox().accounts
    ensures var w := Load(t).working; Get(w.balances, (CORP_A_ACCOUNT, KCAD_TEST)) == 600000 && Get(w.nonces, CORP_A_ACCOUNT) == 0
  {
    var chain := Chain(t);
    assert chain[..0] == [] && Replay(t.accounts, [], Sandbox().working) == Ok(Sandbox().working);
    assert LinkAt(chain, 0);
    FundingIsValid(Sandbox().working);
  }

  lemma {:induction false} PaymentFits(c: Config, t: Tables)
    requires c.genesis == Sandbox() && OnlyFunding(c, t)
    ensures Insertable(t, PAYMENT_ROW)
  {
    FundedMoney(c, t);
    assert TREASURY_ACCOUNT != CORP_A_ACCOUNT;
    assert CORP_A_ACCOUNT in t.accounts && CORP_B_ACCOUNT in t.accounts;
  }

  lemma {:induction false} HoldingStep(c: Config, s: State)
    requires Insertable(s.tables, PAYMENT_ROW) && 7 !in s.tables.cases && NeedsReview(c.policy, PAYMENT)
    ensures Execute(c, s, [HoldRow(PAYMENT_ROW, OPEN_CASE)]) == Some(Holding(s))
  {
    assert ApiStep(c, s, HoldRow(PAYMENT_ROW, OPEN_CASE)) == Some(Holding(s));
    ExecuteOne(c, s, HoldRow(PAYMENT_ROW, OPEN_CASE));
  }

  lemma {:induction false} NothingWaits(t: Tables)
    requires WellFormed(t) && |t.rows| == 1 && !t.rows[0].status.Pending? && Insertable(t, PAYMENT_ROW)
    ensures PendingTxs(InsertRow(t.rows, PAYMENT_ROW)) == []
  {
    var after := InsertRow(t.rows, PAYMENT_ROW);
    InsertExtends(t, PAYMENT_ROW, t.cases);
    assert forall r | r in t.rows :: r == t.rows[0];
    NonePending(after);
  }

  lemma {:induction false} NonePending(rows: seq<Row>)
    requires forall r | r in rows :: !r.status.Pending?
    ensures PendingTxs(rows) == []
    decreases |rows|
  {
    if rows != [] {
      NonePending(rows[..|rows| - 1]);
    }
  }

  /** With the payment on hold nothing is queued, and the payment would be valid next. */
  lemma {:induction false} HeldIsQuiet(c: Config, t: Tables) returns (i: nat)
    requires ConfigOk(c) && c.genesis == Sandbox() && OnlyFunding(c, t) && Insertable(t, PAYMENT_ROW)
    ensures var after := t.(rows := InsertRow(t.rows, PAYMENT_ROW), cases := t.cases[7 := OPEN_CASE]);
            && PendingTxs(after.rows) == [] && i < |after.rows| && after.rows[i] == PAYMENT_ROW
            && |Chain(after)| == 1 && Load(after).DryRun([PAYMENT]).Ok?
  {
    var after := t.(rows := InsertRow(t.rows, PAYMENT_ROW), cases := t.cases[7 := OPEN_CASE]);
    NothingWaits(t);
    InsertExtends(t, PAYMENT_ROW, t.cases[7 := OPEN_CASE]);
    assert PAYMENT_ROW in after.rows;
    i :| i < |after.rows| && after.rows[i] == PAYMENT_ROW;
    assert Load(after).working == Load(t).working && Chain(after) == Chain(t) by {
      ExtendsKeepsStore(c.engine, c.crypto, c.genesis, t, after);
    }
    assert Load(after).DryRun([PAYMENT]).Ok? by {
      FundedMoney(c, t);
      PaymentIsValid(Load(after).working, Load(after).NextHeight());
    }
  }

  lemma {:induction false} SandboxIsKeyed()
    ensures forall a | a in Sandbox().accounts :: Sandbox().accounts[a].id == a
  {
  }

  lemma {:induction false} FundedUndisturbed(c: Config, s: State, p: nat, q: nat)
    requires Start(c, s, p, q) && Inv(c, Funded(s))
    ensures Undisturbed(c, Funded(s), p)
  {
    assert Funded(s).processes == s.processes && Funded(s).lock == None;
    assert KeyedTables(Funded(s).tables) by {
      SandboxIsKeyed();
    }
  }

  lemma {:induction false} FundedState(c: Config, s: State, p: nat, q: nat, now: int) returns (run: seq<Action>, m: State)
    requires Start(c, s, p, q)
    ensures Execute(c, s, run) == Some(m) && m == s.(tables := m.tables)
    ensures OnlyFunding(c, m.tables) && KeyedTables(m.tables)
  {
    FundingStep(c, s, p, q);
    FundedUndisturbed(c, s, p, q);
    var v := s.processes[p].validator;
    var pass := PassIsARun(c, Funded(s), p, now);
    ExecuteConcat(c, s, [Enqueue(FUNDING_ROW)], pass);
    run := [Enqueue(FUNDING_ROW)] + pass;
    m := s.(tables := Pass(c, Funded(s).tables, v, now).tables);
    assert Funded(s).(tables := m.tables) == m;
    FundingPass(c, s, p, q, now);
    PassKeepsKeys(c, Funded(s).tables, v, now);
  }

  lemma {:induction false} HoldingIsQuiet(c: Config, s: State, p: nat, q: nat, m: State, i: nat)
    requires Start(c, s, p, q) && m == s.(tables := m.tables) && OnlyFunding(c, m.tables) && KeyedTables(m.tables)
    requires Inv(c, Holding(m))
    requires var after := Holding(m).tables;
             && PendingTxs(after.rows) == [] && i < |after.rows| && after.rows[i] == PAYMENT_ROW
             && |Chain(after)| == 1 && Load(after).DryRun([PAYMENT]).Ok?
    ensures QuietHold(c, Holding(m), q, 7, i)
  {
  }

  /**
    From every start over the sandbox: CORP_A is funded and its payment is held; the second leader loads, an
    officer approves, the leader goes on. The payment is final, and the case the officer approved is open.
   */
  lemma {:induction false} StaleRunExists(c: Config, s: State, p: nat, q: nat, now: int) returns (run: seq<Action>)
    requires Start(c, s, p, q)
    ensures Execute(c, s, run).Some? && Resolve(7, Approval, None, None) in run
    ensures var t := Execute(c, s, run).value.tables;
            IsFinal(t.rows, PAYMENT) && 7 in t.cases && t.cases[7] == OPEN_CASE
  {
    var funding, m := FundedState(c, s, p, q, now);
    PaymentFits(c, m.tables);
    HoldingStep(c, m);
    var i := HeldIsQuiet(c, m.tables);
    var hold := [HoldRow(PAYMENT_ROW, OPEN_CASE)];
    ExecuteConcat(c, s, funding, hold);
    InitialInv(c, s);
    RunsKeepInv(c, s, funding + hold);
    HoldingIsQuiet(c, s, p, q, m, i);
    var lost := ApprovalLost(c, Holding(m), q, 7, i, now);
    ExecuteConcat(c, s, funding + hold, lost);
    run := funding + hold + lost;
  }

  /**
    The same run one step longer: the officer finds the case open and approves it a second time, so one run
    holds two resolutions of one case - with a reopening save in between, and the payment already final before
    the second.
   */
  lemma {:induction false} ResolvedTwice(c: Config, s: State, p: nat, q: nat, now: int) returns (run: seq<Action>, i: nat, m: nat, j: nat)
    requires Start(c, s, p, q)
    ensures Execute(c, s, run).Some? && i < m < j < |run| && ReopensAt(c, s, run, 7, m)
    ensures run[i] == Resolve(7, Approval, None, None) == run[j]
    ensures Execute(c, s, run[..j]).Some? && IsFinal(Execute(c, s, run[..j]).value.tables.rows, PAYMENT)
  {
    var first := StaleRunExists(c, s, p, q, now);
    var again := Resolve(7, Approval, None, None);
    i :| i < |first| && first[i] == again;
    j := |first|;
    run := first + [again];
    assert run[..j] == first;
    ExecuteSnoc(c, s, first, again);
    OpenCaseResolves(c, Execute(c, s, first).value);
    m := ResolvedOnceUnlessReopened(c, s, run, i, j);
  }

  lemma {:induction false} OpenCaseResolves(c: Config, m: State)
    requires 7 in m.tables.cases && m.tables.cases[7] == OPEN_CASE
    ensures StepState(c, m, Resolve(7, Approval, None, None)).Some?
  {
  }
}

/**
  A mint past 2^127 - 1 in the node without a store (crates/kani-node/src/lib.rs:374-395;
  crates/kani-ledger/src/lib.rs:2940-2951): two mints from the sandbox reach it, whatever the engine and the crypto.
 */
module OverflowRun {
  import opened Wrappers
  import opened Types
  import opened Ledgers
  import opened LedgerCore
  import opened Books
  import opened Consensus
  import opened Blocks
  import opened MachineArithmetic
  import opened Node
  import opened NodeRuns

  /** The greatest supply a 128-bit word holds, and one more. */
  const MINT_MOST := IssueCall(Mint, TREASURY_ACCOUNT, CORP_A_ACCOUNT, KCAD_TEST, MAX_I128, 1, 0)
  const MINT_ONE := IssueCall(Mint, TREASURY_ACCOUNT, CORP_A_ACCOUNT, KCAD_TEST, 1, 2, 1)

  const MOST := Transaction(1, TREASURY_ACCOUNT, CORP_A_ACCOUNT, KCAD_TEST, MAX_I128, 1, Mint, map[], 0)
  const ONE := Transaction(2, TREASURY_ACCOUNT, CORP_A_ACCOUNT, KCAD_TEST, 1, 2, Mint, map[], 1)

  lemma {:induction false} BatchOfOne(accounts: Accounts, tx: Transaction, height: int, w: Working)
    ensures ApplyAll(accounts, [tx], height, w) == StepTransaction(accounts, tx, height, w)
    ensures MachineApplyAll(accounts, [tx], height, w) == MachineStep(accounts, tx, height, w)
  {
    ApplyAllOne(accounts, tx, height, w);
    assert [tx][..0] == [] && MachineApplyAll(accounts, [], height, w) == Ok(w);
  }

  /** The state after the first mint: everything issued is CORP_A's. */
  ghost predicate Full(w: Working) {
    && Conserved(w) && SupplyFits(w)
    && w.issued == map[KCAD_TEST := MAX_I128] && w.nonces == map[TREASURY_ACCOUNT := 1]
    && Get(w.balances, (CORP_A_ACCOUNT, KCAD_TEST)) == MAX_I128
  }

  lemma {:induction false} FirstMint(w: Working)
    requires w == Sandbox().working
    ensures StepTransaction(Sandbox().accounts, MOST, 1, w).Ok? && Full(StepTransaction(Sandbox().accounts, MOST, 1, w).value)
    ensures MachineStep(Sandbox().accounts, MOST, 1, w) == StepTransaction(Sandbox().accounts, MOST, 1, w)
  {
    FirstMintStep(w);
    NothingIssued(w);
    FillsUp(Sandbox().accounts, w);
  }

  lemma {:induction false} NothingIssued(w: Working)
    requires w == Sandbox().working
    ensures Conserved(w) && w.issued == map[]
  {
    assert Zero(w) && Replay(Sandbox().accounts, [], w) == Ok(w);
    ReplayIsBalanced(Sandbox().accounts, [], w);
  }

  lemma FillsUp(accounts: Accounts, w: Working)
    requires Conserved(w) && w.issued == map[] && StepTransaction(accounts, MOST, 1, w).Ok?
    requires StepTransaction(accounts, MOST, 1, w).value.issued == map[KCAD_TEST := MAX_I128]
    ensures var v := StepTransaction(accounts, MOST, 1, w).value; Conserved(v) && SupplyFits(v)
    ensures MachineStep(accounts, MOST, 1, w) == StepTransaction(accounts, MOST, 1, w)
  {
    StepConserves(accounts, MOST, 1, w);
    StepIsExactIff(accounts, MOST, 1, w);
  }

  lemma {:induction false} FirstMintStep(w: Working)
    requires w == Sandbox().working
    ensures StepTransaction(Sandbox().accounts, MOST, 1, w).Ok?
    ensures var v := StepTransaction(Sandbox().accounts, MOST, 1, w).value;
            && v.issued == map[KCAD_TEST := MAX_I128] && v.nonces == map[TREASURY_ACCOUNT := 1]
            && Get(v.balances, (CORP_A_ACCOUNT, KCAD_TEST)) == MAX_I128
  {
    CodeIsNotBlank();
  }

  lemma {:induction false} SecondMint(w: Working)
    requires Full(w)
    ensures MintOverflows(ONE, w) && StepTransaction(Sandbox().accounts, ONE, 2, w).Ok?
    ensures var machine := MachineStep(Sandbox().accounts, ONE, 2, w);
            machine.Ok? && Get(machine.value.issued, KCAD_TEST) == MIN_I128 && !Conserved(machine.value)
  {
    CodeIsNotBlank();
    OverflowBreaksBooks(Sandbox().accounts, ONE, 2, w);
    WrapOver(MAX_I128 + 1);
  }

  /** One accepted production is one step of the ledger's money. */
  lemma {:induction false} OneProduction(config: NodeConfig, l: Ledger, tx: Transaction, now: int)
    requires config.engine.Configured() && HashNonEmpty(config.crypto)
    requires StepTransaction(l.accounts, tx, l.NextHeight(), l.working).Ok?
    ensures Produce(l, [tx], config.engine, config.crypto, now).Ok?
    ensures var (after, record) := Produce(l, [tx], config.engine, config.crypto, now).value;
            && after.accounts == l.accounts && |after.blocks| == |l.blocks| + 1 && after.blocks[|l.blocks|].txs == [tx]
            && Ok(after.working) == StepTransaction(l.accounts, tx, l.NextHeight(), l.working)
            && record.transaction == tx
  {
    BatchOfOne(l.accounts, tx, l.NextHeight(), l.working);
    ProduceIffDryRun(l, [tx], config.engine, config.crypto, now);
  }

  lemma {:induction false} OneCall(config: NodeConfig, l: Ledger, call: Call)
    ensures DoAll(config, l, [call]) == Do(config, l, call)
  {
    assert [call][..0] == [] && DoAll(config, l, []) == l;
  }

  lemma {:induction false} FirstCall(config: NodeConfig)
    requires config.engine.Configured() && HashNonEmpty(config.crypto)
    ensures var l := DoAll(config, Sandbox(), [MINT_MOST]);
            && l.accounts == Sandbox().accounts && |l.blocks| == 1 && l.blocks[0].txs == [MOST]
            && Ok(l.working) == StepTransaction(Sandbox().accounts, MOST, 1, Sandbox().working)
  {
    OneCall(config, Sandbox(), MINT_MOST);
    FirstMint(Sandbox().working);
    OneProduction(config, Sandbox(), MOST, 0);
    FirstIssue(config, Sandbox());
  }

  lemma {:induction false} FirstIssue(config: NodeConfig, l: Ledger)
    requires l.working.nonces == map[]
    requires Produce(l, [MOST], config.engine, config.crypto, 0).Ok?
    ensures Do(config, l, MINT_MOST) == Produce(l, [MOST], config.engine, config.crypto, 0).value.0
  {
  }

  lemma {:induction false} SecondCall(config: NodeConfig, l: Ledger)
    requires config.engine.Configured() && HashNonEmpty(config.crypto)
    requires l.accounts == Sandbox().accounts && |l.blocks| == 1 && Full(l.working)
    ensures var result := Issuance(config, l, Mint, TREASURY_ACCOUNT, CORP_A_ACCOUNT, KCAD_TEST, 1, 2, 1);
            result.Ok? && result.value.1.transaction == ONE
  {
    SecondMint(l.working);
    OneProduction(config, l, ONE, 1);
  }

  /**
    Two calls from the sandbox: the first issues 2^127 - 1, which 128-bit words still hold exactly; the node
    accepts the second, of one more, and in 128-bit words issued supply is then -2^127 and the books do not balance.
   */
  lemma {:induction false} OverflowIsReached(config: NodeConfig)
    requires config.engine.Configured() && HashNonEmpty(config.crypto)
    ensures var l := DoAll(config, Sandbox(), [MINT_MOST]);
            && |l.blocks| == 1 && l.blocks[0].txs == [MOST] && Conserved(l.working) && SupplyFits(l.working)
            && MachineApplyAll(l.accounts, [MOST], 1, Sandbox().working) == Ok(l.working)
            && Issuance(config, l, Mint, TREASURY_ACCOUNT, CORP_A_ACCOUNT, KCAD_TEST, 1, 2, 1).Ok?
            && Issuance(config, l, Mint, TREASURY_ACCOUNT, CORP_A_ACCOUNT, KCAD_TEST, 1, 2, 1).value.1.transaction == ONE
            && MintOverflows(ONE, l.working)
            && var machine := MachineApplyAll(l.accounts, [ONE], 2, l.working);
               machine.Ok? && Get(machine.value.issued, KCAD_TEST) == MIN_I128 && !Conserved(machine.value)
  {
    FirstCall(config);
    FirstMint(Sandbox().working);
    var l := DoAll(config, Sandbox(), [MINT_MOST]);
    SecondMint(l.working);
    SecondCall(config, l);
    BatchOfOne(l.accounts, MOST, 1, Sandbox().working);
    BatchOfOne(l.accounts, ONE, 2, l.working);
  }
}

/**
  What the transactions and the journal of a finalized chain look like (crates/kani-ledger/src/lib.rs:756-811,
  2914-2971): in every reachable ledger and in every run over the store.
 */
module ChainFacts {
  import opened Wrappers
  import opened Types
  import opened Ledgers
  import opened LedgerCore
  import opened Books
  import opened Store
  import opened Reload
  import opened Merging
  import opened Consensus
  import opened Blocks
  import opened Protocol
  import opened Safety

  /** A finalized transaction: a positive amount between known accounts, minted from a treasury, burned to one. */
  predicate WellIssued(accounts: Accounts, tx: Transaction) {
    && tx.amount > 0 && tx.from in accounts && tx.to in accounts
    && (tx.kind.Mint? ==> accounts[tx.from].accountType == Treasury)
    && (tx.kind.Burn? ==> accounts[tx.to].accountType == Treasury)
  }

  lemma {:induction false} BatchIsWellIssued(accounts: Accounts, txs: seq<Transaction>, height: int, w: Working)
    requires ApplyAll(accounts, txs, height, w).Ok?
    ensures forall tx | tx in txs :: WellIssued(accounts, tx)
  {
    BatchIff(accounts, txs, height, w);
    forall tx | tx in txs ensures WellIssued(accounts, tx) {
      var i: nat :| i < |txs| && txs[i] == tx;
      assert Acceptable(accounts, txs[i], ApplyAll(accounts, txs[..i], height, w).value);
    }
  }

  lemma {:induction false} ChainIsWellIssued(accounts: Accounts, blocks: seq<Block>, w: Working)
    requires Replay(accounts, blocks, w).Ok?
    ensures forall tx | tx in AllTxs(blocks) :: WellIssued(accounts, tx)
    decreases |blocks|
  {
    if blocks != [] {
      var n := |blocks| - 1;
      ChainIsWellIssued(accounts, blocks[..n], w);
      BatchIsWellIssued(accounts, blocks[n].txs, blocks[n].height, Replay(accounts, blocks[..n], w).value);
    }
  }

  /** In every ledger reachable from the sandbox, each mint comes from its treasury account and each burn goes to it. */
  lemma {:induction false} MintsComeFromTreasury(ops: seq<Op>, tx: Transaction)
    requires tx in AllTxs(Run(Sandbox(), ops).blocks)
    ensures tx.amount > 0 && tx.from in Sandbox().accounts && tx.to in Sandbox().accounts
    ensures tx.kind.Mint? ==> tx.from == "TREASURY_SANDBOX"
    ensures tx.kind.Burn? ==> tx.to == "TREASURY_SANDBOX"
  {
    ReachableLedgersBalance(ops);
    ChainIsWellIssued(Sandbox().accounts, Run(Sandbox(), ops).blocks, Sandbox().working);
    assert WellIssued(Sandbox().accounts, tx);
  }

  /** And so of the stored chain, in every interleaving. */
  lemma {:induction false} StoredChainIsWellIssued(c: Config, s: State, actions: seq<Action>, tx: Transaction)
    requires ConfigOk(c) && Initial(c, s) && Execute(c, s, actions).Some?
    requires tx in AllTxs(Chain(Execute(c, s, actions).value.tables))
    ensures WellIssued(c.genesis.accounts, tx)
  {
    EveryRunIsSafe(c, s, actions);
    ChainIsWellIssued(c.genesis.accounts, Chain(Execute(c, s, actions).value.tables), c.genesis.working);
  }

  // ---- The journal ----

  /** One of the lines that a transaction in a block of that height writes. */
  predicate WrittenBy(e: JournalEntry, tx: Transaction, height: int) {
    || (!tx.kind.Mint? && e == JournalEntry(tx.id, DebitEntry, tx.from, tx.asset, tx.amount, height))
    || (!tx.kind.Burn? && e == JournalEntry(tx.id, CreditEntry, tx.to, tx.asset, tx.amount, height))
  }

  ghost predicate InBatch(e: JournalEntry, txs: seq<Transaction>, height: int) {
    exists i :: 0 <= i < |txs| && WrittenBy(e, txs[i], height)
  }

  ghost predicate InChain(e: JournalEntry, blocks: seq<Block>) {
    exists i :: 0 <= i < |blocks| && InBatch(e, blocks[i].txs, blocks[i].height)
  }

  lemma InBatchSnoc(e: JournalEntry, txs: seq<Transaction>, tx: Transaction, height: int)
    ensures InBatch(e, txs + [tx], height) <==> InBatch(e, txs, height) || WrittenBy(e, tx, height)
  {
    var all := txs + [tx];
    assert all[|txs|] == tx;
    if InBatch(e, txs, height) {
      var i :| 0 <= i < |txs| && WrittenBy(e, txs[i], height);
      assert all[i] == txs[i];
    }
  }

  lemma InChainSnoc(e: JournalEntry, blocks: seq<Block>, b: Block)
    ensures InChain(e, blocks + [b]) <==> InChain(e, blocks) || InBatch(e, b.txs, b.height)
  {
    var all := blocks + [b];
    assert all[|blocks|] == b;
    if InChain(e, blocks) {
      var i :| 0 <= i < |blocks| && InBatch(e, blocks[i].txs, blocks[i].height);
      assert all[i] == blocks[i];
    }
  }

  lemma StepJournal(accounts: Accounts, tx: Transaction, height: int, w: Working, e: JournalEntry)
    requires StepTransaction(accounts, tx, height, w).Ok?
    ensures e in StepTransaction(accounts, tx, height, w).value.journal <==> e in w.journal || WrittenBy(e, tx, height)
  {
    TransactionEffect(tx, height, w);
    var journal := StepTransaction(accounts, tx, height, w).value.journal;
    var lines := journal[|w.journal|..];
    assert journal == w.journal + lines && WritesLines(tx, height, lines);
    assert e in lines <==> WrittenBy(e, tx, height);
  }

  lemma {:induction false} BatchJournal(accounts: Accounts, txs: seq<Transaction>, height: int, w: Working, e: JournalEntry)
    requires ApplyAll(accounts, txs, height, w).Ok?
    ensures e in ApplyAll(accounts, txs, height, w).value.journal <==> e in w.journal || InBatch(e, txs, height)
    decreases |txs|
  {
    if txs != [] {
      var front, tx := txs[..|txs| - 1], txs[|txs| - 1];
      BatchJournal(accounts, front, height, w, e);
      OneMoreJournal(accounts, front, tx, height, w, e);
      assert txs == front + [tx];
    }
  }

  lemma {:induction false} OneMoreJournal(accounts: Accounts, txs: seq<Transaction>, tx: Transaction, height: int, w: Working, e: JournalEntry)
    requires ApplyAll(accounts, txs + [tx], height, w).Ok? && ApplyAll(accounts, txs, height, w).Ok?
    requires e in ApplyAll(accounts, txs, height, w).value.journal <==> e in w.journal || InBatch(e, txs, height)
    ensures e in ApplyAll(accounts, txs + [tx], height, w).value.journal <==> e in w.journal || InBatch(e, txs + [tx], height)
  {
    ApplyAllSnoc(accounts, txs, tx, height, w);
    StepJournal(accounts, tx, height, ApplyAll(accounts, txs, height, w).value, e);
    InBatchSnoc(e, txs, tx, height);
  }

  lemma {:induction false} ChainJournal(accounts: Accounts, blocks: seq<Block>, w: Working, e: JournalEntry)
    requires w.journal == [] && Replay(accounts, blocks, w).Ok?
    ensures e in Replay(accounts, blocks, w).value.journal <==> InChain(e, blocks)
    decreases |blocks|
  {
    if blocks != [] {
      var front, b := blocks[..|blocks| - 1], blocks[|blocks| - 1];
      ChainJournal(accounts, front, w, e);
      BatchJournal(accounts, b.txs, b.height, Replay(accounts, front, w).value, e);
      InChainSnoc(e, front, b);
      assert blocks == front + [b];
    }
  }

  /**
    In every reachable ledger the journal holds exactly the lines of the chain's transactions: a debit of the
    source for a transfer or a burn, a credit of the target for a transfer or a mint, each with the amount, the
    asset and the height of the very block that holds the transaction.
   */
  lemma {:induction false} JournalIsTheChains(ops: seq<Op>, e: JournalEntry)
    ensures var l := Run(Sandbox(), ops); e in l.working.journal <==> InChain(e, l.blocks)
  {
    ReachableLedgersBalance(ops);
    ChainJournal(Sandbox().accounts, Run(Sandbox(), ops).blocks, Sandbox().working, e);
  }

  /** And so of the stored journal, in every interleaving. */
  lemma {:induction false} StoredJournalIsTheChains(c: Config, s: State, actions: seq<Action>, e: JournalEntry)
    requires ConfigOk(c) && Initial(c, s) && Execute(c, s, actions).Some?
    ensures var t := Execute(c, s, actions).value.tables; e in t.journal <==> InChain(e, Chain(t))
  {
    EveryRunIsSafe(c, s, actions);
    ChainJournal(c.genesis.accounts, Chain(Execute(c, s, actions).value.tables), c.genesis.working, e);
  }

  // ---- Who makes blocks ----

  /** In every interleaving each stored block was led and endorsed by active validators, and is sealed over all its contents. */
  lemma {:induction false} BlocksAreByActiveValidators(c: Config, s: State, actions: seq<Action>, b: Block)
    requires ConfigOk(c) && Initial(c, s) && Execute(c, s, actions).Some?
    requires b in Chain(Execute(c, s, actions).value.tables)
    ensures IsActive(c.engine.validators, b.validator) && b.validator in b.finalizedBy
    ensures Distinct(b.finalizedBy) && forall v | v in b.finalizedBy :: IsActive(c.engine.validators, v)
    ensures 3 * |b.finalizedBy| >= 2 * ActiveCount(c.engine.validators)
    ensures b.hash == c.crypto.hash(Block(b.height, b.prevHash, b.txs, b.validator, "", "", [], b.createdAt))
  {
    EveryRunIsSafe(c, s, actions);
    assert Endorsed(c.engine, c.crypto, b);
    EndorsedByActive(c.engine, c.crypto, b);
  }
}

/**
  Validation and application of transactions on value-level working copies
  (crates/kani-ledger/src/lib.rs:756-811, 2914-3021), and their folds over a batch and a chain.
  InMemoryLedger.dfy proves the in-place methods against these functions.
 */
module LedgerCore {
  import opened Wrappers
  import opened Types
  import Text

  datatype LedgerError =
    | UnknownAccount(accountId: AccountId)
    | UnknownPayment(paymentId: Uuid)
    | UnknownComplianceCase(caseId: Uuid)
    | TerminalComplianceCase(caseId: Uuid, status: ComplianceCaseStatus)
    | MissingAsset
    | InvalidAmount
    | InvalidNonce
    | InsufficientFunds(accountId: AccountId, asset: Asset, available: int, required: int)
    | MintRequiresTreasury
    | BurnRequiresTreasury
    | InvalidBlockHeight(expected: int, actual: int)
    | InvalidPrevHash(expectedHash: string, actualHash: string)
    | MissingBlockHash

  type Accounts = map<AccountId, Account>
  type Balances = map<(AccountId, Asset), int>

  /** The four collections a block changes: the ledger's money. */
  datatype Working = Working(
    balances: Balances,
    nonces: map<AccountId, int>,
    issued: map<Asset, int>,
    journal: seq<JournalEntry>)

  function EnsureSufficientBalance(balances: Balances, account: AccountId, asset: Asset, amount: int):
      Result<Unit, LedgerError> {
    var available := Get(balances, (account, asset));
    if available < amount then Err(InsufficientFunds(account, asset, available, amount)) else Ok(Unit)
  }

  function ValidateTransaction(accounts: Accounts, tx: Transaction, w: Working): Result<Unit, LedgerError> {
    if tx.amount <= 0 then Err(InvalidAmount)
    else if Text.IsBlank(tx.asset) then Err(MissingAsset)
    else if tx.from !in accounts then Err(UnknownAccount(tx.from))
    else if tx.to !in accounts then Err(UnknownAccount(tx.to))
    else if tx.nonce <= Get(w.nonces, tx.from) then Err(InvalidNonce)
    else match tx.kind
      case Transfer => EnsureSufficientBalance(w.balances, tx.from, tx.asset, tx.amount)
      case Mint =>
        if accounts[tx.from].accountType != Treasury then Err(MintRequiresTreasury) else Ok(Unit)
      case Burn =>
        if accounts[tx.to].accountType != Treasury then Err(BurnRequiresTreasury)
        else
          var _ :- EnsureSufficientBalance(w.balances, tx.from, tx.asset, tx.amount);
          if Get(w.issued, tx.asset) < tx.amount
          then Err(InsufficientFunds("ISSUANCE", tx.asset, Get(w.issued, tx.asset), tx.amount))
          else Ok(Unit)
  }

  function Add<K>(m: map<K, int>, k: K, delta: int): map<K, int> {
    m[k := Get(m, k) + delta]
  }

  function Debit(balances: Balances, account: AccountId, asset: Asset, amount: int): Result<Balances, LedgerError> {
    var _ :- EnsureSufficientBalance(balances, account, asset, amount);
    Ok(Add(balances, (account, asset), -amount))
  }

  function Credit(balances: Balances, account: AccountId, asset: Asset, amount: int): Balances {
    Add(balances, (account, asset), amount)
  }

  function DebitLine(tx: Transaction, height: int): JournalEntry {
    JournalEntry(tx.id, DebitEntry, tx.from, tx.asset, tx.amount, height)
  }

  function CreditLine(tx: Transaction, height: int): JournalEntry {
    JournalEntry(tx.id, CreditEntry, tx.to, tx.asset, tx.amount, height)
  }

  /** The journal lines a transaction writes. */
  function Lines(tx: Transaction, height: int): seq<JournalEntry> {
    match tx.kind
    case Transfer => [DebitLine(tx, height), CreditLine(tx, height)]
    case Mint => [CreditLine(tx, height)]
    case Burn => [DebitLine(tx, height)]
  }

  function ApplyTransaction(tx: Transaction, height: int, w: Working): Result<Working, LedgerError> {
    var nonces := w.nonces[tx.from := tx.nonce];
    match tx.kind
    case Transfer =>
      var debited :- Debit(w.balances, tx.from, tx.asset, tx.amount);
      Ok(Working(Credit(debited, tx.to, tx.asset, tx.amount), nonces, w.issued,
                 w.journal + Lines(tx, height)))
    case Mint =>
      Ok(Working(Credit(w.balances, tx.to, tx.asset, tx.amount), nonces, Add(w.issued, tx.asset, tx.amount),
                 w.journal + Lines(tx, height)))
    case Burn =>
      var debited :- Debit(w.balances, tx.from, tx.asset, tx.amount);
      Ok(Working(debited, nonces, Add(w.issued, tx.asset, -tx.amount),
                 w.journal + Lines(tx, height)))
  }

  /** One turn of the loops in `apply_block` and `validate_transactions_for_next_block`. */
  function StepTransaction(accounts: Accounts, tx: Transaction, height: int, w: Working): Result<Working, LedgerError> {
    var _ :- ValidateTransaction(accounts, tx, w);
    ApplyTransaction(tx, height, w)
  }

  /** A whole batch; the error is that of the first transaction that fails. */
  function ApplyAll(accounts: Accounts, txs: seq<Transaction>, height: int, w: Working): Result<Working, LedgerError> {
    if txs == [] then Ok(w)
    else
      var before :- ApplyAll(accounts, txs[..|txs| - 1], height, w);
      StepTransaction(accounts, txs[|txs| - 1], height, before)
  }

  // ---- What validation asks and application does, said of the transaction and the state ----

  /** A transaction the ledger accepts next. */
  ghost predicate Acceptable(accounts: Accounts, tx: Transaction, w: Working) {
    && tx.amount > 0
    && (exists i :: 0 <= i < |tx.asset| && !Text.IsWhitespace(tx.asset[i]))
    && tx.from in accounts && tx.to in accounts
    && tx.nonce > (if tx.from in w.nonces then w.nonces[tx.from] else 0)
    && (tx.kind.Mint? ==> accounts[tx.from].accountType == Treasury)
    && (tx.kind.Burn? ==> accounts[tx.to].accountType == Treasury)
    && (!tx.kind.Mint? ==> (tx.from, tx.asset) in w.balances && w.balances[(tx.from, tx.asset)] >= tx.amount)
    && (tx.kind.Burn? ==> tx.asset in w.issued && w.issued[tx.asset] >= tx.amount)
  }

  lemma ValidIff(accounts: Accounts, tx: Transaction, w: Working)
    ensures ValidateTransaction(accounts, tx, w).Ok? <==> Acceptable(accounts, tx, w)
  {
    Text.BlankIff(tx.asset);
  }

  /** An error and the first requirement, in the order they are checked, that it says is broken. */
  ghost predicate FirstFault(accounts: Accounts, tx: Transaction, w: Working, e: LedgerError) {
    var blank := forall i | 0 <= i < |tx.asset| :: Text.IsWhitespace(tx.asset[i]);
    var shaped := tx.amount > 0 && !blank;
    var known := shaped && tx.from in accounts && tx.to in accounts;
    var due := known && tx.nonce > (if tx.from in w.nonces then w.nonces[tx.from] else 0);
    match e
    case InvalidAmount => tx.amount <= 0
    case MissingAsset => tx.amount > 0 && blank
    case UnknownAccount(a) => shaped && a !in accounts && a == (if tx.from in accounts then tx.to else tx.from)
    case InvalidNonce => known && !due
    case MintRequiresTreasury => due && tx.kind.Mint? && accounts[tx.from].accountType != Treasury
    case BurnRequiresTreasury => due && tx.kind.Burn? && accounts[tx.to].accountType != Treasury
    case InsufficientFunds(a, asset, available, required) =>
      var held := if (tx.from, tx.asset) in w.balances then w.balances[(tx.from, tx.asset)] else 0;
      && due && !tx.kind.Mint? && (tx.kind.Burn? ==> accounts[tx.to].accountType == Treasury)
      && asset == tx.asset && required == tx.amount && available < required
      && (if held < tx.amount then a == tx.from && available == held
          else a == "ISSUANCE" && tx.kind.Burn? && available == (if tx.asset in w.issued then w.issued[tx.asset] else 0))
    case _ => false
  }

  /** A refusal names exactly the first broken requirement, with its figures. */
  lemma RefusedIff(accounts: Accounts, tx: Transaction, w: Working, e: LedgerError)
    ensures ValidateTransaction(accounts, tx, w) == Err(e) <==> FirstFault(accounts, tx, w, e)
  {
    Text.BlankIff(tx.asset);
  }

  /** The journal lines of a transaction: what it takes from one account and gives to the other. */
  predicate WritesLines(tx: Transaction, height: int, lines: seq<JournalEntry>) {
    match tx.kind
    case Transfer => lines == [JournalEntry(tx.id, DebitEntry, tx.from, tx.asset, tx.amount, height),
                               JournalEntry(tx.id, CreditEntry, tx.to, tx.asset, tx.amount, height)]
    case Mint => lines == [JournalEntry(tx.id, CreditEntry, tx.to, tx.asset, tx.amount, height)]
    case Burn => lines == [JournalEntry(tx.id, DebitEntry, tx.from, tx.asset, tx.amount, height)]
  }

  /** What a transfer and a burn take, a transfer and a mint give, and a mint and a burn change in the issued supply. */
  lemma TransactionEffect(tx: Transaction, height: int, w: Working)
    ensures ApplyTransaction(tx, height, w).Ok? <==> tx.kind.Mint? || Get(w.balances, (tx.from, tx.asset)) >= tx.amount
    ensures ApplyTransaction(tx, height, w).Ok? ==>
              var v := ApplyTransaction(tx, height, w).value;
              && (forall k :: Get(v.balances, k) == Get(w.balances, k)
                                                    - (if !tx.kind.Mint? && k == (tx.from, tx.asset) then tx.amount else 0)
                                                    + (if !tx.kind.Burn? && k == (tx.to, tx.asset) then tx.amount else 0))
              && (forall a :: Get(v.issued, a) == Get(w.issued, a)
                                                  + (if tx.kind.Mint? && a == tx.asset then tx.amount else 0)
                                                  - (if tx.kind.Burn? && a == tx.asset then tx.amount else 0))
              && v.nonces == w.nonces[tx.from := tx.nonce]
              && v.journal[..|w.journal|] == w.journal && WritesLines(tx, height, v.journal[|w.journal|..])
  {
  }

  lemma {:induction false} ApplyAllSnoc(accounts: Accounts, txs: seq<Transaction>, tx: Transaction, height: int, w: Working)
    ensures ApplyAll(accounts, txs + [tx], height, w)
            == match ApplyAll(accounts, txs, height, w)
               case Err(e) => Err(e)
               case Ok(v) => StepTransaction(accounts, tx, height, v)
  {
    assert (txs + [tx])[..|txs + [tx]| - 1] == txs;
  }

  lemma {:induction false} ApplyAllOne(accounts: Accounts, tx: Transaction, height: int, w: Working)
    ensures ApplyAll(accounts, [tx], height, w) == StepTransaction(accounts, tx, height, w)
  {
    assert [] + [tx] == [tx];
    ApplyAllSnoc(accounts, [], tx, height, w);
  }

  /** Once a prefix fails, the whole batch fails with the same error. */
  lemma {:induction false} ApplyAllPrefix(accounts: Accounts, txs: seq<Transaction>, k: nat, height: int, w: Working)
    requires k <= |txs|
    ensures ApplyAll(accounts, txs[..k], height, w).Err? ==>
              ApplyAll(accounts, txs, height, w) == ApplyAll(accounts, txs[..k], height, w)
    decreases |txs|
  {
    if k == |txs| {
      assert txs[..k] == txs;
    } else {
      ApplyAllPrefix(accounts, txs[..|txs| - 1], k, height, w);
      assert txs[..|txs| - 1][..k] == txs[..k];
    }
  }

  lemma {:induction false} ApplyAllTake(accounts: Accounts, txs: seq<Transaction>, i: nat, height: int, w: Working)
    requires i < |txs| && ApplyAll(accounts, txs[..i], height, w).Ok?
    ensures ApplyAll(accounts, txs[..i + 1], height, w) == StepTransaction(accounts, txs[i], height, ApplyAll(accounts, txs[..i], height, w).value)
  {
    OneMoreTaken(txs, i);
    ApplyAllSnoc(accounts, txs[..i], txs[i], height, w);
  }

  lemma OneMoreTaken<T>(s: seq<T>, i: nat)
    requires i < |s|
    ensures s[..i + 1] == s[..i] + [s[i]]
  {
  }

  /** One more turn of the batch loop, by position. */
  lemma {:induction false} ApplyAllStep(accounts: Accounts, txs: seq<Transaction>, i: nat, height: int, w: Working)
    requires i < |txs| && ApplyAll(accounts, txs[..i], height, w).Ok?
    ensures var v := ApplyAll(accounts, txs[..i], height, w).value;
            && ApplyAll(accounts, txs[..i + 1], height, w) == StepTransaction(accounts, txs[i], height, v)
            && (StepTransaction(accounts, txs[i], height, v).Err? ==>
                  ApplyAll(accounts, txs, height, w) == StepTransaction(accounts, txs[i], height, v))
  {
    ApplyAllTake(accounts, txs, i, height, w);
    ApplyAllPrefix(accounts, txs, i + 1, height, w);
  }

  /** Each transaction of the batch is acceptable in the state its predecessors leave. */
  ghost predicate AcceptableInTurn(accounts: Accounts, txs: seq<Transaction>, height: int, w: Working) {
    forall i: nat | i < |txs| ::
      ApplyAll(accounts, txs[..i], height, w).Ok? && Acceptable(accounts, txs[i], ApplyAll(accounts, txs[..i], height, w).value)
  }

  lemma {:induction false} AcceptableSnoc(accounts: Accounts, txs: seq<Transaction>, tx: Transaction, height: int, w: Working)
    ensures AcceptableInTurn(accounts, txs + [tx], height, w)
            <==> AcceptableInTurn(accounts, txs, height, w)
                 && ApplyAll(accounts, txs, height, w).Ok? && Acceptable(accounts, tx, ApplyAll(accounts, txs, height, w).value)
  {
    var all, n := txs + [tx], |txs|;
    assert forall i: nat | i < n :: all[..i] == txs[..i] && all[i] == txs[i];
    assert all[..n] == txs && all[n] == tx;
    if AcceptableInTurn(accounts, all, height, w) {
      forall i: nat | i < n
        ensures ApplyAll(accounts, txs[..i], height, w).Ok? && Acceptable(accounts, txs[i], ApplyAll(accounts, txs[..i], height, w).value)
      {
        assert ApplyAll(accounts, all[..i], height, w).Ok? && Acceptable(accounts, all[i], ApplyAll(accounts, all[..i], height, w).value);
      }
      assert ApplyAll(accounts, all[..n], height, w).Ok? && Acceptable(accounts, all[n], ApplyAll(accounts, all[..n], height, w).value);
    }
  }

  lemma {:induction false} StepIff(accounts: Accounts, txs: seq<Transaction>, tx: Transaction, height: int, w: Working)
    ensures ApplyAll(accounts, txs + [tx], height, w).Ok?
            <==> ApplyAll(accounts, txs, height, w).Ok? && Acceptable(accounts, tx, ApplyAll(accounts, txs, height, w).value)
  {
    ApplyAllSnoc(accounts, txs, tx, height, w);
    if ApplyAll(accounts, txs, height, w).Ok? {
      ValidatedTransactionApplies(accounts, tx, height, ApplyAll(accounts, txs, height, w).value);
      ValidIff(accounts, tx, ApplyAll(accounts, txs, height, w).value);
    }
  }

  /** A batch passes exactly when each of its transactions is acceptable in its turn. */
  lemma {:induction false} BatchIff(accounts: Accounts, txs: seq<Transaction>, height: int, w: Working)
    ensures ApplyAll(accounts, txs, height, w).Ok? <==> AcceptableInTurn(accounts, txs, height, w)
    decreases |txs|
  {
    if txs != [] {
      var front, tx := txs[..|txs| - 1], txs[|txs| - 1];
      BatchIff(accounts, front, height, w);
      StepIff(accounts, front, tx, height, w);
      AcceptableSnoc(accounts, front, tx, height, w);
      assert txs == front + [tx];
    }
  }

  /** Some transaction of the batch is the first to fail, with that error. */
  ghost predicate FirstToFail(accounts: Accounts, txs: seq<Transaction>, height: int, w: Working, e: LedgerError) {
    exists i: nat :: i < |txs| && FailsAt(accounts, txs, i, height, w, e)
  }

  ghost predicate FailsAt(accounts: Accounts, txs: seq<Transaction>, i: nat, height: int, w: Working, e: LedgerError)
    requires i < |txs|
  {
    ApplyAll(accounts, txs[..i], height, w).Ok? && FirstFault(accounts, txs[i], ApplyAll(accounts, txs[..i], height, w).value, e)
  }

  lemma {:induction false} BatchFault(accounts: Accounts, txs: seq<Transaction>, height: int, w: Working)
    requires ApplyAll(accounts, txs, height, w).Err?
    ensures FirstToFail(accounts, txs, height, w, ApplyAll(accounts, txs, height, w).error)
    decreases |txs|
  {
    var n := |txs| - 1;
    var front, tx := txs[..n], txs[n];
    if ApplyAll(accounts, front, height, w).Err? {
      BatchFault(accounts, front, height, w);
      var e := ApplyAll(accounts, front, height, w).error;
      var i: nat :| i < n && FailsAt(accounts, front, i, height, w, e);
      assert front[..i] == txs[..i];
      assert FailsAt(accounts, txs, i, height, w, e);
    } else {
      StepFault(accounts, tx, height, ApplyAll(accounts, front, height, w).value);
      assert FailsAt(accounts, txs, n, height, w, ApplyAll(accounts, txs, height, w).error);
    }
  }

  lemma StepFault(accounts: Accounts, tx: Transaction, height: int, w: Working)
    requires StepTransaction(accounts, tx, height, w).Err?
    ensures FirstFault(accounts, tx, w, StepTransaction(accounts, tx, height, w).error)
  {
    ValidatedTransactionApplies(accounts, tx, height, w);
    RefusedIff(accounts, tx, w, StepTransaction(accounts, tx, height, w).error);
  }

  /** Replays a whole chain, block by block, from a starting state. */
  function Replay(accounts: Accounts, blocks: seq<Block>, w: Working): Result<Working, LedgerError> {
    if blocks == [] then Ok(w)
    else
      var before :- Replay(accounts, blocks[..|blocks| - 1], w);
      ApplyAll(accounts, blocks[|blocks| - 1].txs, blocks[|blocks| - 1].height, before)
  }

  lemma {:induction false} ReplaySnoc(accounts: Accounts, blocks: seq<Block>, b: Block, w: Working)
    ensures Replay(accounts, blocks + [b], w)
            == match Replay(accounts, blocks, w)
               case Err(e) => Err(e)
               case Ok(v) => ApplyAll(accounts, b.txs, b.height, v)
  {
    assert (blocks + [b])[..|blocks + [b]| - 1] == blocks;
  }

  /** All transactions of a chain, in order. */
  function AllTxs(blocks: seq<Block>): seq<Transaction> {
    if blocks == [] then [] else AllTxs(blocks[..|blocks| - 1]) + blocks[|blocks| - 1].txs
  }

  lemma {:induction false} AllTxsSnoc(blocks: seq<Block>, b: Block)
    ensures AllTxs(blocks + [b]) == AllTxs(blocks) + b.txs
  {
    assert (blocks + [b])[..|blocks + [b]| - 1] == blocks;
  }

  /** Validation already guarantees that the application after it succeeds. */
  lemma ValidatedTransactionApplies(accounts: Accounts, tx: Transaction, height: int, w: Working)
    ensures StepTransaction(accounts, tx, height, w).Ok? <==> ValidateTransaction(accounts, tx, w).Ok?
    ensures ValidateTransaction(accounts, tx, w).Err? ==>
              StepTransaction(accounts, tx, height, w).error == ValidateTransaction(accounts, tx, w).error
  {
  }

  lemma StepHeightLabels(accounts: Accounts, tx: Transaction, h1: int, h2: int, v: Working, w: Working)
    requires v.(journal := []) == w.(journal := [])
    ensures var a, b := StepTransaction(accounts, tx, h1, v), StepTransaction(accounts, tx, h2, w);
            && (a.Err? <==> b.Err?)
            && (a.Err? ==> a.error == b.error)
            && (a.Ok? ==> a.value.(journal := []) == b.value.(journal := []))
  {
    assert v.balances == w.balances && v.nonces == w.nonces && v.issued == w.issued;
    assert ValidateTransaction(accounts, tx, v) == ValidateTransaction(accounts, tx, w);
  }

  /** The verdict and the money do not depend on the height, which only labels journal entries. */
  lemma {:induction false} HeightOnlyLabels(accounts: Accounts, txs: seq<Transaction>, h1: int, h2: int, w: Working)
    ensures var a, b := ApplyAll(accounts, txs, h1, w), ApplyAll(accounts, txs, h2, w);
            && (a.Err? <==> b.Err?)
            && (a.Err? ==> a.error == b.error)
            && (a.Ok? ==> a.value.(journal := []) == b.value.(journal := []))
    decreases |txs|
  {
    if txs != [] {
      var front, tx := txs[..|txs| - 1], txs[|txs| - 1];
      HeightOnlyLabels(accounts, front, h1, h2, w);
      if ApplyAll(accounts, front, h1, w).Ok? {
        StepHeightLabels(accounts, tx, h1, h2, ApplyAll(accounts, front, h1, w).value, ApplyAll(accounts, front, h2, w).value);
      }
    }
  }
}

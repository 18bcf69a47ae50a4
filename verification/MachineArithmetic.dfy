/**
  The unchecked 128-bit additions and subtractions of `credit`, `debit` and the issued map
  (crates/kani-ledger/src/lib.rs:2914-2997), against the unbounded integers the other modules use.
  Sums wrap around as two's complement does. They never do, in any run whose mints keep issued supply
  within 2^127 - 1; and a mint past that bound always does.
 */
module MachineArithmetic {
  import opened Wrappers
  import opened Types
  import opened LedgerCore
  import opened Books

  const TWO_TO_THE_128: int := 0x1_0000_0000_0000_0000_0000_0000_0000_0000
  const MAX_I128: int := 0x7fff_ffff_ffff_ffff_ffff_ffff_ffff_ffff
  const MIN_I128: int := -MAX_I128 - 1

  predicate Fits(n: int) {
    MIN_I128 <= n <= MAX_I128
  }

  /** The 128-bit result of an exact sum. */
  function Wrap(n: int): (r: int)
    ensures Fits(r)
    ensures r == n <==> Fits(n)
  {
    (n - MIN_I128) % TWO_TO_THE_128 + MIN_I128
  }

  function MachineAdd<K>(m: map<K, int>, k: K, delta: int): map<K, int> {
    m[k := Wrap(Get(m, k) + delta)]
  }

  function MachineDebit(balances: Balances, account: AccountId, asset: Asset, amount: int): Result<Balances, LedgerError> {
    var _ :- EnsureSufficientBalance(balances, account, asset, amount);
    Ok(MachineAdd(balances, (account, asset), -amount))
  }

  function MachineApply(tx: Transaction, height: int, w: Working): Result<Working, LedgerError> {
    var nonces := w.nonces[tx.from := tx.nonce];
    match tx.kind
    case Transfer =>
      var debited :- MachineDebit(w.balances, tx.from, tx.asset, tx.amount);
      Ok(Working(MachineAdd(debited, (tx.to, tx.asset), tx.amount), nonces, w.issued, w.journal + Lines(tx, height)))
    case Mint =>
      Ok(Working(MachineAdd(w.balances, (tx.to, tx.asset), tx.amount), nonces, MachineAdd(w.issued, tx.asset, tx.amount),
                 w.journal + Lines(tx, height)))
    case Burn =>
      var debited :- MachineDebit(w.balances, tx.from, tx.asset, tx.amount);
      Ok(Working(debited, nonces, MachineAdd(w.issued, tx.asset, -tx.amount), w.journal + Lines(tx, height)))
  }

  function MachineStep(accounts: Accounts, tx: Transaction, height: int, w: Working): Result<Working, LedgerError> {
    var _ :- ValidateTransaction(accounts, tx, w);
    MachineApply(tx, height, w)
  }

  function MachineApplyAll(accounts: Accounts, txs: seq<Transaction>, height: int, w: Working): Result<Working, LedgerError> {
    if txs == [] then Ok(w)
    else
      var before :- MachineApplyAll(accounts, txs[..|txs| - 1], height, w);
      MachineStep(accounts, txs[|txs| - 1], height, before)
  }

  function MachineReplay(accounts: Accounts, blocks: seq<Block>, w: Working): Result<Working, LedgerError> {
    if blocks == [] then Ok(w)
    else
      var before :- MachineReplay(accounts, blocks[..|blocks| - 1], w);
      MachineApplyAll(accounts, blocks[|blocks| - 1].txs, blocks[|blocks| - 1].height, before)
  }

  /** Issued supply is within the machine's range. */
  ghost predicate SupplyFits(w: Working) {
    forall asset :: Get(w.issued, asset) <= MAX_I128
  }

  /** The one thing that can overflow. */
  predicate MintOverflows(tx: Transaction, w: Working) {
    tx.kind.Mint? && Get(w.issued, tx.asset) + tx.amount > MAX_I128
  }

  lemma BalanceFits(w: Working, account: AccountId, asset: Asset)
    requires Conserved(w) && SupplyFits(w)
    ensures 0 <= Get(w.balances, (account, asset)) <= Get(w.issued, asset) <= MAX_I128
  {
    BalanceWithinTotal(w.balances, account, asset);
    assert TotalHeld(w.balances, asset) == Get(w.issued, asset);
  }

  /** After the debit, the credit of a transfer stays within the total, the same account included. */
  lemma CreditAfterDebitFits(w: Working, from: AccountId, to: AccountId, asset: Asset, amount: int)
    requires Conserved(w) && SupplyFits(w) && 0 < amount <= Get(w.balances, (from, asset))
    ensures var debited := Add(w.balances, (from, asset), -amount);
            0 <= Get(debited, (to, asset)) && Get(debited, (to, asset)) + amount <= MAX_I128
  {
    var debited := Add(w.balances, (from, asset), -amount);
    TotalHeldAdd(w.balances, from, asset, -amount, asset);
    assert NonNegative(debited);
    BalanceWithinTotal(debited, to, asset);
    assert TotalHeld(w.balances, asset) == Get(w.issued, asset) <= MAX_I128;
  }

  lemma AddIsExactIff<K>(m: map<K, int>, k: K, delta: int)
    ensures MachineAdd(m, k, delta) == Add(m, k, delta) <==> Fits(Get(m, k) + delta)
  {
    assert MachineAdd(m, k, delta)[k] == Wrap(Get(m, k) + delta) && Add(m, k, delta)[k] == Get(m, k) + delta;
  }

  lemma TransferIsExact(tx: Transaction, height: int, w: Working)
    requires Conserved(w) && SupplyFits(w) && tx.amount > 0 && tx.kind.Transfer? && ApplyTransaction(tx, height, w).Ok?
    ensures MachineApply(tx, height, w) == ApplyTransaction(tx, height, w)
  {
    BalanceFits(w, tx.from, tx.asset);
    CreditAfterDebitFits(w, tx.from, tx.to, tx.asset, tx.amount);
    AddIsExactIff(w.balances, (tx.from, tx.asset), -tx.amount);
    AddIsExactIff(Add(w.balances, (tx.from, tx.asset), -tx.amount), (tx.to, tx.asset), tx.amount);
  }

  lemma BurnIsExact(tx: Transaction, height: int, w: Working)
    requires Conserved(w) && SupplyFits(w) && tx.amount > 0 && tx.kind.Burn? && ApplyTransaction(tx, height, w).Ok?
    ensures MachineApply(tx, height, w) == ApplyTransaction(tx, height, w)
  {
    BalanceFits(w, tx.from, tx.asset);
    AddIsExactIff(w.balances, (tx.from, tx.asset), -tx.amount);
    AddIsExactIff(w.issued, tx.asset, -tx.amount);
  }

  lemma MintIsExactIff(tx: Transaction, height: int, w: Working)
    requires Conserved(w) && SupplyFits(w) && tx.amount > 0 && tx.kind.Mint?
    ensures MachineApply(tx, height, w) == ApplyTransaction(tx, height, w) <==> !MintOverflows(tx, w)
  {
    BalanceFits(w, tx.to, tx.asset);
    AddIsExactIff(w.balances, (tx.to, tx.asset), tx.amount);
    AddIsExactIff(w.issued, tx.asset, tx.amount);
  }

  /**
    In a conserved state within range, one 128-bit step equals the exact step unless it is a mint that takes
    issued supply past 2^127 - 1, and then it never does.
   */
  lemma StepIsExactIff(accounts: Accounts, tx: Transaction, height: int, w: Working)
    requires Conserved(w) && SupplyFits(w) && Fits(tx.amount)
    requires StepTransaction(accounts, tx, height, w).Ok?
    ensures MachineStep(accounts, tx, height, w) == StepTransaction(accounts, tx, height, w) <==> !MintOverflows(tx, w)
    ensures MachineStep(accounts, tx, height, w).Ok?
  {
    assert tx.amount > 0;
    match tx.kind {
      case Transfer => TransferIsExact(tx, height, w);
      case Mint => MintIsExactIff(tx, height, w);
      case Burn => BurnIsExact(tx, height, w);
    }
  }

  /** A mint past the bound leaves a negative issued supply, so the books no longer balance. */
  lemma OverflowBreaksBooks(accounts: Accounts, tx: Transaction, height: int, w: Working)
    requires Conserved(w) && SupplyFits(w) && Fits(tx.amount)
    requires StepTransaction(accounts, tx, height, w).Ok? && MintOverflows(tx, w)
    ensures Get(MachineStep(accounts, tx, height, w).value.issued, tx.asset) < 0
    ensures !Conserved(MachineStep(accounts, tx, height, w).value)
  {
    BalanceFits(w, tx.to, tx.asset);
    var v := MachineStep(accounts, tx, height, w).value;
    var n := Get(w.issued, tx.asset) + tx.amount;
    WrapOver(n);
    if Conserved(v) {
      BalanceWithinTotal(v.balances, tx.to, tx.asset);
    }
  }

  lemma WrapOver(n: int)
    requires MAX_I128 < n <= 2 * MAX_I128
    ensures Wrap(n) == n - TWO_TO_THE_128 < 0
  {
  }

  // ---- Runs ----

  /** Every mint met along the way keeps issued supply within range. */
  ghost predicate BatchFits(accounts: Accounts, txs: seq<Transaction>, height: int, w: Working) {
    forall k: nat | k <= |txs| && ApplyAll(accounts, txs[..k], height, w).Ok? ::
      SupplyFits(ApplyAll(accounts, txs[..k], height, w).value)
  }

  ghost predicate AmountsFit(txs: seq<Transaction>) {
    forall tx | tx in txs :: Fits(tx.amount)
  }

  lemma {:induction false} BatchFitsPrefix(accounts: Accounts, txs: seq<Transaction>, height: int, w: Working)
    requires txs != [] && BatchFits(accounts, txs, height, w)
    ensures BatchFits(accounts, txs[..|txs| - 1], height, w)
    ensures ApplyAll(accounts, txs[..|txs| - 1], height, w).Ok? ==> SupplyFits(ApplyAll(accounts, txs[..|txs| - 1], height, w).value)
    ensures ApplyAll(accounts, txs, height, w).Ok? ==> SupplyFits(ApplyAll(accounts, txs, height, w).value)
  {
    var front := txs[..|txs| - 1];
    forall k: nat | k <= |front| && ApplyAll(accounts, front[..k], height, w).Ok?
      ensures SupplyFits(ApplyAll(accounts, front[..k], height, w).value)
    {
      assert front[..k] == txs[..k];
    }
    assert txs[..|txs|] == txs;
  }

  lemma StepIsExact(accounts: Accounts, done: seq<Transaction>, tx: Transaction, height: int, w: Working)
    requires Balanced(done, w) && SupplyFits(w) && Fits(tx.amount)
    requires StepTransaction(accounts, tx, height, w).Ok? ==> SupplyFits(StepTransaction(accounts, tx, height, w).value)
    ensures MachineStep(accounts, tx, height, w) == StepTransaction(accounts, tx, height, w)
  {
    if StepTransaction(accounts, tx, height, w).Ok? {
      StepIsExactIff(accounts, tx, height, w);
      MintInRange(accounts, tx, height, w);
    } else {
      ValidatedTransactionApplies(accounts, tx, height, w);
    }
  }

  /** Same verdict and same result, transaction by transaction. */
  lemma {:induction false} BatchIsExact(accounts: Accounts, done: seq<Transaction>, txs: seq<Transaction>, height: int, w: Working)
    requires Balanced(done, w) && AmountsFit(txs) && BatchFits(accounts, txs, height, w)
    ensures MachineApplyAll(accounts, txs, height, w) == ApplyAll(accounts, txs, height, w)
    decreases |txs|
  {
    if txs != [] {
      var front, tx := txs[..|txs| - 1], txs[|txs| - 1];
      assert forall x | x in front :: x in txs;
      BatchFitsPrefix(accounts, txs, height, w);
      BatchIsExact(accounts, done, front, height, w);
      if ApplyAll(accounts, front, height, w).Ok? {
        BatchKeepsBalance(accounts, done, front, height, w);
        StepIsExact(accounts, done + front, tx, height, ApplyAll(accounts, front, height, w).value);
      }
    }
  }

  lemma MintInRange(accounts: Accounts, tx: Transaction, height: int, w: Working)
    requires StepTransaction(accounts, tx, height, w).Ok? && SupplyFits(StepTransaction(accounts, tx, height, w).value)
    ensures !MintOverflows(tx, w)
  {
    var v := StepTransaction(accounts, tx, height, w).value;
    assert Get(v.issued, tx.asset) <= MAX_I128;
  }

  /** The block at one place of a chain, applied to the exact replay of the blocks before it, keeps supply in range. */
  ghost predicate BlockFits(accounts: Accounts, blocks: seq<Block>, i: nat, w: Working)
    requires i < |blocks|
  {
    var before := Replay(accounts, blocks[..i], w);
    before.Ok? ==> AmountsFit(blocks[i].txs) && BatchFits(accounts, blocks[i].txs, blocks[i].height, before.value)
  }

  ghost predicate ChainFits(accounts: Accounts, blocks: seq<Block>, w: Working) {
    forall i: nat | i < |blocks| :: BlockFits(accounts, blocks, i, w)
  }

  lemma ChainFitsPrefix(accounts: Accounts, blocks: seq<Block>, n: nat, w: Working)
    requires n < |blocks| && ChainFits(accounts, blocks, w)
    ensures ChainFits(accounts, blocks[..n], w)
  {
    forall i: nat | i < n ensures BlockFits(accounts, blocks[..n], i, w) {
      assert BlockFits(accounts, blocks, i, w);
      assert blocks[..n][..i] == blocks[..i];
    }
  }

  lemma {:induction false} BlockIsExact(accounts: Accounts, blocks: seq<Block>, n: nat, w: Working)
    requires Zero(w) && n < |blocks| && BlockFits(accounts, blocks, n, w) && Replay(accounts, blocks[..n], w).Ok?
    ensures var before := Replay(accounts, blocks[..n], w).value;
            MachineApplyAll(accounts, blocks[n].txs, blocks[n].height, before)
            == ApplyAll(accounts, blocks[n].txs, blocks[n].height, before)
  {
    ReplayIsBalanced(accounts, blocks[..n], w);
    BatchIsExact(accounts, AllTxs(blocks[..n]), blocks[n].txs, blocks[n].height, Replay(accounts, blocks[..n], w).value);
  }

  /**
    For any chain from a start without money, self-transfers included: if every mint keeps issued supply at
    or below 2^127 - 1, replaying it with 128-bit words gives exactly the unbounded result, or the same error.
   */
  lemma {:induction false} ReplayIsExact(accounts: Accounts, blocks: seq<Block>, w: Working)
    requires Zero(w) && ChainFits(accounts, blocks, w)
    ensures MachineReplay(accounts, blocks, w) == Replay(accounts, blocks, w)
    decreases |blocks|
  {
    if blocks != [] {
      var n := |blocks| - 1;
      ChainFitsPrefix(accounts, blocks, n, w);
      ReplayIsExact(accounts, blocks[..n], w);
      if Replay(accounts, blocks[..n], w).Ok? {
        BlockIsExact(accounts, blocks, n, w);
      }
    }
  }
}

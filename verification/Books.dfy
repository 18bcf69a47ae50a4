/**
  The redundant views of the money - balances, issued supply, journal, nonces and the list of
  finalized transactions - and the proof that every replay of a chain keeps them in agreement.
 */
module Books {
  import opened Wrappers
  import opened Types
  import opened LedgerCore

  // ---- Sums over the balance table ----

  ghost function SumOver(keys: set<(AccountId, Asset)>, balances: Balances, asset: Asset): int
    requires keys <= balances.Keys
  {
    if keys == {} then 0
    else
      var k :| k in keys;
      (if k.1 == asset then balances[k] else 0) + SumOver(keys - {k}, balances, asset)
  }

  /** The sum of all balances held in an asset. */
  ghost function TotalHeld(balances: Balances, asset: Asset): int {
    SumOver(balances.Keys, balances, asset)
  }

  lemma {:induction false} SumOverRemove(keys: set<(AccountId, Asset)>, balances: Balances, asset: Asset, k: (AccountId, Asset))
    requires keys <= balances.Keys && k in keys
    ensures SumOver(keys, balances, asset)
            == (if k.1 == asset then balances[k] else 0) + SumOver(keys - {k}, balances, asset)
    decreases |keys|
  {
    var j :| j in keys && SumOver(keys, balances, asset)
                          == (if j.1 == asset then balances[j] else 0) + SumOver(keys - {j}, balances, asset);
    if j != k {
      SumOverRemove(keys - {j}, balances, asset, k);
      SumOverRemove(keys - {k}, balances, asset, j);
      assert keys - {j} - {k} == keys - {k} - {j};
    }
  }

  lemma {:induction false} SumOverFrame(keys: set<(AccountId, Asset)>, a: Balances, b: Balances, asset: Asset)
    requires keys <= a.Keys && keys <= b.Keys
    requires forall k | k in keys :: a[k] == b[k]
    ensures SumOver(keys, a, asset) == SumOver(keys, b, asset)
    decreases |keys|
  {
    if keys != {} {
      var k :| k in keys;
      SumOverRemove(keys, a, asset, k);
      SumOverRemove(keys, b, asset, k);
      SumOverFrame(keys - {k}, a, b, asset);
    }
  }

  /** Changing one row changes the total of its own asset by the same amount and no other total. */
  lemma TotalHeldAdd(balances: Balances, account: AccountId, coin: Asset, delta: int, asset: Asset)
    ensures TotalHeld(Add(balances, (account, coin), delta), asset)
            == TotalHeld(balances, asset) + (if coin == asset then delta else 0)
  {
    var k := (account, coin);
    var after := Add(balances, k, delta);
    SumOverRemove(after.Keys, after, asset, k);
    assert after.Keys - {k} == balances.Keys - {k};
    SumOverFrame(balances.Keys - {k}, after, balances, asset);
    if k in balances {
      SumOverRemove(balances.Keys, balances, asset, k);
    } else {
      assert balances.Keys - {k} == balances.Keys;
    }
  }

  ghost predicate NonNegative(balances: Balances) {
    forall k | k in balances :: balances[k] >= 0
  }

  lemma {:induction false} SumOverNonNegative(keys: set<(AccountId, Asset)>, balances: Balances, asset: Asset)
    requires keys <= balances.Keys && NonNegative(balances)
    ensures SumOver(keys, balances, asset) >= 0
    decreases |keys|
  {
    if keys != {} {
      var k :| k in keys;
      SumOverRemove(keys, balances, asset, k);
      SumOverNonNegative(keys - {k}, balances, asset);
    }
  }

  /** With no negative row, one balance never exceeds the total; two rows together do not either. */
  lemma BalanceWithinTotal(balances: Balances, account: AccountId, asset: Asset)
    requires NonNegative(balances)
    ensures 0 <= Get(balances, (account, asset)) <= TotalHeld(balances, asset)
  {
    var k := (account, asset);
    SumOverNonNegative(balances.Keys, balances, asset);
    if k in balances {
      SumOverRemove(balances.Keys, balances, asset, k);
      SumOverNonNegative(balances.Keys - {k}, balances, asset);
    }
  }

  // ---- The other views ----

  /** Credits minus debits of one account in one asset. */
  function NetJournal(journal: seq<JournalEntry>, account: AccountId, asset: Asset): int {
    if journal == [] then 0
    else
      var e := journal[|journal| - 1];
      NetJournal(journal[..|journal| - 1], account, asset)
      + (if e.accountId != account || e.asset != asset then 0
         else if e.direction.CreditEntry? then e.amount else -e.amount)
  }

  lemma {:induction false} NetJournalConcat(a: seq<JournalEntry>, b: seq<JournalEntry>, account: AccountId, asset: Asset)
    ensures NetJournal(a + b, account, asset) == NetJournal(a, account, asset) + NetJournal(b, account, asset)
    decreases |b|
  {
    if b == [] {
      assert a + b == a;
    } else {
      assert (a + b)[..|a + b| - 1] == a + b[..|b| - 1];
      NetJournalConcat(a, b[..|b| - 1], account, asset);
    }
  }

  lemma {:induction false} NetJournalOfTwo(e: JournalEntry, f: JournalEntry, account: AccountId, asset: Asset)
    ensures NetJournal([e], account, asset)
            == (if e.accountId != account || e.asset != asset then 0
                else if e.direction.CreditEntry? then e.amount else -e.amount)
    ensures NetJournal([e, f], account, asset) == NetJournal([e], account, asset) + NetJournal([f], account, asset)
  {
    assert [e][..0] == [] && [f][..0] == [];
    assert [e, f][..1] == [e];
  }

  /** What the transactions of one kind move in one asset. */
  function SumOfKind(txs: seq<Transaction>, kind: TransactionKind, asset: Asset): int {
    if txs == [] then 0
    else
      var t := txs[|txs| - 1];
      SumOfKind(txs[..|txs| - 1], kind, asset) + (if t.kind == kind && t.asset == asset then t.amount else 0)
  }

  lemma {:induction false} SumOfKindSnoc(txs: seq<Transaction>, t: Transaction, kind: TransactionKind, asset: Asset)
    ensures SumOfKind(txs + [t], kind, asset)
            == SumOfKind(txs, kind, asset) + (if t.kind == kind && t.asset == asset then t.amount else 0)
  {
    assert (txs + [t])[..|txs + [t]| - 1] == txs;
  }

  lemma {:induction false} SumOfKindConcat(a: seq<Transaction>, b: seq<Transaction>, kind: TransactionKind, asset: Asset)
    ensures SumOfKind(a + b, kind, asset) == SumOfKind(a, kind, asset) + SumOfKind(b, kind, asset)
    decreases |b|
  {
    if b == [] {
      assert a + b == a;
    } else {
      assert (a + b)[..|a + b| - 1] == a + b[..|b| - 1];
      SumOfKindConcat(a, b[..|b| - 1], kind, asset);
    }
  }

  /** Minted minus burned. */
  function NetIssue(txs: seq<Transaction>, asset: Asset): int {
    SumOfKind(txs, Mint, asset) - SumOfKind(txs, Burn, asset)
  }

  /**
    Replay protection: nonces are positive, strictly increase along each account's transactions,
    and the map holds exactly the last one of every account that ever sent.
   */
  ghost predicate NonceTrail(txs: seq<Transaction>, nonces: map<AccountId, int>) {
    && (forall i | 0 <= i < |txs| :: txs[i].from in nonces && 0 < txs[i].nonce <= nonces[txs[i].from])
    && (forall i, j | 0 <= i < j < |txs| && txs[i].from == txs[j].from :: txs[i].nonce < txs[j].nonce)
    && (forall a | a in nonces :: exists i :: 0 <= i < |txs| && txs[i].from == a && txs[i].nonce == nonces[a])
  }

  ghost predicate Conserved(w: Working) {
    && NonNegative(w.balances)
    && forall asset :: TotalHeld(w.balances, asset) == Get(w.issued, asset)
  }

  ghost predicate JournalAgrees(w: Working) {
    forall account, asset :: Get(w.balances, (account, asset)) == NetJournal(w.journal, account, asset)
  }

  ghost predicate IssueAgrees(txs: seq<Transaction>, issued: map<Asset, int>) {
    && (forall asset :: Get(issued, asset) == NetIssue(txs, asset))
    && (forall asset :: asset in issued <==> exists i :: 0 <= i < |txs| && txs[i].asset == asset && !txs[i].kind.Transfer?)
  }

  /** All views agree, for money reached by applying `txs`. */
  ghost predicate Balanced(txs: seq<Transaction>, w: Working) {
    && Conserved(w)
    && JournalAgrees(w)
    && IssueAgrees(txs, w.issued)
    && NonceTrail(txs, w.nonces)
  }

  /** A start without money: rows may exist but hold nothing. */
  predicate Zero(w: Working) {
    && (forall k | k in w.balances :: w.balances[k] == 0)
    && w.nonces == map[] && w.issued == map[] && w.journal == []
  }

  lemma {:induction false} SumOverZero(keys: set<(AccountId, Asset)>, balances: Balances, asset: Asset)
    requires keys <= balances.Keys && forall k | k in balances :: balances[k] == 0
    ensures SumOver(keys, balances, asset) == 0
    decreases |keys|
  {
    if keys != {} {
      var k :| k in keys;
      SumOverRemove(keys, balances, asset, k);
      SumOverZero(keys - {k}, balances, asset);
    }
  }

  lemma ZeroIsBalanced(w: Working)
    requires Zero(w)
    ensures Balanced([], w)
  {
    forall asset ensures TotalHeld(w.balances, asset) == Get(w.issued, asset) {
      SumOverZero(w.balances.Keys, w.balances, asset);
    }
  }

  // ---- One transaction keeps every view in agreement ----

  lemma StepConserves(accounts: Accounts, tx: Transaction, height: int, w: Working)
    requires Conserved(w) && StepTransaction(accounts, tx, height, w).Ok?
    ensures Conserved(StepTransaction(accounts, tx, height, w).value)
  {
    var v := StepTransaction(accounts, tx, height, w).value;
    forall asset ensures TotalHeld(v.balances, asset) == Get(v.issued, asset) {
      match tx.kind {
        case Transfer =>
          TotalHeldAdd(w.balances, tx.from, tx.asset, -tx.amount, asset);
          TotalHeldAdd(Add(w.balances, (tx.from, tx.asset), -tx.amount), tx.to, tx.asset, tx.amount, asset);
        case Mint =>
          TotalHeldAdd(w.balances, tx.to, tx.asset, tx.amount, asset);
        case Burn =>
          TotalHeldAdd(w.balances, tx.from, tx.asset, -tx.amount, asset);
      }
    }
  }

  /** The lines a transaction writes net to exactly what it does to each balance. */
  lemma {:induction false} LinesNetToBalanceChange(tx: Transaction, height: int, w: Working, account: AccountId, asset: Asset)
    requires ApplyTransaction(tx, height, w).Ok?
    ensures Get(ApplyTransaction(tx, height, w).value.balances, (account, asset))
            == Get(w.balances, (account, asset)) + NetJournal(Lines(tx, height), account, asset)
  {
    var d, c := DebitLine(tx, height), CreditLine(tx, height);
    match tx.kind {
      case Transfer => NetJournalOfTwo(d, c, account, asset);
                       NetJournalOfTwo(c, d, account, asset);
      case Mint => NetJournalOfTwo(c, c, account, asset);
      case Burn => NetJournalOfTwo(d, d, account, asset);
    }
  }

  lemma StepKeepsJournal(accounts: Accounts, tx: Transaction, height: int, w: Working)
    requires JournalAgrees(w) && StepTransaction(accounts, tx, height, w).Ok?
    ensures JournalAgrees(StepTransaction(accounts, tx, height, w).value)
  {
    var v := StepTransaction(accounts, tx, height, w).value;
    assert v == ApplyTransaction(tx, height, w).value;
    forall account, asset
      ensures Get(v.balances, (account, asset)) == NetJournal(v.journal, account, asset)
    {
      LinesNetToBalanceChange(tx, height, w, account, asset);
      NetJournalConcat(w.journal, Lines(tx, height), account, asset);
    }
  }

  lemma StepKeepsIssue(accounts: Accounts, txs: seq<Transaction>, tx: Transaction, height: int, w: Working)
    requires IssueAgrees(txs, w.issued) && StepTransaction(accounts, tx, height, w).Ok?
    ensures IssueAgrees(txs + [tx], StepTransaction(accounts, tx, height, w).value.issued)
  {
    var v := StepTransaction(accounts, tx, height, w).value;
    forall asset ensures Get(v.issued, asset) == NetIssue(txs + [tx], asset) {
      SumOfKindSnoc(txs, tx, Mint, asset);
      SumOfKindSnoc(txs, tx, Burn, asset);
      assert Get(w.issued, asset) == NetIssue(txs, asset);
    }
    var all := txs + [tx];
    forall asset
      ensures asset in v.issued <==> exists i :: 0 <= i < |all| && all[i].asset == asset && !all[i].kind.Transfer?
    {
      if asset in w.issued {
        var i :| 0 <= i < |txs| && txs[i].asset == asset && !txs[i].kind.Transfer?;
        assert all[i] == txs[i];
      } else if asset in v.issued {
        assert all[|txs|] == tx;
      }
    }
  }

  lemma NonceTrailSnoc(txs: seq<Transaction>, nonces: map<AccountId, int>, tx: Transaction)
    requires NonceTrail(txs, nonces) && tx.nonce > Get(nonces, tx.from)
    ensures NonceTrail(txs + [tx], nonces[tx.from := tx.nonce])
  {
    var all, after := txs + [tx], nonces[tx.from := tx.nonce];
    assert tx.nonce > 0 by {
      if tx.from in nonces {
        var i :| 0 <= i < |txs| && txs[i].from == tx.from && txs[i].nonce == nonces[tx.from];
      }
    }
    forall i | 0 <= i < |all|
      ensures all[i].from in after && 0 < all[i].nonce <= after[all[i].from]
    {
      if i < |txs| {
        assert txs[i].from in nonces;
      }
    }
    forall a | a in after
      ensures exists i :: 0 <= i < |all| && all[i].from == a && all[i].nonce == after[a]
    {
      if a == tx.from {
        assert all[|txs|] == tx;
      } else {
        var i :| 0 <= i < |txs| && txs[i].from == a && txs[i].nonce == nonces[a];
        assert all[i] == txs[i];
      }
    }
  }

  lemma StepSetsNonce(accounts: Accounts, tx: Transaction, height: int, w: Working)
    requires StepTransaction(accounts, tx, height, w).Ok?
    ensures tx.nonce > Get(w.nonces, tx.from)
    ensures StepTransaction(accounts, tx, height, w).value.nonces == w.nonces[tx.from := tx.nonce]
  {
  }

  lemma StepKeepsBalance(accounts: Accounts, txs: seq<Transaction>, tx: Transaction, height: int, w: Working)
    requires Balanced(txs, w) && StepTransaction(accounts, tx, height, w).Ok?
    ensures Balanced(txs + [tx], StepTransaction(accounts, tx, height, w).value)
  {
    var v := StepTransaction(accounts, tx, height, w).value;
    assert Conserved(v) by {
      StepConserves(accounts, tx, height, w);
    }
    assert JournalAgrees(v) by {
      StepKeepsJournal(accounts, tx, height, w);
    }
    assert IssueAgrees(txs + [tx], v.issued) by {
      StepKeepsIssue(accounts, txs, tx, height, w);
    }
    assert NonceTrail(txs + [tx], v.nonces) by {
      StepSetsNonce(accounts, tx, height, w);
      NonceTrailSnoc(txs, w.nonces, tx);
    }
  }

  lemma {:induction false} OneMoreKeepsBalance(accounts: Accounts, before: seq<Transaction>, txs: seq<Transaction>, tx: Transaction,
                                               height: int, w: Working)
    requires ApplyAll(accounts, txs + [tx], height, w).Ok?
    requires ApplyAll(accounts, txs, height, w).Ok? && Balanced(before + txs, ApplyAll(accounts, txs, height, w).value)
    ensures Balanced(before + (txs + [tx]), ApplyAll(accounts, txs + [tx], height, w).value)
  {
    ApplyAllSnoc(accounts, txs, tx, height, w);
    assert before + (txs + [tx]) == (before + txs) + [tx];
    StepKeepsBalance(accounts, before + txs, tx, height, ApplyAll(accounts, txs, height, w).value);
  }

  lemma {:induction false} BatchKeepsBalance(accounts: Accounts, before: seq<Transaction>, txs: seq<Transaction>, height: int,
                                             w: Working)
    requires Balanced(before, w) && ApplyAll(accounts, txs, height, w).Ok?
    ensures Balanced(before + txs, ApplyAll(accounts, txs, height, w).value)
    decreases |txs|
  {
    if txs == [] {
      assert before + txs == before;
    } else {
      var front, tx := txs[..|txs| - 1], txs[|txs| - 1];
      assert txs == front + [tx];
      BatchKeepsBalance(accounts, before, front, height, w);
      OneMoreKeepsBalance(accounts, before, front, tx, height, w);
    }
  }

  /** Every chain that replays from zero leaves all views of the money in agreement. */
  lemma {:induction false} ReplayIsBalanced(accounts: Accounts, blocks: seq<Block>, w: Working)
    requires Zero(w) && Replay(accounts, blocks, w).Ok?
    ensures Balanced(AllTxs(blocks), Replay(accounts, blocks, w).value)
    decreases |blocks|
  {
    if blocks == [] {
      ZeroIsBalanced(w);
    } else {
      var front, b := blocks[..|blocks| - 1], blocks[|blocks| - 1];
      ReplayIsBalanced(accounts, front, w);
      BatchKeepsBalance(accounts, AllTxs(front), b.txs, b.height, Replay(accounts, front, w).value);
    }
  }

  // ---- Consequences ----

  /** Validation without the second test of a burn. */
  function ValidateWithoutIssuanceTest(accounts: Accounts, tx: Transaction, w: Working): Result<Unit, LedgerError> {
    if tx.amount <= 0 || !tx.kind.Burn? then ValidateTransaction(accounts, tx, w)
    else ValidateTransaction(accounts, tx, w.(issued := map[tx.asset := tx.amount]))
  }

  /** The ISSUANCE branch of a burn is dead code in every conserved state: dropping the test changes no verdict. */
  lemma IssuanceTestIsRedundant(accounts: Accounts, tx: Transaction, w: Working)
    requires Conserved(w)
    ensures ValidateTransaction(accounts, tx, w) == ValidateWithoutIssuanceTest(accounts, tx, w)
    ensures Get(w.balances, (tx.from, tx.asset)) >= tx.amount ==> Get(w.issued, tx.asset) >= tx.amount
  {
    BalanceWithinTotal(w.balances, tx.from, tx.asset);
  }

  /** No (account, nonce) pair is finalized twice, within a block or across blocks. */
  lemma {:induction false} NoNonceTwice(accounts: Accounts, blocks: seq<Block>, w: Working, i: nat, j: nat)
    requires Zero(w) && Replay(accounts, blocks, w).Ok?
    requires i < |AllTxs(blocks)| && j < |AllTxs(blocks)| && i != j
    ensures (AllTxs(blocks)[i].from, AllTxs(blocks)[i].nonce) != (AllTxs(blocks)[j].from, AllTxs(blocks)[j].nonce)
  {
    ReplayIsBalanced(accounts, blocks, w);
  }
}

/**
  What the filter of a validator pass writes into the rows of its page (crates/kani-node/src/lib.rs:873-906;
  crates/kani-ledger/src/lib.rs:24-60, 756-811): for each transaction the verdict after the accepted ones before
  it, and for a refusal the text an operator reads.
 */
module Reasons {
  import opened Wrappers
  import opened Types
  import opened Ledgers
  import opened LedgerCore
  import opened Store
  import opened Reload
  import opened Merging
  import opened Blocks
  import opened Selection
  import opened Protocol
  import opened Passes
  import Text

  /** The text that tells the first requirement a transaction breaks in a state. */
  ghost predicate SaysWhy(accounts: Accounts, tx: Transaction, w: Working, text: string) {
    var blank := forall i | 0 <= i < |tx.asset| :: Text.IsWhitespace(tx.asset[i]);
    var shaped := tx.amount > 0 && !blank;
    var known := shaped && tx.from in accounts && tx.to in accounts;
    var due := known && tx.nonce > (if tx.from in w.nonces then w.nonces[tx.from] else 0);
    var settled := due && !tx.kind.Mint? && (tx.kind.Burn? ==> accounts[tx.to].accountType == Treasury);
    var held := if (tx.from, tx.asset) in w.balances then w.balances[(tx.from, tx.asset)] else 0;
    var issued := if tx.asset in w.issued then w.issued[tx.asset] else 0;
    || (tx.amount <= 0 && text == "amount must be positive")
    || (tx.amount > 0 && blank && text == "asset code is required")
    || (shaped && tx.from !in accounts && text == "account " + tx.from + " does not exist")
    || (shaped && tx.from in accounts && tx.to !in accounts && text == "account " + tx.to + " does not exist")
    || (known && !due && text == "transaction nonce must be greater than the last finalized nonce")
    || (due && tx.kind.Mint? && accounts[tx.from].accountType != Treasury && text == "mint transactions must originate from a treasury account")
    || (due && tx.kind.Burn? && accounts[tx.to].accountType != Treasury && text == "burn transactions must settle to a treasury account")
    || (settled && held < tx.amount && text == Shortage(tx.from, tx.asset, held, tx.amount))
    || (settled && tx.kind.Burn? && issued < tx.amount <= held && text == Shortage("ISSUANCE", tx.asset, issued, tx.amount))
  }

  function Shortage(account: string, asset: string, available: int, required: int): string {
    "account " + account + " has insufficient " + asset + ": available " + Text.PrintInt(available) + ", required " + Text.PrintInt(required)
  }

  lemma FaultSaysWhy(accounts: Accounts, tx: Transaction, w: Working, e: LedgerError)
    requires FirstFault(accounts, tx, w, e)
    ensures SaysWhy(accounts, tx, w, Describe(e))
  {
    match e {
      case InsufficientFunds(_, _, _, _) => ShortageSaysWhy(accounts, tx, w, e);
      case UnknownAccount(_) => UnknownSaysWhy(accounts, tx, w, e);
      case _ =>
    }
  }

  lemma ShortageSaysWhy(accounts: Accounts, tx: Transaction, w: Working, e: LedgerError)
    requires FirstFault(accounts, tx, w, e) && e.InsufficientFunds?
    ensures SaysWhy(accounts, tx, w, Describe(e))
  {
    assert Describe(e) == Shortage(e.accountId, e.asset, e.available, e.required);
  }

  lemma UnknownSaysWhy(accounts: Accounts, tx: Transaction, w: Working, e: LedgerError)
    requires FirstFault(accounts, tx, w, e) && e.UnknownAccount?
    ensures SaysWhy(accounts, tx, w, Describe(e))
  {
  }

  /** A verdict on one more transaction after a batch that passes. */
  lemma {:induction false} VerdictOnNext(l: Ledger, batch: seq<Transaction>, tx: Transaction)
    requires l.DryRun(batch).Ok?
    ensures var w := ApplyAll(l.accounts, batch, l.NextHeight(), l.working);
            && w.Ok?
            && (l.DryRun(batch + [tx]).Ok? <==> Acceptable(l.accounts, tx, w.value))
            && (l.DryRun(batch + [tx]).Err? ==> SaysWhy(l.accounts, tx, w.value, Describe(l.DryRun(batch + [tx]).error)))
  {
    var w := ApplyAll(l.accounts, batch, l.NextHeight(), l.working).value;
    ApplyAllSnoc(l.accounts, batch, tx, l.NextHeight(), l.working);
    ValidatedTransactionApplies(l.accounts, tx, l.NextHeight(), w);
    ValidIff(l.accounts, tx, w);
    if l.DryRun(batch + [tx]).Err? {
      StepFault(l.accounts, tx, l.NextHeight(), w);
      FaultSaysWhy(l.accounts, tx, w, l.DryRun(batch + [tx]).error);
    }
  }

  lemma MoveElsewhere(rows: seq<Row>, j: nat, id: Uuid, reason: string)
    requires j < |rows| && rows[j].tx.id != id
    ensures |RejectRow(rows, id, reason)| == |rows| && RejectRow(rows, id, reason)[j] == rows[j]
  {
  }

  /** The loop leaves a row alone whose transaction it does not meet. */
  lemma {:induction false} NotMet(t: Tables, l: Ledger, accepted: seq<Transaction>, rest: seq<Transaction>, j: nat)
    requires j < |t.rows| && forall x | x in rest :: x.id != t.rows[j].tx.id
    ensures var after := FilterAll(t, l, accepted, rest).tables.rows; |after| == |t.rows| && after[j] == t.rows[j]
    decreases |rest|
  {
    if rest != [] {
      var verdict := l.DryRun(accepted + [rest[0]]);
      if verdict.Ok? {
        NotMet(t, l, accepted + [rest[0]], rest[1..], j);
      } else {
        MoveElsewhere(t.rows, j, rest[0].id, Describe(verdict.error));
        NotMet(t.(rows := RejectRow(t.rows, rest[0].id, Describe(verdict.error))), l, accepted, rest[1..], j);
      }
    }
  }

  ghost predicate IdsDiffer(txs: seq<Transaction>) {
    forall i, j | 0 <= i < j < |txs| :: txs[i].id != txs[j].id
  }

  /** A row after its transaction's verdict. */
  function RowAfter(row: Row, verdict: Result<Unit, LedgerError>): Row {
    if verdict.Ok? then row else row.(status := Rejected, failureReason := Some(Describe(verdict.error)))
  }

  function TablesAfter(t: Tables, id: Uuid, verdict: Result<Unit, LedgerError>): Tables {
    if verdict.Ok? then t else t.(rows := RejectRow(t.rows, id, Describe(verdict.error)))
  }

  /** The rows the loop leaves when it has judged `done` and goes on with `rest`, and its verdict on the next transaction. */
  function RowsLeft(t: Tables, l: Ledger, done: seq<Transaction>, rest: seq<Transaction>): seq<Row> {
    FilterAll(t, l, Revalidated(l, done).accepted, rest).tables.rows
  }

  function VerdictAfter(l: Ledger, done: seq<Transaction>, tx: Transaction): Result<Unit, LedgerError> {
    l.DryRun(Revalidated(l, done).accepted + [tx])
  }

  lemma {:induction false} OneTurn(t: Tables, l: Ledger, done: seq<Transaction>, rest: seq<Transaction>)
    requires rest != []
    ensures RowsLeft(t, l, done, rest)
            == RowsLeft(TablesAfter(t, rest[0].id, VerdictAfter(l, done, rest[0])), l, done + [rest[0]], rest[1..])
  {
    var more := done + [rest[0]];
    assert more[..|more| - 1] == done;
  }

  lemma OwnTurn(t: Tables, j: nat, verdict: Result<Unit, LedgerError>)
    requires j < |t.rows| && t.rows[j].status.Pending?
    ensures var after := TablesAfter(t, t.rows[j].tx.id, verdict).rows; |after| == |t.rows| && after[j] == RowAfter(t.rows[j], verdict)
  {
  }

  lemma OtherTurn(t: Tables, j: nat, id: Uuid, verdict: Result<Unit, LedgerError>)
    requires j < |t.rows| && t.rows[j].tx.id != id
    ensures var after := TablesAfter(t, id, verdict).rows; |after| == |t.rows| && after[j] == t.rows[j]
  {
  }

  lemma {:induction false} FirstRow(t: Tables, l: Ledger, done: seq<Transaction>, rest: seq<Transaction>, j: nat)
    requires IdsDiffer(rest) && rest != [] && j < |t.rows| && t.rows[j].tx == rest[0] && t.rows[j].status.Pending?
    ensures var after := RowsLeft(t, l, done, rest);
            |after| == |t.rows| && after[j] == RowAfter(t.rows[j], VerdictAfter(l, done, rest[0]))
  {
    var verdict := VerdictAfter(l, done, rest[0]);
    OneTurn(t, l, done, rest);
    OwnTurn(t, j, verdict);
    NotMet(TablesAfter(t, rest[0].id, verdict), l, Revalidated(l, done + [rest[0]]).accepted, rest[1..], j);
  }

  lemma TailFacts(done: seq<Transaction>, rest: seq<Transaction>, i: nat)
    requires IdsDiffer(rest) && 0 < i < |rest|
    ensures IdsDiffer(rest[1..]) && rest[0].id != rest[i].id
    ensures done + [rest[0]] + rest[1..][..i - 1] == done + rest[..i]
  {
  }

  /** What the loop leaves in the row of the transaction it meets at position `i`. */
  lemma {:induction false} RowOfVerdict(t: Tables, l: Ledger, done: seq<Transaction>, rest: seq<Transaction>, i: nat, j: nat)
    requires IdsDiffer(rest) && i < |rest| && j < |t.rows| && t.rows[j].tx == rest[i] && t.rows[j].status.Pending?
    ensures var after := RowsLeft(t, l, done, rest);
            |after| == |t.rows| && after[j] == RowAfter(t.rows[j], VerdictAfter(l, done + rest[..i], rest[i]))
    decreases i
  {
    if i == 0 {
      assert done + rest[..0] == done;
      FirstRow(t, l, done, rest, j);
    } else {
      var verdict := VerdictAfter(l, done, rest[0]);
      TailFacts(done, rest, i);
      OneTurn(t, l, done, rest);
      OtherTurn(t, j, rest[0].id, verdict);
      RowOfVerdict(TablesAfter(t, rest[0].id, verdict), l, done + [rest[0]], rest[1..], i - 1, j);
    }
  }

  /**
    In a leader's pass each transaction of the page is judged in the state left by the accepted ones before it:
    an acceptable one keeps waiting as it was, and any other is REJECTED with the text that names its first broken
    requirement - for a shortage the account, the asset, what it holds and what was asked.
   */
  lemma {:induction false} FilterSaysWhy(c: Config, t: Tables, v: ValidatorId, i: nat, j: nat)
    requires ConfigOk(c) && StoreInv(c.engine, c.crypto, c.genesis, t) && LeadsStore(c, t, v)
    requires i < |PendingPage(t.rows, c.maxTransactions)| && j < |t.rows| && t.rows[j].tx == PendingPage(t.rows, c.maxTransactions)[i]
    ensures var l, page := Load(t), PendingPage(t.rows, c.maxTransactions);
            var after := FilterAll(t, l, [], page).tables.rows;
            var w := ApplyAll(l.accounts, Revalidated(l, page[..i]).accepted, l.NextHeight(), l.working);
            && w.Ok? && |after| == |t.rows|
            && if Acceptable(l.accounts, page[i], w.value) then after[j] == t.rows[j]
               else exists text :: SaysWhy(l.accounts, page[i], w.value, text)
                                   && after[j] == t.rows[j].(status := Rejected, failureReason := Some(text))
  {
    var l, page := Load(t), PendingPage(t.rows, c.maxTransactions);
    PageRow(c, t, v, i, j);
    RowOfVerdict(t, l, [], page, i, j);
    assert [] + page[..i] == page[..i];
    RevalidationIsOnePass(l, page[..i]);
    AcceptedPasses(l, page[..i]);
    VerdictOnNext(l, Revalidated(l, page[..i]).accepted, page[i]);
  }

  lemma {:induction false} AcceptedPasses(l: Ledger, page: seq<Transaction>)
    ensures l.DryRun(Revalidated(l, page).accepted).Ok?
  {
    RevalidationIsOnePass(l, page);
  }

  lemma {:induction false} PageRow(c: Config, t: Tables, v: ValidatorId, i: nat, j: nat)
    requires ConfigOk(c) && StoreInv(c.engine, c.crypto, c.genesis, t)
    requires i < |PendingPage(t.rows, c.maxTransactions)| && j < |t.rows| && t.rows[j].tx == PendingPage(t.rows, c.maxTransactions)[i]
    ensures t.rows[j].status.Pending? && IdsDiffer(PendingPage(t.rows, c.maxTransactions))
  {
    var page := PendingPage(t.rows, c.maxTransactions);
    PageIsQueued(t.rows, c.maxTransactions);
    OrderedIdsDiffer(t.rows, page);
    assert Queued(t.rows, page[i]);
    var k :| 0 <= k < |t.rows| && t.rows[k].tx == page[i] && t.rows[k].status.Pending?;
    assert k == j;
  }

  lemma OrderedIdsDiffer(rows: seq<Row>, page: seq<Transaction>)
    requires UniqueIds(rows) && Ordered(page) && forall x | x in page :: Queued(rows, x)
    ensures IdsDiffer(page)
  {
    forall i, j | 0 <= i < j < |page| ensures page[i].id != page[j].id {
      assert Before(page[i], page[j]) && Queued(rows, page[i]) && Queued(rows, page[j]);
      QueuedIdsDiffer(rows, page[i], page[j]);
    }
  }
}

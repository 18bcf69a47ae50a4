/**
  The mutable ledger (crates/kani-ledger/src/lib.rs:224-828, 2914-3021): methods that update
  collections in place, each proved equal to the value-level functions of LedgerCore and Ledgers.
 */
module InMemory {
  import opened Wrappers
  import opened Types
  import opened Ledgers
  import B = Books
  import C = LedgerCore

  /** The four collections that `apply_transaction` receives by mutable reference. */
  class WorkingState {
    var balances: C.Balances
    var nonces: map<AccountId, int>
    var issued: map<Asset, int>
    var journal: seq<JournalEntry>

    function Value(): C.Working
      reads this
    {
      C.Working(balances, nonces, issued, journal)
    }

    constructor (balances: C.Balances, nonces: map<AccountId, int>, issued: map<Asset, int>, journal: seq<JournalEntry>)
      ensures Value() == C.Working(balances, nonces, issued, journal)
    {
      this.balances := balances;
      this.nonces := nonces;
      this.issued := issued;
      this.journal := journal;
    }

    method Debit(account: AccountId, asset: Asset, amount: int) returns (r: Result<Unit, C.LedgerError>)
      modifies this`balances
      ensures match C.Debit(old(balances), account, asset, amount)
              case Ok(b) => r == Ok(Unit) && balances == b
              case Err(e) => r == Err(e) && balances == old(balances)
    {
      var available := Get(balances, (account, asset));
      if available < amount {
        return Err(C.InsufficientFunds(account, asset, available, amount));
      }
      balances := balances[(account, asset) := available - amount];
      return Ok(Unit);
    }

    /** One row rises by the amount; every other row and every other asset's total stay as they were. */
    method Credit(account: AccountId, asset: Asset, amount: int)
      modifies this`balances
      ensures balances == C.Credit(old(balances), account, asset, amount)
      ensures Get(balances, (account, asset)) == Get(old(balances), (account, asset)) + amount
      ensures forall k | k != (account, asset) :: Get(balances, k) == Get(old(balances), k)
      ensures forall coin :: B.TotalHeld(balances, coin) == B.TotalHeld(old(balances), coin) + (if coin == asset then amount else 0)
    {
      balances := balances[(account, asset) := Get(balances, (account, asset)) + amount];
      forall coin
        ensures B.TotalHeld(balances, coin) == B.TotalHeld(old(balances), coin) + (if coin == asset then amount else 0)
      {
        B.TotalHeldAdd(old(balances), account, asset, amount, coin);
      }
    }

    /** A failing transaction leaves the working copies untouched. */
    method ApplyTransaction(tx: Transaction, height: int) returns (r: Result<Unit, C.LedgerError>)
      modifies this
      ensures match C.ApplyTransaction(tx, height, old(Value()))
              case Ok(w) => r == Ok(Unit) && Value() == w
              case Err(e) => r == Err(e) && Value() == old(Value())
    {
      match tx.kind {
        case Transfer =>
          var debited := Debit(tx.from, tx.asset, tx.amount);
          if debited.Err? {
            return debited;
          }
          Credit(tx.to, tx.asset, tx.amount);
          journal := journal + [C.DebitLine(tx, height)];
          journal := journal + [C.CreditLine(tx, height)];
        case Mint =>
          Credit(tx.to, tx.asset, tx.amount);
          issued := issued[tx.asset := Get(issued, tx.asset) + tx.amount];
          journal := journal + [C.CreditLine(tx, height)];
        case Burn =>
          var debited := Debit(tx.from, tx.asset, tx.amount);
          if debited.Err? {
            return debited;
          }
          issued := issued[tx.asset := Get(issued, tx.asset) - tx.amount];
          journal := journal + [C.DebitLine(tx, height)];
      }
      nonces := nonces[tx.from := tx.nonce];
      return Ok(Unit);
    }
  }

  /** The two entries a resolution writes, and that it writes nothing else. */
  ghost predicate ResolutionWrites(before: Ledger, after: Ledger, k: ComplianceCase, p: PaymentRecord) {
    && after.payments == before.payments[p.transaction.id := p] && after.cases == before.cases[k.id := k]
    && after.working == before.working && after.blocks == before.blocks && after.accounts == before.accounts
  }

  /** A case that can be resolved: known, not yet resolved or closed, with a known payment. */
  predicate Resolvable(l: Ledger, caseId: Uuid) {
    && caseId in l.cases
    && l.cases[caseId].status !in {CaseApproved, CaseRejected, Closed}
    && l.cases[caseId].paymentId in l.payments
  }

  lemma RecordsStep(block: Block, i: nat)
    requires i < |block.txs|
    ensures RecordsOf(block)[..i + 1] == RecordsOf(block)[..i] + [FinalizedRecord(block.txs[i], block.height, block.hash)]
  {
  }

  class InMemoryLedger {
    var accounts: C.Accounts
    var balances: C.Balances
    var payments: map<Uuid, PaymentRecord>
    var complianceCases: map<Uuid, ComplianceCase>
    var blocks: seq<Block>
    var journalEntries: seq<JournalEntry>
    var nonces: map<AccountId, int>
    var issued: map<Asset, int>

    function Value(): Ledger
      reads this
    {
      Ledger(accounts, C.Working(balances, nonces, issued, journalEntries), payments, complianceCases, blocks)
    }

    /** A ledger with the given contents: `from_snapshot`, `clone` and `sandbox` all end here. */
    constructor FromValue(l: Ledger)
      ensures Value() == l
    {
      accounts := l.accounts;
      balances := l.working.balances;
      nonces := l.working.nonces;
      issued := l.working.issued;
      journalEntries := l.working.journal;
      payments := l.payments;
      complianceCases := l.cases;
      blocks := l.blocks;
    }

    /** The dry run: every transaction is validated and applied to working copies, which are then dropped. */
    method ValidateTransactionsForNextBlock(txs: seq<Transaction>) returns (r: Result<Unit, C.LedgerError>)
      ensures r == Value().DryRun(txs)
    {
      var working := new WorkingState(balances, nonces, issued, journalEntries);
      var blockHeight := |blocks| + 1;
      var i := 0;
      while i < |txs|
        invariant 0 <= i <= |txs|
        invariant C.ApplyAll(accounts, txs[..i], blockHeight, Value().working) == Ok(working.Value())
      {
        C.ApplyAllStep(accounts, txs, i, blockHeight, Value().working);
        var valid := C.ValidateTransaction(accounts, txs[i], working.Value());
        if valid.Err? {
          return Err(valid.error);
        }
        var applied := working.ApplyTransaction(txs[i], blockHeight);
        if applied.Err? {
          return Err(applied.error);
        }
        i := i + 1;
      }
      assert txs[..i] == txs;
      return Ok(Unit);
    }

    /** The loop of `apply_block`: working copies at the block's height, and one record per transaction. */
    method WorkBlock(block: Block) returns (r: Result<(WorkingState, seq<PaymentRecord>), C.LedgerError>)
      ensures match C.ApplyAll(accounts, block.txs, block.height, Value().working)
              case Ok(w) => r.Ok? && fresh(r.value.0) && r.value.0.Value() == w && r.value.1 == RecordsOf(block)
              case Err(e) => r == Err(e)
    {
      var working := new WorkingState(balances, nonces, issued, journalEntries);
      var txs, records := block.txs, [];
      var i := 0;
      while i < |txs|
        invariant 0 <= i <= |txs| && records == RecordsOf(block)[..i]
        invariant C.ApplyAll(accounts, txs[..i], block.height, Value().working) == Ok(working.Value())
      {
        var tx := txs[i];
        C.ApplyAllStep(accounts, txs, i, block.height, Value().working);
        ghost var before := working.Value();
        var valid := C.ValidateTransaction(accounts, tx, working.Value());
        if valid.Err? {
          return Err(valid.error);
        }
        var applied := working.ApplyTransaction(tx, block.height);
        if applied.Err? {
          return Err(applied.error);
        }
        assert C.StepTransaction(accounts, tx, block.height, before) == Ok(working.Value());
        records := records + [FinalizedRecord(tx, block.height, block.hash)];
        RecordsStep(block, i);
        i := i + 1;
      }
      assert txs[..i] == txs && RecordsOf(block)[..i] == RecordsOf(block);
      return Ok((working, records));
    }

    /** All or nothing: either the whole block is committed or nothing changes. */
    method ApplyBlock(block: Block) returns (r: Result<seq<PaymentRecord>, C.LedgerError>)
      modifies this
      ensures match Ledgers.ApplyBlock(old(Value()), block)
              case Ok(l) => r == Ok(RecordsOf(block)) && Value() == l
              case Err(e) => r == Err(e) && Value() == old(Value())
    {
      if block.hash == "" {
        return Err(C.MissingBlockHash);
      }
      var expectedHeight := |blocks| + 1;
      if block.height != expectedHeight {
        return Err(C.InvalidBlockHeight(expectedHeight, block.height));
      }
      var expectedPrevHash := if blocks == [] then GENESIS_HASH else blocks[|blocks| - 1].hash;
      if block.prevHash != expectedPrevHash {
        return Err(C.InvalidPrevHash(expectedPrevHash, block.prevHash));
      }

      var worked := WorkBlock(block);
      if worked.Err? {
        return Err(worked.error);
      }
      var (working, records) := worked.value;
      balances := working.balances;
      nonces := working.nonces;
      issued := working.issued;
      journalEntries := working.journal;

      InsertPayments(records);
      blocks := blocks + [block];
      return Ok(records);
    }

    /** `payments.insert` for every record of a block. */
    method InsertPayments(records: seq<PaymentRecord>)
      modifies this`payments
      ensures payments == InsertRecords(old(payments), records)
    {
      var i := 0;
      while i < |records|
        invariant 0 <= i <= |records|
        invariant payments == InsertRecords(old(payments), records[..i])
      {
        payments := payments[records[i].transaction.id := records[i]];
        assert records[..i + 1][..i] == records[..i];
        i := i + 1;
      }
      assert records[..i] == records;
    }

    /**
      The payment and its case are found under their ids, every other payment and case is as it was, and no
      money or block has moved; an open case that names the payment can then be resolved either way.
     */
    method HoldPaymentForReview(payment: PaymentRecord, newCase: ComplianceCase)
      modifies this
      ensures Value() == HoldPayment(old(Value()), payment, newCase)
      ensures payment.transaction.id in payments && payments[payment.transaction.id] == payment
      ensures newCase.id in complianceCases && complianceCases[newCase.id] == newCase
      ensures forall id | id != payment.transaction.id ::
                (id in payments <==> id in old(payments)) && (id in payments ==> payments[id] == old(payments)[id])
      ensures forall k | k != newCase.id ::
                (k in complianceCases <==> k in old(complianceCases))
                && (k in complianceCases ==> complianceCases[k] == old(complianceCases)[k])
      ensures Value().working == old(Value()).working && blocks == old(blocks) && accounts == old(accounts)
      ensures !newCase.Terminal() && newCase.paymentId == payment.transaction.id ==>
                forall resolution, reviewer, reason ::
                  var resolved := ResolveCase(Value(), newCase.id, resolution, reviewer, reason);
                  && resolved.Ok?
                  && resolved.value.payments[payment.transaction.id].status == (if resolution.Approval? then Pending else Rejected)
                  && resolved.value.cases[newCase.id].Terminal()
    {
      payments := payments[payment.transaction.id := payment];
      complianceCases := complianceCases[newCase.id := newCase];
    }

    method ApproveComplianceCase(caseId: Uuid, reviewer: Option<string>, reason: Option<string>)
      returns (r: Result<Unit, C.LedgerError>)
      modifies this
      ensures match ApproveCase(old(Value()), caseId, reviewer, reason)
              case Ok(l) => r == Ok(Unit) && Value() == l
              case Err(e) => r == Err(e) && Value() == old(Value())
      ensures r.Ok? <==> Resolvable(old(Value()), caseId)
      ensures r.Ok? ==>
                var c := old(complianceCases)[caseId];
                var p := old(payments)[c.paymentId];
                ResolutionWrites(old(Value()), Value(),
                  ComplianceCase(c.id, c.paymentId, CaseApproved, c.reason, reviewer, reason),
                  PaymentRecord(p.transaction, Pending, p.blockHeight, p.blockHash, None, p.clientReferenceId, p.requestFingerprint))
    {
      if caseId !in complianceCases {
        return Err(C.UnknownComplianceCase(caseId));
      }
      var c := complianceCases[caseId];
      if c.Terminal() {
        return Err(C.TerminalComplianceCase(c.id, c.status));
      }
      if c.paymentId !in payments {
        return Err(C.UnknownPayment(c.paymentId));
      }
      var payment := payments[c.paymentId].MarkPending();
      var approved := c.Approve(reviewer, reason);
      payments := payments[payment.transaction.id := payment];
      complianceCases := complianceCases[approved.id := approved];
      return Ok(Unit);
    }

    method RejectComplianceCase(caseId: Uuid, reviewer: Option<string>, reason: Option<string>)
      returns (r: Result<Unit, C.LedgerError>)
      modifies this
      ensures match RejectCase(old(Value()), caseId, reviewer, reason)
              case Ok(l) => r == Ok(Unit) && Value() == l
              case Err(e) => r == Err(e) && Value() == old(Value())
      ensures r.Ok? <==> Resolvable(old(Value()), caseId)
      ensures r.Ok? ==>
                var c := old(complianceCases)[caseId];
                var p := old(payments)[c.paymentId];
                var why := if reason.Some? then reason.value else "compliance case rejected";
                ResolutionWrites(old(Value()), Value(),
                  ComplianceCase(c.id, c.paymentId, CaseRejected, c.reason, reviewer, reason),
                  PaymentRecord(p.transaction, Rejected, p.blockHeight, p.blockHash, Some(why), p.clientReferenceId, p.requestFingerprint))
    {
      if caseId !in complianceCases {
        return Err(C.UnknownComplianceCase(caseId));
      }
      var c := complianceCases[caseId];
      if c.Terminal() {
        return Err(C.TerminalComplianceCase(c.id, c.status));
      }
      if c.paymentId !in payments {
        return Err(C.UnknownPayment(c.paymentId));
      }
      var why := if reason.Some? then reason.value else "compliance case rejected";
      var payment := payments[c.paymentId].MarkRejected(why);
      var rejected := c.Reject(reviewer, reason);
      payments := payments[payment.transaction.id := payment];
      complianceCases := complianceCases[rejected.id := rejected];
      return Ok(Unit);
    }
  }
}

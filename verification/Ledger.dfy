/**
  The ledger as a value: block application, dry run, holds and case resolutions
  (crates/kani-ledger/src/lib.rs:560-754), and what every run of them from the sandbox keeps.
 */
module Ledgers {
  import opened Wrappers
  import opened Types
  import opened LedgerCore
  import opened Books
  import Text

  datatype Ledger = Ledger(
    accounts: Accounts,
    working: Working,
    payments: map<Uuid, PaymentRecord>,
    cases: map<Uuid, ComplianceCase>,
    blocks: seq<Block>)
  {
    function NextHeight(): int {
      |blocks| + 1
    }

    function LastHash(): string {
      if blocks == [] then GENESIS_HASH else blocks[|blocks| - 1].hash
    }

    function NextNonce(account: AccountId): int {
      Get(working.nonces, account) + 1
    }

    /** `validate_transactions_for_next_block` */
    function DryRun(txs: seq<Transaction>): Result<Unit, LedgerError> {
      var _ :- ApplyAll(accounts, txs, NextHeight(), working);
      Ok(Unit)
    }
  }

  const TREASURY_ACCOUNT := "TREASURY_SANDBOX"
  const CORP_A_ACCOUNT := "CORP_A"
  const CORP_B_ACCOUNT := "CORP_B"
  const FEE_ACCOUNT := "FEE_SANDBOX"
  const KCAD_TEST := "KCAD_TEST"
  const KUSD_TEST := "KUSD_TEST"

  function Sandbox(): Ledger {
    Ledger(
      map[TREASURY_ACCOUNT := Account(TREASURY_ACCOUNT, Treasury),
          CORP_A_ACCOUNT := Account(CORP_A_ACCOUNT, Institution),
          CORP_B_ACCOUNT := Account(CORP_B_ACCOUNT, Institution),
          FEE_ACCOUNT := Account(FEE_ACCOUNT, Fee)],
      Working(
        map[(TREASURY_ACCOUNT, KCAD_TEST) := 0, (CORP_A_ACCOUNT, KCAD_TEST) := 0, (CORP_B_ACCOUNT, KCAD_TEST) := 0,
            (TREASURY_ACCOUNT, KUSD_TEST) := 0, (CORP_A_ACCOUNT, KUSD_TEST) := 0, (CORP_B_ACCOUNT, KUSD_TEST) := 0],
        map[], map[], []),
      map[], map[], [])
  }

  lemma {:induction false} CodeIsNotBlank()
    ensures !Text.IsBlank(KCAD_TEST)
  {
    Text.TrimIsTrimmed(KCAD_TEST);
    assert Text.Trimmed(KCAD_TEST);
  }

  function RecordsOf(block: Block): seq<PaymentRecord> {
    seq(|block.txs|, i requires 0 <= i < |block.txs| => FinalizedRecord(block.txs[i], block.height, block.hash))
  }

  /** `payments.insert` for each record in turn; a later record of the same id wins. */
  function InsertRecords(payments: map<Uuid, PaymentRecord>, records: seq<PaymentRecord>): map<Uuid, PaymentRecord> {
    if records == [] then payments
    else
      var r := records[|records| - 1];
      InsertRecords(payments, records[..|records| - 1])[r.transaction.id := r]
  }

  function ApplyBlock(l: Ledger, block: Block): Result<Ledger, LedgerError> {
    if block.hash == "" then Err(MissingBlockHash)
    else if block.height != l.NextHeight() then Err(InvalidBlockHeight(l.NextHeight(), block.height))
    else if block.prevHash != l.LastHash() then Err(InvalidPrevHash(l.LastHash(), block.prevHash))
    else
      var w :- ApplyAll(l.accounts, block.txs, block.height, l.working);
      Ok(Ledger(l.accounts, w, InsertRecords(l.payments, RecordsOf(block)), l.cases, l.blocks + [block]))
  }

  function HoldPayment(l: Ledger, payment: PaymentRecord, newCase: ComplianceCase): Ledger {
    l.(payments := l.payments[payment.transaction.id := payment], cases := l.cases[newCase.id := newCase])
  }

  datatype Resolution = Approval | Rejection(reason: string)

  /** The shared shape of `approve_compliance_case` and `reject_compliance_case`. */
  function ResolveCase(l: Ledger, caseId: Uuid, resolution: Resolution, reviewer: Option<string>, reason: Option<string>):
      Result<Ledger, LedgerError> {
    if caseId !in l.cases then Err(UnknownComplianceCase(caseId))
    else
      var c := l.cases[caseId];
      if c.Terminal() then Err(TerminalComplianceCase(c.id, c.status))
      else if c.paymentId !in l.payments then Err(UnknownPayment(c.paymentId))
      else
        var p := l.payments[c.paymentId];
        var payment := if resolution.Approval? then p.MarkPending() else p.MarkRejected(resolution.reason);
        var resolved := if resolution.Approval? then c.Approve(reviewer, reason) else c.Reject(reviewer, reason);
        Ok(l.(payments := l.payments[payment.transaction.id := payment], cases := l.cases[resolved.id := resolved]))
  }

  function ApproveCase(l: Ledger, caseId: Uuid, reviewer: Option<string>, reason: Option<string>): Result<Ledger, LedgerError> {
    ResolveCase(l, caseId, Approval, reviewer, reason)
  }

  function RejectCase(l: Ledger, caseId: Uuid, reviewer: Option<string>, reason: Option<string>): Result<Ledger, LedgerError> {
    var why := if reason.Some? then reason.value else "compliance case rejected";
    ResolveCase(l, caseId, Rejection(why), reviewer, reason)
  }

  // ---- apply_block against the dry run ----

  /** With the right height, previous hash and a hash, a block is applied exactly when the dry run accepts it. */
  lemma ApplyBlockIffDryRun(l: Ledger, block: Block)
    requires block.hash != "" && block.height == l.NextHeight() && block.prevHash == l.LastHash()
    ensures ApplyBlock(l, block).Ok? <==> l.DryRun(block.txs).Ok?
    ensures ApplyBlock(l, block).Err? ==> ApplyBlock(l, block).error == l.DryRun(block.txs).error
  {
  }

  /** The dry run passes exactly batches whose transactions are acceptable in turn; its error is that of the first to fail. */
  lemma DryRunIff(l: Ledger, txs: seq<Transaction>)
    ensures l.DryRun(txs).Ok? <==> AcceptableInTurn(l.accounts, txs, |l.blocks| + 1, l.working)
    ensures l.DryRun(txs).Err? ==> FirstToFail(l.accounts, txs, |l.blocks| + 1, l.working, l.DryRun(txs).error)
  {
    BatchIff(l.accounts, txs, |l.blocks| + 1, l.working);
    if l.DryRun(txs).Err? {
      BatchFault(l.accounts, txs, |l.blocks| + 1, l.working);
    }
  }

  /** A block is applied exactly when it has a hash, is the next after the last one, and its transactions are acceptable in turn. */
  lemma ApplyBlockIff(l: Ledger, block: Block)
    ensures ApplyBlock(l, block).Ok?
            <==> && block.hash != "" && block.height == |l.blocks| + 1
                 && block.prevHash == (if l.blocks == [] then GENESIS_HASH else l.blocks[|l.blocks| - 1].hash)
                 && AcceptableInTurn(l.accounts, block.txs, block.height, l.working)
  {
    BatchIff(l.accounts, block.txs, block.height, l.working);
  }

  /** The record of one transaction of a finalized block, field by field. */
  predicate IsFinalRecord(p: PaymentRecord, block: Block, i: nat)
    requires i < |block.txs|
  {
    var meta := block.txs[i].metadata;
    p == PaymentRecord(block.txs[i], Finalized, Some(block.height), Some(block.hash), None,
                       if "client_reference_id" in meta then Some(meta["client_reference_id"]) else None,
                       if "request_fingerprint" in meta then Some(meta["request_fingerprint"]) else None)
  }

  lemma RecordFields(block: Block)
    ensures |RecordsOf(block)| == |block.txs|
    ensures forall i: nat | i < |block.txs| :: IsFinalRecord(RecordsOf(block)[i], block, i)
  {
  }

  lemma {:induction false} InsertRecordsLookup(payments: map<Uuid, PaymentRecord>, records: seq<PaymentRecord>, id: Uuid)
    ensures var after := InsertRecords(payments, records);
            && (id in after <==> id in payments || exists i :: 0 <= i < |records| && records[i].transaction.id == id)
            && (id in after && (forall i | 0 <= i < |records| :: records[i].transaction.id != id) ==>
                  id in payments && after[id] == payments[id])
            && ((exists i :: 0 <= i < |records| && records[i].transaction.id == id) ==>
                  id in after && after[id] in records && after[id].transaction.id == id)
    decreases |records|
  {
    if records != [] {
      InsertRecordsLookup(payments, records[..|records| - 1], id);
      assert records == records[..|records| - 1] + [records[|records| - 1]];
    }
  }

  // ---- Runs ----

  function HashBefore(blocks: seq<Block>, i: nat): string
    requires i <= |blocks|
  {
    if i == 0 then GENESIS_HASH else blocks[i - 1].hash
  }

  predicate LinkAt(blocks: seq<Block>, i: nat)
    requires i < |blocks|
  {
    blocks[i].height == i + 1 && blocks[i].hash != "" && blocks[i].prevHash == HashBefore(blocks, i)
  }

  /** Heights count from one and every block names its predecessor's hash. */
  ghost predicate Linked(blocks: seq<Block>) {
    forall i: nat | i < |blocks| :: LinkAt(blocks, i)
  }

  lemma LinkedPrefix(blocks: seq<Block>, n: nat)
    requires Linked(blocks) && n <= |blocks|
    ensures Linked(blocks[..n])
  {
    forall i: nat | i < n ensures LinkAt(blocks[..n], i) {
      assert LinkAt(blocks, i);
    }
  }

  lemma LinkedSnoc(blocks: seq<Block>, b: Block)
    requires Linked(blocks) && LinkAt(blocks + [b], |blocks|)
    ensures Linked(blocks + [b])
  {
    forall i: nat | i < |blocks| ensures LinkAt(blocks + [b], i) {
      assert LinkAt(blocks, i);
    }
  }

  /** The live state is the replay of its own chain, and the chain is linked. */
  ghost predicate Sound(genesis: Ledger, l: Ledger) {
    && l.accounts == genesis.accounts
    && Linked(l.blocks)
    && Replay(l.accounts, l.blocks, genesis.working) == Ok(l.working)
  }

  lemma ApplyBlockKeepsSound(genesis: Ledger, l: Ledger, block: Block)
    requires Sound(genesis, l) && ApplyBlock(l, block).Ok?
    ensures Sound(genesis, ApplyBlock(l, block).value)
  {
    ReplaySnoc(l.accounts, l.blocks, block, genesis.working);
    LinkedSnoc(l.blocks, block);
  }

  datatype Op =
    | Apply(block: Block)
    | Hold(payment: PaymentRecord, newCase: ComplianceCase)
    | Approve(caseId: Uuid, reviewer: Option<string>, reason: Option<string>)
    | Reject(caseId: Uuid, reviewer: Option<string>, reason: Option<string>)

  /** A refused operation leaves the ledger as it was. */
  function Step(l: Ledger, op: Op): Ledger {
    var r := match op
      case Apply(b) => ApplyBlock(l, b)
      case Hold(p, c) => Ok(HoldPayment(l, p, c))
      case Approve(c, w, y) => ApproveCase(l, c, w, y)
      case Reject(c, w, y) => RejectCase(l, c, w, y);
    if r.Ok? then r.value else l
  }

  function Run(l: Ledger, ops: seq<Op>): Ledger {
    if ops == [] then l else Step(Run(l, ops[..|ops| - 1]), ops[|ops| - 1])
  }

  lemma {:induction false} RunIsSound(genesis: Ledger, ops: seq<Op>)
    requires genesis.blocks == []
    ensures Sound(genesis, Run(genesis, ops))
    decreases |ops|
  {
    if ops != [] {
      var before, op := Run(genesis, ops[..|ops| - 1]), ops[|ops| - 1];
      RunIsSound(genesis, ops[..|ops| - 1]);
      if op.Apply? && ApplyBlock(before, op.block).Ok? {
        ApplyBlockKeepsSound(genesis, before, op.block);
      }
    }
  }

  /**
    Conservation and agreement in every ledger reachable from the sandbox by any operations whatever:
    balances sum to issued supply and are never negative, the journal nets to every balance, issued
    supply is minted minus burned over the chain, nonces increase, and the whole state is the replay
    of the chain.
   */
  lemma {:induction false} ReachableLedgersBalance(ops: seq<Op>)
    ensures var l := Run(Sandbox(), ops);
            && Balanced(AllTxs(l.blocks), l.working)
            && Linked(l.blocks)
            && Replay(Sandbox().accounts, l.blocks, Sandbox().working) == Ok(l.working)
  {
    RunIsSound(Sandbox(), ops);
    ReplayIsBalanced(Sandbox().accounts, Run(Sandbox(), ops).blocks, Sandbox().working);
  }
}

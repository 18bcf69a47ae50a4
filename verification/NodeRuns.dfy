/**
  Whole runs of the in-memory node (crates/kani-node/src/lib.rs:203-418, 615-645;
  crates/kani-api/src/lib.rs:885-989): idempotency, and payments and compliance cases in step.
 */
module NodeRuns {
  import opened Wrappers
  import opened Types
  import opened Ledgers
  import opened Books
  import opened Consensus
  import opened Blocks
  import opened Compliance
  import opened Idempotency
  import opened Node
  import C = LedgerCore

  datatype Call =
    | SubmitCall(request: Request, id: Uuid, caseId: Uuid, now: int)
    | IssueCall(kind: TransactionKind, from: AccountId, to: AccountId, asset: Asset, amount: int, id: Uuid, now: int)
    | ApproveCall(caseId: Uuid, reviewer: Option<string>, reason: Option<string>)
    | RejectCall(caseId: Uuid, reviewer: Option<string>, reason: Option<string>)

  /** The ledger after one call; a failed call leaves it as it was. */
  ghost function Do(config: NodeConfig, l: Ledger, call: Call): Ledger {
    match call
    case SubmitCall(r, id, k, now) =>
      var result := ScreenedSubmission(config, l, r, id, k, now);
      if result.Ok? then result.value.0 else l
    case IssueCall(kind, from, to, asset, amount, id, now) =>
      var result := Issuance(config, l, kind, from, to, asset, amount, id, now);
      if result.Ok? then result.value.0 else l
    case ApproveCall(k, reviewer, reason) =>
      var result := ApproveCase(l, k, reviewer, reason);
      if result.Ok? then result.value else l
    case RejectCall(k, reviewer, reason) =>
      var result := RejectCase(l, k, reviewer, reason);
      if result.Ok? then result.value else l
  }

  ghost function DoAll(config: NodeConfig, l: Ledger, calls: seq<Call>): Ledger {
    if calls == [] then l else Do(config, DoAll(config, l, calls[..|calls| - 1]), calls[|calls| - 1])
  }

  /** The ids a call generates are new. */
  predicate FreshCall(l: Ledger, call: Call) {
    match call
    case SubmitCall(_, id, k, _) => id !in l.payments && k !in l.cases
    case IssueCall(kind, _, _, _, _, id, _) => id !in l.payments && !kind.Transfer?
    case _ => true
  }

  ghost predicate FreshRun(config: NodeConfig, l: Ledger, calls: seq<Call>) {
    calls != [] ==> FreshRun(config, l, calls[..|calls| - 1])
                    && FreshCall(DoAll(config, l, calls[..|calls| - 1]), calls[|calls| - 1])
  }

  // ---- Invariant ----

  ghost predicate HasCase(l: Ledger, payment: Uuid) {
    exists k :: IsCaseFor(l, payment, k)
  }

  predicate RecordOk(config: NodeConfig, id: Uuid, p: PaymentRecord) {
    && p.transaction.id == id
    && (p.clientReferenceId.Some? ==> p.requestFingerprint.Some? && OwnFingerprint(config.digest, p.transaction, p.requestFingerprint))
    && (!NeedsReview(config.policy, p.transaction) ==> p.status.Finalized?)
  }

  ghost predicate RecordsOk(config: NodeConfig, l: Ledger) {
    && (forall id | id in l.payments :: RecordOk(config, id, l.payments[id]))
    && (forall id | id in l.payments && NeedsReview(config.policy, l.payments[id].transaction) :: HasCase(l, id))
    && UniqueReferences(l)
  }

  /** The standing a case gives its payment. */
  function StandingOf(c: ComplianceCase): (standing: Option<TransactionStatus>)
    ensures standing != Some(Finalized)
    ensures standing.Some? ==> (standing.value.Held? <==> !c.Terminal())
  {
    match c.status
    case Opened => Some(Held)
    case CaseApproved => Some(Pending)
    case CaseRejected => Some(Rejected)
    case _ => None
  }

  ghost predicate CaseOk(config: NodeConfig, l: Ledger, k: Uuid)
    requires k in l.cases
  {
    var c := l.cases[k];
    && c.id == k && c.paymentId in l.payments
    && NeedsReview(config.policy, l.payments[c.paymentId].transaction)
    && StandingOf(c) == Some(l.payments[c.paymentId].status)
  }

  ghost predicate CasesOk(config: NodeConfig, l: Ledger) {
    (forall k | k in l.cases :: CaseOk(config, l, k)) && OneCaseEach(l)
  }

  predicate RecordedFinal(l: Ledger, tx: Transaction) {
    tx.id in l.payments && l.payments[tx.id].transaction == tx && l.payments[tx.id].status.Finalized?
  }

  ghost predicate ChainOk(l: Ledger) {
    forall tx | tx in C.AllTxs(l.blocks) :: RecordedFinal(l, tx)
  }

  ghost predicate NodeInv(config: NodeConfig, l: Ledger) {
    RecordsOk(config, l) && CasesOk(config, l) && ChainOk(l)
  }

  // ---- Steps ----

  /** A successful production adds one finalized record and one block that holds its transaction. */
  lemma ProduceOne(config: NodeConfig, l: Ledger, tx: Transaction, now: int)
    requires Produce(l, [tx], config.engine, config.crypto, now).Ok?
    ensures var (after, record) := Produce(l, [tx], config.engine, config.crypto, now).value;
            && after.cases == l.cases && after.payments == l.payments[tx.id := record]
            && C.AllTxs(after.blocks) == C.AllTxs(l.blocks) + [tx]
            && exists b: Block :: ApplyBlock(l, b) == Ok(after) && record == FinalizedRecord(tx, b.height, b.hash)
  {
    var (after, record) := Produce(l, [tx], config.engine, config.crypto, now).value;
    var leader := config.engine.LeaderForHeight(l.NextHeight()).value;
    var b := BuildBlockForValidator(l, [tx], config.engine, config.crypto, leader, now).value;
    C.AllTxsSnoc(l.blocks, b);
    assert RecordsOf(b)[..0] == [];
    assert InsertRecords(l.payments, RecordsOf(b)) == l.payments[tx.id := record];
  }

  /** The metadata a transfer carries: nothing, or its reference and fingerprint. */
  function RequestMetadata(config: NodeConfig, r: Request): map<string, string> {
    if r.reference.None? then map[]
    else map["client_reference_id" := r.reference.value, "request_fingerprint" := Fingerprint(config.digest, r)]
  }

  /** One more than the account's last nonce. */
  function NonceAfterLast(l: Ledger, account: AccountId): int {
    if account in l.working.nonces then l.working.nonces[account] + 1 else 1
  }

  /** What a new submission stores and returns, field by field. */
  lemma SubmissionFields(config: NodeConfig, l: Ledger, r: Request, id: Uuid, now: int)
    requires Earlier(config, l, r) == Ok(None) && Submission(config, l, r, id, now).Ok?
    ensures var (after, p) := Submission(config, l, r, id, now).value;
            && |after.blocks| == |l.blocks| + 1 && after.blocks[|l.blocks|].createdAt == now
            && p == PaymentRecord(
                      Transaction(id, r.from, r.to, r.asset, r.amount, NonceAfterLast(l, r.from), Transfer, RequestMetadata(config, r), now),
                      Finalized, Some(|l.blocks| + 1), Some(after.blocks[|l.blocks|].hash), None,
                      r.reference, if r.reference.None? then None else Some(Fingerprint(config.digest, r)))
  {
    ProducedRecord(config, l, TransferTx(config, l, r, id, now), now);
    NewSubmissionProduces(config, l, r, id, now);
    var (after, p) := Produce(l, [TransferTx(config, l, r, id, now)], config.engine, config.crypto, now).value;
    FinalTransfer(config, l, r, id, now, after.blocks[|l.blocks|], p);
  }

  lemma NewSubmissionProduces(config: NodeConfig, l: Ledger, r: Request, id: Uuid, now: int)
    requires Earlier(config, l, r) == Ok(None)
    ensures Submission(config, l, r, id, now) == Produce(l, [TransferTx(config, l, r, id, now)], config.engine, config.crypto, now)
  {
  }

  lemma FinalTransfer(config: NodeConfig, l: Ledger, r: Request, id: Uuid, now: int, b: Block, p: PaymentRecord)
    requires b.txs == [TransferTx(config, l, r, id, now)] && IsFinalRecord(p, b, 0)
    ensures p == PaymentRecord(
                   Transaction(id, r.from, r.to, r.asset, r.amount, NonceAfterLast(l, r.from), Transfer, RequestMetadata(config, r), now),
                   Finalized, Some(b.height), Some(b.hash), None,
                   r.reference, if r.reference.None? then None else Some(Fingerprint(config.digest, r)))
  {
  }

  lemma ProducedRecord(config: NodeConfig, l: Ledger, tx: Transaction, now: int)
    requires Produce(l, [tx], config.engine, config.crypto, now).Ok?
    ensures var (after, p) := Produce(l, [tx], config.engine, config.crypto, now).value;
            && |after.blocks| == |l.blocks| + 1 && after.blocks[|l.blocks|].createdAt == now
            && IsFinalRecord(p, after.blocks[|l.blocks|], 0) && after.blocks[|l.blocks|].txs == [tx]
            && after.blocks[|l.blocks|].height == |l.blocks| + 1
  {
    var leader := config.engine.LeaderForHeight(l.NextHeight()).value;
    RecordFields(BuildBlockForValidator(l, [tx], config.engine, config.crypto, leader, now).value);
  }

  /** What a new hold stores and returns, field by field. */
  lemma HoldFields(config: NodeConfig, l: Ledger, r: Request, reason: string, id: Uuid, k: Uuid, now: int)
    requires Earlier(config, l, r) == Ok(None)
    ensures var p := PaymentRecord(
                       Transaction(id, r.from, r.to, r.asset, r.amount, NonceAfterLast(l, r.from), Transfer, RequestMetadata(config, r), now),
                       Held, None, None, Some(reason), r.reference, Some(Fingerprint(config.digest, r)));
            var c := ComplianceCase(k, id, Opened, reason, None, None);
            HoldForReview(config, l, r, reason, id, k, now) == Ok((l.(payments := l.payments[id := p], cases := l.cases[k := c]), p, c))
  {
  }

  /** What a mint or a burn stores and returns, field by field. */
  lemma IssuanceFields(config: NodeConfig, l: Ledger, kind: TransactionKind, from: AccountId, to: AccountId, asset: Asset, amount: int,
                       id: Uuid, now: int)
    requires Issuance(config, l, kind, from, to, asset, amount, id, now).Ok?
    ensures var (after, p) := Issuance(config, l, kind, from, to, asset, amount, id, now).value;
            && |after.blocks| == |l.blocks| + 1
            && p == PaymentRecord(Transaction(id, from, to, asset, amount, NonceAfterLast(l, from), kind, map[], now),
                                  Finalized, Some(|l.blocks| + 1), Some(after.blocks[|l.blocks|].hash), None, None, None)
  {
    ProducedRecord(config, l, Transaction(id, from, to, asset, amount, l.NextNonce(from), kind, map[], now), now);
  }

  /** Adding a record with a new id and a new reference. */
  lemma AddRecord(config: NodeConfig, l: Ledger, after: Ledger, p: PaymentRecord)
    requires RecordsOk(config, l) && p.transaction.id !in l.payments && RecordOk(config, p.transaction.id, p)
    requires p.clientReferenceId.Some? ==> forall id :: !HasReference(l, p.clientReferenceId.value, id)
    requires after.payments == l.payments[p.transaction.id := p]
    requires forall k | k in l.cases :: k in after.cases && after.cases[k].paymentId == l.cases[k].paymentId
    requires NeedsReview(config.policy, p.transaction) ==> HasCase(after, p.transaction.id)
    ensures RecordsOk(config, after)
  {
    forall reference, i, j | HasReference(after, reference, i) && HasReference(after, reference, j) ensures i == j {
      assert i != p.transaction.id ==> HasReference(l, reference, i);
      assert j != p.transaction.id ==> HasReference(l, reference, j);
    }
    forall id | id in after.payments && NeedsReview(config.policy, after.payments[id].transaction) ensures HasCase(after, id) {
      if id != p.transaction.id {
        var k :| IsCaseFor(l, id, k);
        assert IsCaseFor(after, id, k);
      }
    }
  }

  lemma KeepCases(config: NodeConfig, l: Ledger, after: Ledger, id: Uuid, p: PaymentRecord)
    requires CasesOk(config, l) && id !in l.payments && after.payments == l.payments[id := p] && after.cases == l.cases
    ensures CasesOk(config, after)
  {
    forall k | k in after.cases ensures CaseOk(config, after, k) {
      assert CaseOk(config, l, k);
    }
    forall payment, j, k | IsCaseFor(after, payment, j) && IsCaseFor(after, payment, k) ensures j == k {
      assert IsCaseFor(l, payment, j) && IsCaseFor(l, payment, k);
    }
  }

  /** Production of one new transaction that screening lets through. */
  lemma ProduceKeepsInv(config: NodeConfig, l: Ledger, tx: Transaction, now: int)
    requires NodeInv(config, l) && tx.id !in l.payments && !NeedsReview(config.policy, tx)
    requires Produce(l, [tx], config.engine, config.crypto, now).Ok?
    requires var p := FinalizedRecord(tx, 0, "");
             && (p.clientReferenceId.Some? ==> p.requestFingerprint.Some? && OwnFingerprint(config.digest, p.transaction, p.requestFingerprint))
             && (p.clientReferenceId.Some? ==> forall id :: !HasReference(l, p.clientReferenceId.value, id))
    ensures NodeInv(config, Produce(l, [tx], config.engine, config.crypto, now).value.0)
  {
    ProduceOne(config, l, tx, now);
    var (after, record) := Produce(l, [tx], config.engine, config.crypto, now).value;
    assert RecordOk(config, tx.id, record);
    FinalRecordKeepsInv(config, l, after, tx, record);
  }

  /** One new final record, with its transaction at the end of the chain. */
  lemma FinalRecordKeepsInv(config: NodeConfig, l: Ledger, after: Ledger, tx: Transaction, p: PaymentRecord)
    requires NodeInv(config, l) && tx.id !in l.payments && !NeedsReview(config.policy, tx)
    requires p.transaction == tx && p.status.Finalized? && RecordOk(config, tx.id, p)
    requires p.clientReferenceId.Some? ==> forall id :: !HasReference(l, p.clientReferenceId.value, id)
    requires after.payments == l.payments[tx.id := p] && after.cases == l.cases
    requires C.AllTxs(after.blocks) == C.AllTxs(l.blocks) + [tx]
    ensures NodeInv(config, after)
  {
    AddRecord(config, l, after, p);
    KeepCases(config, l, after, tx.id, p);
    forall x | x in C.AllTxs(after.blocks) ensures RecordedFinal(after, x) {
      assert x != tx ==> RecordedFinal(l, x);
    }
  }

  lemma NothingEarlier(config: NodeConfig, l: Ledger, r: Request)
    requires Earlier(config, l, r) == Ok(None)
    ensures r.reference.Some? ==> forall id :: !HasReference(l, r.reference.value, id)
  {
  }

  lemma SubmissionKeepsInv(config: NodeConfig, l: Ledger, r: Request, id: Uuid, now: int)
    requires NodeInv(config, l) && id !in l.payments
    requires !Screen(config.policy, r.from, r.to, r.asset, r.amount).decision.Review?
    requires Submission(config, l, r, id, now).Ok?
    ensures NodeInv(config, Submission(config, l, r, id, now).value.0)
  {
    if Earlier(config, l, r).value.None? {
      NothingEarlier(config, l, r);
      ProduceKeepsInv(config, l, TransferTx(config, l, r, id, now), now);
    }
  }

  lemma HoldKeepsRecords(config: NodeConfig, l: Ledger, p: PaymentRecord, c: ComplianceCase)
    requires RecordsOk(config, l) && p.transaction.id !in l.payments && RecordOk(config, p.transaction.id, p)
    requires p.clientReferenceId.Some? ==> forall id :: !HasReference(l, p.clientReferenceId.value, id)
    requires c.id !in l.cases && c.paymentId == p.transaction.id
    ensures RecordsOk(config, HoldPayment(l, p, c))
  {
    var after := HoldPayment(l, p, c);
    assert IsCaseFor(after, p.transaction.id, c.id);
    AddRecord(config, l, after, p);
  }

  lemma HoldKeepsOneCase(l: Ledger, p: PaymentRecord, c: ComplianceCase)
    requires OneCaseEach(l) && c.id !in l.cases && forall k | k in l.cases :: l.cases[k].paymentId != c.paymentId
    ensures OneCaseEach(HoldPayment(l, p, c))
  {
    var after := HoldPayment(l, p, c);
    forall payment, j, k | IsCaseFor(after, payment, j) && IsCaseFor(after, payment, k) ensures j == k {
      assert j != c.id && k != c.id ==> IsCaseFor(l, payment, j) && IsCaseFor(l, payment, k);
    }
  }

  lemma HoldKeepsCase(config: NodeConfig, l: Ledger, p: PaymentRecord, c: ComplianceCase, k: Uuid)
    requires k in l.cases && CaseOk(config, l, k) && p.transaction.id !in l.payments && k != c.id
    ensures CaseOk(config, HoldPayment(l, p, c), k)
  {
  }

  lemma HoldKeepsCases(config: NodeConfig, l: Ledger, p: PaymentRecord, c: ComplianceCase)
    requires CasesOk(config, l) && p.transaction.id !in l.payments && NeedsReview(config.policy, p.transaction)
    requires p.status.Held? && c.id !in l.cases && c.paymentId == p.transaction.id && c.status.Opened?
    ensures CasesOk(config, HoldPayment(l, p, c))
  {
    var after := HoldPayment(l, p, c);
    assert CaseOk(config, after, c.id);
    forall k | k in after.cases && k != c.id ensures CaseOk(config, after, k) {
      HoldKeepsCase(config, l, p, c, k);
    }
    assert forall k | k in l.cases :: CaseOk(config, l, k);
    HoldKeepsOneCase(l, p, c);
  }

  lemma HoldKeepsInv(config: NodeConfig, l: Ledger, r: Request, reason: string, id: Uuid, k: Uuid, now: int)
    requires NodeInv(config, l) && id !in l.payments && k !in l.cases
    requires Screen(config.policy, r.from, r.to, r.asset, r.amount).decision.Review?
    requires HoldForReview(config, l, r, reason, id, k, now).Ok?
    ensures NodeInv(config, HoldForReview(config, l, r, reason, id, k, now).value.0)
  {
    if Earlier(config, l, r).value.None? {
      NothingEarlier(config, l, r);
      var p := NewHold(config, l, r, reason, id, now);
      assert RecordOk(config, id, p) && NeedsReview(config.policy, p.transaction);
      NewHoldKeepsInv(config, l, p, OpenedCase(k, id, reason));
    }
  }

  lemma NewHoldKeepsInv(config: NodeConfig, l: Ledger, p: PaymentRecord, c: ComplianceCase)
    requires NodeInv(config, l) && p.transaction.id !in l.payments && c.id !in l.cases && c.paymentId == p.transaction.id && c.status.Opened?
    requires p.status.Held? && RecordOk(config, p.transaction.id, p) && NeedsReview(config.policy, p.transaction)
    requires p.clientReferenceId.Some? ==> forall id :: !HasReference(l, p.clientReferenceId.value, id)
    ensures NodeInv(config, HoldPayment(l, p, c))
  {
    HoldKeepsRecords(config, l, p, c);
    HoldKeepsCases(config, l, p, c);
    forall x | x in C.AllTxs(l.blocks) ensures RecordedFinal(HoldPayment(l, p, c), x) {
      assert RecordedFinal(l, x);
    }
  }

  /** What a resolution of case `k` changes: the case's status and its payment's. */
  ghost predicate Resolves(l: Ledger, after: Ledger, k: Uuid) {
    && k in l.cases && l.cases[k].paymentId in l.payments
    && after.blocks == l.blocks && after.payments.Keys == l.payments.Keys && after.cases.Keys == l.cases.Keys
    && (forall id | id in l.payments ::
          && after.payments[id].transaction == l.payments[id].transaction
          && after.payments[id].clientReferenceId == l.payments[id].clientReferenceId
          && after.payments[id].requestFingerprint == l.payments[id].requestFingerprint
          && (id != l.cases[k].paymentId ==> after.payments[id] == l.payments[id]))
    && (forall j | j in l.cases :: after.cases[j].paymentId == l.cases[j].paymentId && (j != k ==> after.cases[j] == l.cases[j]))
  }

  lemma ResolutionShape(l: Ledger, k: Uuid, resolution: Resolution, reviewer: Option<string>, reason: Option<string>)
    requires ResolveCase(l, k, resolution, reviewer, reason).Ok?
    requires l.cases[k].id == k && l.payments[l.cases[k].paymentId].transaction.id == l.cases[k].paymentId
    ensures var after := ResolveCase(l, k, resolution, reviewer, reason).value;
            && Resolves(l, after, k)
            && after.cases[k].id == k
            && StandingOf(after.cases[k]) == Some(after.payments[l.cases[k].paymentId].status)
  {
  }

  lemma ResolvedRecords(config: NodeConfig, l: Ledger, after: Ledger, k: Uuid)
    requires RecordsOk(config, l) && Resolves(l, after, k)
    requires NeedsReview(config.policy, l.payments[l.cases[k].paymentId].transaction)
    ensures RecordsOk(config, after)
  {
    forall reference, i, j | HasReference(after, reference, i) && HasReference(after, reference, j) ensures i == j {
      assert HasReference(l, reference, i) && HasReference(l, reference, j);
    }
    forall p | p in after.payments && NeedsReview(config.policy, after.payments[p].transaction) ensures HasCase(after, p) {
      var j :| IsCaseFor(l, p, j);
      assert IsCaseFor(after, p, j);
    }
    forall p | p in after.payments ensures RecordOk(config, p, after.payments[p]) {
      assert RecordOk(config, p, l.payments[p]);
    }
  }

  lemma ResolvedCases(config: NodeConfig, l: Ledger, after: Ledger, k: Uuid)
    requires CasesOk(config, l) && Resolves(l, after, k) && after.cases[k].id == k
    requires StandingOf(after.cases[k]) == Some(after.payments[l.cases[k].paymentId].status)
    ensures CasesOk(config, after)
  {
    forall payment, i, j | IsCaseFor(after, payment, i) && IsCaseFor(after, payment, j) ensures i == j {
      assert IsCaseFor(l, payment, i) && IsCaseFor(l, payment, j);
    }
    forall j | j in after.cases ensures CaseOk(config, after, j) {
      assert CaseOk(config, l, j);
      assert IsCaseFor(l, l.cases[j].paymentId, j) && IsCaseFor(l, l.cases[k].paymentId, k);
    }
  }

  lemma ResolvedChain(l: Ledger, after: Ledger, k: Uuid)
    requires ChainOk(l) && Resolves(l, after, k) && !l.payments[l.cases[k].paymentId].status.Finalized?
    ensures ChainOk(after)
  {
    var id := l.cases[k].paymentId;
    forall tx | tx in C.AllTxs(after.blocks) ensures RecordedFinal(after, tx) {
      assert RecordedFinal(l, tx);
      assert tx.id != id;
    }
  }

  lemma CaseFacts(config: NodeConfig, l: Ledger, k: Uuid)
    requires CasesOk(config, l) && k in l.cases
    ensures l.cases[k].id == k && l.cases[k].paymentId in l.payments
    ensures NeedsReview(config.policy, l.payments[l.cases[k].paymentId].transaction)
    ensures !l.payments[l.cases[k].paymentId].status.Finalized?
  {
    assert CaseOk(config, l, k);
  }

  lemma ResolvedInv(config: NodeConfig, l: Ledger, after: Ledger, k: Uuid)
    requires NodeInv(config, l) && Resolves(l, after, k) && after.cases[k].id == k
    requires StandingOf(after.cases[k]) == Some(after.payments[l.cases[k].paymentId].status)
    ensures NodeInv(config, after)
  {
    CaseFacts(config, l, k);
    ResolvedRecords(config, l, after, k);
    ResolvedCases(config, l, after, k);
    ResolvedChain(l, after, k);
  }

  /** Both resolutions move the case and its payment together. */
  lemma ResolveKeepsInv(config: NodeConfig, l: Ledger, k: Uuid, resolution: Resolution, reviewer: Option<string>, reason: Option<string>)
    requires NodeInv(config, l) && ResolveCase(l, k, resolution, reviewer, reason).Ok?
    ensures NodeInv(config, ResolveCase(l, k, resolution, reviewer, reason).value)
  {
    assert CaseOk(config, l, k) && RecordOk(config, l.cases[k].paymentId, l.payments[l.cases[k].paymentId]);
    ResolutionShape(l, k, resolution, reviewer, reason);
    ResolvedInv(config, l, ResolveCase(l, k, resolution, reviewer, reason).value, k);
  }

  lemma CallKeepsInv(config: NodeConfig, l: Ledger, call: Call)
    requires NodeInv(config, l) && FreshCall(l, call)
    ensures NodeInv(config, Do(config, l, call))
  {
    match call {
      case SubmitCall(r, id, k, now) =>
        var screened := Screen(config.policy, r.from, r.to, r.asset, r.amount);
        if screened.decision.Review? && HoldForReview(config, l, r, screened.reason, id, k, now).Ok? {
          HoldKeepsInv(config, l, r, screened.reason, id, k, now);
        } else if screened.decision.Allow? && Submission(config, l, r, id, now).Ok? {
          SubmissionKeepsInv(config, l, r, id, now);
        }
      case IssueCall(kind, from, to, asset, amount, id, now) =>
        if Issuance(config, l, kind, from, to, asset, amount, id, now).Ok? {
          ProduceKeepsInv(config, l, Transaction(id, from, to, asset, amount, l.NextNonce(from), kind, map[], now), now);
        }
      case ApproveCall(k, reviewer, reason) =>
        if ApproveCase(l, k, reviewer, reason).Ok? {
          ResolveKeepsInv(config, l, k, Approval, reviewer, reason);
        }
      case RejectCall(k, reviewer, reason) =>
        if RejectCase(l, k, reviewer, reason).Ok? {
          ResolveKeepsInv(config, l, k, Rejection(if reason.Some? then reason.value else "compliance case rejected"), reviewer, reason);
        }
    }
  }

  /** Every run of calls on the sandbox keeps payments, references and cases in step. */
  lemma {:induction false} RunsKeepNodeInv(config: NodeConfig, calls: seq<Call>)
    requires FreshRun(config, Sandbox(), calls)
    ensures NodeInv(config, DoAll(config, Sandbox(), calls))
    decreases |calls|
  {
    if calls != [] {
      RunsKeepNodeInv(config, calls[..|calls| - 1]);
      CallKeepsInv(config, DoAll(config, Sandbox(), calls[..|calls| - 1]), calls[|calls| - 1]);
    }
  }

  // ---- Idempotency ----

  lemma LookupFinds(l: Ledger, reference: string, id: Uuid)
    requires UniqueReferences(l) && HasReference(l, reference, id)
    ensures Lookup(l, reference) == Some(l.payments[id])
  {
  }

  lemma CaseIsFound(config: NodeConfig, l: Ledger, id: Uuid)
    requires RecordsOk(config, l) && id in l.payments && NeedsReview(config.policy, l.payments[id].transaction)
    ensures CaseFor(l, id).Some?
  {
    assert HasCase(l, id);
  }

  /** What an earlier record under the same reference makes of a request. */
  lemma EarlierOutcome(config: NodeConfig, l: Ledger, r: Request, id: Uuid)
    requires RecordsOk(config, l) && DigestInjective(config.digest) && r.reference.Some? && HasReference(l, r.reference.value, id)
    requires ToldApart(l.payments[id].transaction, r)
    ensures Earlier(config, l, r)
            == if SameTransfer(l.payments[id].transaction, r) then Ok(Some(l.payments[id]))
               else Err(IdempotencyConflict(r.reference.value))
  {
    LookupFinds(l, r.reference.value, id);
    assert RecordOk(config, id, l.payments[id]);
    RetryIffSame(config.digest, l.payments[id], r, r.reference.value);
  }

  /**
    The exact outcome of a request whose reference is already taken, in every reachable ledger: screening
    may refuse it; otherwise the same transfer returns the stored record and changes nothing - on the hold
    path its case is always found - and a different transfer is a conflict.
   */
  lemma RetryOutcome(config: NodeConfig, l: Ledger, r: Request, id: Uuid, newId: Uuid, newCase: Uuid, now: int)
    requires NodeInv(config, l) && DigestInjective(config.digest) && r.reference.Some? && HasReference(l, r.reference.value, id)
    requires ToldApart(l.payments[id].transaction, r)
    ensures var screened := Screen(config.policy, r.from, r.to, r.asset, r.amount);
            ScreenedSubmission(config, l, r, newId, newCase, now)
            == if screened.decision.Deny? then Err(Forbidden(screened.ruleId))
               else if SameTransfer(l.payments[id].transaction, r) then Ok((l, l.payments[id]))
               else Err(Refused(IdempotencyConflict(r.reference.value)))
  {
    EarlierOutcome(config, l, r, id);
    if Screen(config.policy, r.from, r.to, r.asset, r.amount).decision.Review? && SameTransfer(l.payments[id].transaction, r) {
      assert RecordOk(config, id, l.payments[id]);
      CaseIsFound(config, l, id);
    }
  }

  /** A record keeps its transaction and its reference through every call. */
  predicate KeepsRecord(l: Ledger, after: Ledger, id: Uuid) {
    id in l.payments ==>
      && id in after.payments
      && after.payments[id].transaction == l.payments[id].transaction
      && after.payments[id].clientReferenceId == l.payments[id].clientReferenceId
  }

  lemma ProduceKeepsRecord(config: NodeConfig, l: Ledger, tx: Transaction, now: int, id: Uuid)
    requires Produce(l, [tx], config.engine, config.crypto, now).Ok? && tx.id !in l.payments
    ensures KeepsRecord(l, Produce(l, [tx], config.engine, config.crypto, now).value.0, id)
  {
    ProduceOne(config, l, tx, now);
  }

  lemma ResolveKeepsRecord(config: NodeConfig, l: Ledger, k: Uuid, resolution: Resolution, reviewer: Option<string>, reason: Option<string>,
                           id: Uuid)
    requires NodeInv(config, l) && ResolveCase(l, k, resolution, reviewer, reason).Ok?
    ensures KeepsRecord(l, ResolveCase(l, k, resolution, reviewer, reason).value, id)
  {
    assert CaseOk(config, l, k) && RecordOk(config, l.cases[k].paymentId, l.payments[l.cases[k].paymentId]);
    ResolutionShape(l, k, resolution, reviewer, reason);
  }

  /** What a submission can do to the ledger: nothing, one hold, or one production. */
  lemma DispatchOutcome(config: NodeConfig, l: Ledger, screened: ComplianceResult, r: Request, id: Uuid, k: Uuid, now: int)
    requires Dispatched(config, l, screened, r, id, k, now).Ok?
    ensures var after, tx := Dispatched(config, l, screened, r, id, k, now).value.0, TransferTx(config, l, r, id, now);
            || after == l
            || after == HoldPayment(l, NewHold(config, l, r, screened.reason, id, now), OpenedCase(k, id, screened.reason))
            || (Produce(l, [tx], config.engine, config.crypto, now).Ok?
                && after == Produce(l, [tx], config.engine, config.crypto, now).value.0)
  {
  }

  lemma SubmitOutcome(config: NodeConfig, l: Ledger, r: Request, id: Uuid, k: Uuid, now: int)
    ensures var after, tx := Do(config, l, SubmitCall(r, id, k, now)), TransferTx(config, l, r, id, now);
            || after == l
            || (exists reason :: after == HoldPayment(l, NewHold(config, l, r, reason, id, now), OpenedCase(k, id, reason)))
            || (Produce(l, [tx], config.engine, config.crypto, now).Ok?
                && after == Produce(l, [tx], config.engine, config.crypto, now).value.0)
  {
    var screened := Screen(config.policy, r.from, r.to, r.asset, r.amount);
    if Dispatched(config, l, screened, r, id, k, now).Ok? {
      DispatchOutcome(config, l, screened, r, id, k, now);
    }
  }

  lemma SubmitKeepsRecord(config: NodeConfig, l: Ledger, r: Request, newId: Uuid, k: Uuid, now: int, id: Uuid)
    requires newId !in l.payments
    ensures KeepsRecord(l, Do(config, l, SubmitCall(r, newId, k, now)), id)
  {
    SubmitOutcome(config, l, r, newId, k, now);
    var tx := TransferTx(config, l, r, newId, now);
    if Produce(l, [tx], config.engine, config.crypto, now).Ok? {
      ProduceKeepsRecord(config, l, tx, now, id);
    }
  }

  lemma IssueKeepsRecord(config: NodeConfig, l: Ledger, call: Call, id: Uuid)
    requires call.IssueCall? && call.id !in l.payments
    ensures KeepsRecord(l, Do(config, l, call), id)
  {
    var IssueCall(kind, from, to, asset, amount, newId, now) := call;
    var tx := Transaction(newId, from, to, asset, amount, l.NextNonce(from), kind, map[], now);
    if Produce(l, [tx], config.engine, config.crypto, now).Ok? {
      ProduceKeepsRecord(config, l, tx, now, id);
    }
  }

  lemma CallKeepsRecord(config: NodeConfig, l: Ledger, call: Call, id: Uuid)
    requires NodeInv(config, l) && FreshCall(l, call)
    ensures KeepsRecord(l, Do(config, l, call), id)
  {
    match call {
      case SubmitCall(r, newId, k, now) => SubmitKeepsRecord(config, l, r, newId, k, now, id);
      case IssueCall(_, _, _, _, _, _, _) => IssueKeepsRecord(config, l, call, id);
      case ApproveCall(k, reviewer, reason) =>
        if ApproveCase(l, k, reviewer, reason).Ok? {
          ResolveKeepsRecord(config, l, k, Approval, reviewer, reason, id);
        }
      case RejectCall(k, reviewer, reason) =>
        if RejectCase(l, k, reviewer, reason).Ok? {
          ResolveKeepsRecord(config, l, k, Rejection(if reason.Some? then reason.value else "compliance case rejected"), reviewer, reason, id);
        }
    }
  }

  lemma {:induction false} RunKeepsRecord(config: NodeConfig, l: Ledger, calls: seq<Call>, id: Uuid)
    requires NodeInv(config, l) && FreshRun(config, l, calls)
    ensures NodeInv(config, DoAll(config, l, calls)) && KeepsRecord(l, DoAll(config, l, calls), id)
    decreases |calls|
  {
    if calls != [] {
      var front := calls[..|calls| - 1];
      RunKeepsRecord(config, l, front, id);
      CallKeepsInv(config, DoAll(config, l, front), calls[|calls| - 1]);
      CallKeepsRecord(config, DoAll(config, l, front), calls[|calls| - 1], id);
    }
  }

  lemma NewIsRecorded(config: NodeConfig, l: Ledger, r: Request, id: Uuid, k: Uuid, now: int)
    requires r.reference.Some? && Earlier(config, l, r) == Ok(None) && ScreenedSubmission(config, l, r, id, k, now).Ok?
    ensures var (after, p) := ScreenedSubmission(config, l, r, id, k, now).value;
            HasReference(after, r.reference.value, p.transaction.id) && after.payments[p.transaction.id] == p
            && SameTransfer(p.transaction, r)
  {
    var tx := TransferTx(config, l, r, id, now);
    if Produce(l, [tx], config.engine, config.crypto, now).Ok? {
      ProduceOne(config, l, tx, now);
    }
  }

  /** An accepted request with a reference leaves a record of that transfer under it. */
  lemma AcceptedIsRecorded(config: NodeConfig, l: Ledger, r: Request, id: Uuid, k: Uuid, now: int)
    requires NodeInv(config, l) && DigestInjective(config.digest) && FreshCall(l, SubmitCall(r, id, k, now)) && r.reference.Some?
    requires ScreenedSubmission(config, l, r, id, k, now).Ok? && Unambiguous(r.from, r.to, r.asset)
    ensures var (after, p) := ScreenedSubmission(config, l, r, id, k, now).value;
            HasReference(after, r.reference.value, p.transaction.id) && after.payments[p.transaction.id] == p
            && SameTransfer(p.transaction, r)
  {
    if exists i :: HasReference(l, r.reference.value, i) {
      var i :| HasReference(l, r.reference.value, i);
      RetryOutcome(config, l, r, i, id, k, now);
      assert RecordOk(config, i, l.payments[i]);
    } else {
      NewIsRecorded(config, l, r, id, k, now);
    }
  }

  /**
    Idempotency over whole runs: once a request with a reference is accepted, then after any further calls
    repeating it changes nothing and returns the record of the very same transaction, and any other
    transfer under that reference is refused.
   */
  lemma {:induction false} AcceptedOnce(config: NodeConfig, before: seq<Call>, r: Request, id: Uuid, k: Uuid, now: int, later: seq<Call>,
                     again: Request, newId: Uuid, newCase: Uuid, nowAgain: int)
    requires DigestInjective(config.digest) && FreshRun(config, Sandbox(), before) && r.reference.Some?
    requires var l := DoAll(config, Sandbox(), before);
             && FreshCall(l, SubmitCall(r, id, k, now)) && ScreenedSubmission(config, l, r, id, k, now).Ok?
             && FreshRun(config, ScreenedSubmission(config, l, r, id, k, now).value.0, later)
    requires again.reference == r.reference && Unambiguous(r.from, r.to, r.asset)
    ensures var (l1, p) := ScreenedSubmission(config, DoAll(config, Sandbox(), before), r, id, k, now).value;
            var l2 := DoAll(config, l1, later);
            var result := ScreenedSubmission(config, l2, again, newId, newCase, nowAgain);
            && (result.Ok? <==> again == r)
            && (result.Ok? ==> result.value.0 == l2 && result.value.1.transaction == p.transaction)
  {
    var l := DoAll(config, Sandbox(), before);
    var (l1, p) := ScreenedSubmission(config, l, r, id, k, now).value;
    RunsKeepNodeInv(config, before);
    CallKeepsInv(config, l, SubmitCall(r, id, k, now));
    assert Do(config, l, SubmitCall(r, id, k, now)) == l1;
    AcceptedIsRecorded(config, l, r, id, k, now);
    RunKeepsRecord(config, l1, later, p.transaction.id);
    RetryOutcome(config, DoAll(config, l1, later), again, p.transaction.id, newId, newCase, nowAgain);
  }

  /** A failed first attempt leaves its reference free: whatever is asked next under it is treated as new. */
  lemma FailureLeavesKeyFree(config: NodeConfig, l: Ledger, r: Request, id: Uuid, k: Uuid, now: int, next: Request)
    requires r.reference.Some? && next.reference == r.reference && forall i :: !HasReference(l, r.reference.value, i)
    requires ScreenedSubmission(config, l, r, id, k, now).Err?
    ensures Do(config, l, SubmitCall(r, id, k, now)) == l
    ensures Earlier(config, Do(config, l, SubmitCall(r, id, k, now)), next) == Ok(None)
  {
    assert Lookup(l, r.reference.value).None?;
  }

  // ---- Cases ----

  lemma SubmitKeepsCase(config: NodeConfig, l: Ledger, r: Request, id: Uuid, c: Uuid, now: int, k: Uuid)
    requires c !in l.cases && k in l.cases
    ensures var after := Do(config, l, SubmitCall(r, id, c, now)); k in after.cases && after.cases[k] == l.cases[k]
  {
    SubmitOutcome(config, l, r, id, c, now);
    var tx := TransferTx(config, l, r, id, now);
    if Produce(l, [tx], config.engine, config.crypto, now).Ok? {
      ProduceOne(config, l, tx, now);
    }
  }

  lemma IssueKeepsCase(config: NodeConfig, l: Ledger, call: Call)
    requires call.IssueCall?
    ensures Do(config, l, call).cases == l.cases
  {
    var IssueCall(kind, from, to, asset, amount, id, now) := call;
    var tx := Transaction(id, from, to, asset, amount, l.NextNonce(from), kind, map[], now);
    if Produce(l, [tx], config.engine, config.crypto, now).Ok? {
      ProduceOne(config, l, tx, now);
    }
  }

  lemma ResolveKeepsOther(config: NodeConfig, l: Ledger, c: Uuid, resolution: Resolution, reviewer: Option<string>, reason: Option<string>,
                          k: Uuid)
    requires CasesOk(config, l) && ResolveCase(l, c, resolution, reviewer, reason).Ok? && k in l.cases && l.cases[k].Terminal()
    ensures var after := ResolveCase(l, c, resolution, reviewer, reason).value; k in after.cases && after.cases[k] == l.cases[k]
  {
    CaseFacts(config, l, c);
  }

  /** A resolved case never changes again. */
  lemma ResolvedIsFinal(config: NodeConfig, l: Ledger, call: Call, k: Uuid)
    requires NodeInv(config, l) && FreshCall(l, call) && k in l.cases && l.cases[k].Terminal()
    ensures k in Do(config, l, call).cases && Do(config, l, call).cases[k] == l.cases[k]
  {
    match call {
      case SubmitCall(r, newId, c, now) => SubmitKeepsCase(config, l, r, newId, c, now, k);
      case IssueCall(_, _, _, _, _, _, _) => IssueKeepsCase(config, l, call);
      case ApproveCall(c, reviewer, reason) =>
        if ApproveCase(l, c, reviewer, reason).Ok? {
          ResolveKeepsOther(config, l, c, Approval, reviewer, reason, k);
        }
      case RejectCall(c, reviewer, reason) =>
        if RejectCase(l, c, reviewer, reason).Ok? {
          ResolveKeepsOther(config, l, c, Rejection(if reason.Some? then reason.value else "compliance case rejected"), reviewer, reason, k);
        }
    }
  }

  /** The case a call resolves, if it does. */
  function Resolved(l: Ledger, call: Call): Option<Uuid> {
    match call
    case ApproveCall(k, reviewer, reason) => if ApproveCase(l, k, reviewer, reason).Ok? then Some(k) else None
    case RejectCall(k, reviewer, reason) => if RejectCase(l, k, reviewer, reason).Ok? then Some(k) else None
    case _ => None
  }

  lemma ResolutionEnds(l: Ledger, k: Uuid, resolution: Resolution, reviewer: Option<string>, reason: Option<string>)
    requires ResolveCase(l, k, resolution, reviewer, reason).Ok? && l.cases[k].id == k
    ensures var after := ResolveCase(l, k, resolution, reviewer, reason).value;
            !l.cases[k].Terminal() && k in after.cases && after.cases[k].Terminal()
  {
  }

  lemma ResolvingEnds(config: NodeConfig, l: Ledger, call: Call)
    requires NodeInv(config, l) && Resolved(l, call).Some?
    ensures var k := Resolved(l, call).value;
            k in l.cases && !l.cases[k].Terminal() && k in Do(config, l, call).cases && Do(config, l, call).cases[k].Terminal()
  {
    var k := Resolved(l, call).value;
    CaseFacts(config, l, k);
    match call {
      case ApproveCall(_, reviewer, reason) => ResolutionEnds(l, k, Approval, reviewer, reason);
      case RejectCall(_, reviewer, reason) =>
        ResolutionEnds(l, k, Rejection(if reason.Some? then reason.value else "compliance case rejected"), reviewer, reason);
    }
  }

  lemma {:induction false} ResolvedStays(config: NodeConfig, l: Ledger, calls: seq<Call>, k: Uuid)
    requires NodeInv(config, l) && FreshRun(config, l, calls) && k in l.cases && l.cases[k].Terminal()
    ensures k in DoAll(config, l, calls).cases && DoAll(config, l, calls).cases[k] == l.cases[k]
    decreases |calls|
  {
    if calls != [] {
      var front := calls[..|calls| - 1];
      ResolvedStays(config, l, front, k);
      RunKeepsRecord(config, l, front, 0);
      ResolvedIsFinal(config, DoAll(config, l, front), calls[|calls| - 1], k);
    }
  }

  /** No case is resolved twice in any run of the in-memory node. */
  lemma {:induction false} ResolvedAtMostOnce(config: NodeConfig, before: seq<Call>, first: Call, between: seq<Call>, second: Call)
    requires FreshRun(config, Sandbox(), before) && Resolved(DoAll(config, Sandbox(), before), first).Some?
    requires FreshRun(config, Do(config, DoAll(config, Sandbox(), before), first), between)
    ensures Resolved(DoAll(config, Do(config, DoAll(config, Sandbox(), before), first), between), second)
            != Resolved(DoAll(config, Sandbox(), before), first)
  {
    var l := DoAll(config, Sandbox(), before);
    var l1 := Do(config, l, first);
    var l2 := DoAll(config, l1, between);
    RunsKeepNodeInv(config, before);
    CallKeepsInv(config, l, first);
    ResolvingEnds(config, l, first);
    ResolvedStays(config, l1, between, Resolved(l, first).value);
    RunKeepsRecord(config, l1, between, 0);
    if Resolved(l2, second).Some? {
      ResolvingEnds(config, l2, second);
    }
  }

  lemma CaseAndPaymentAgree(config: NodeConfig, l: Ledger, id: Uuid)
    requires NodeInv(config, l) && id in l.payments && NeedsReview(config.policy, l.payments[id].transaction)
    ensures && CaseFor(l, id).Some?
            && (forall k | IsCaseFor(l, id, k) :: l.cases[k] == CaseFor(l, id).value)
            && StandingOf(CaseFor(l, id).value) == Some(l.payments[id].status)
            && l.payments[id].transaction !in C.AllTxs(l.blocks)
  {
    assert HasCase(l, id) && l.payments[id].transaction.id == id by {
      assert RecordOk(config, id, l.payments[id]);
    }
    CaseStanding(config, l, id);
    WaitingIsInNoBlock(l, id);
  }

  lemma CaseStanding(config: NodeConfig, l: Ledger, id: Uuid)
    requires CasesOk(config, l) && id in l.payments && HasCase(l, id)
    ensures CaseFor(l, id).Some? && StandingOf(CaseFor(l, id).value) == Some(l.payments[id].status)
    ensures forall k | IsCaseFor(l, id, k) :: l.cases[k] == CaseFor(l, id).value
  {
    var k :| IsCaseFor(l, id, k);
    OnlyCase(l, id, k);
    assert CaseOk(config, l, k);
  }

  lemma OnlyCase(l: Ledger, payment: Uuid, k: Uuid)
    requires OneCaseEach(l) && IsCaseFor(l, payment, k)
    ensures CaseFor(l, payment) == Some(l.cases[k])
    ensures forall j | IsCaseFor(l, payment, j) :: l.cases[j] == l.cases[k]
  {
  }

  lemma WaitingIsInNoBlock(l: Ledger, id: Uuid)
    requires ChainOk(l) && id in l.payments && l.payments[id].transaction.id == id && !l.payments[id].status.Finalized?
    ensures l.payments[id].transaction !in C.AllTxs(l.blocks)
  {
    var tx := l.payments[id].transaction;
    assert tx in C.AllTxs(l.blocks) ==> RecordedFinal(l, tx);
  }

  /**
    In every run: a payment over the limit has exactly one case, which is open while the payment is HELD,
    approved while it is PENDING and rejected while it is REJECTED; and it is never in a block, because
    nothing in the in-memory node picks up pending payments.
   */
  lemma {:induction false} CasesAndPaymentsAgree(config: NodeConfig, calls: seq<Call>, id: Uuid)
    requires FreshRun(config, Sandbox(), calls)
    requires var l := DoAll(config, Sandbox(), calls); id in l.payments && NeedsReview(config.policy, l.payments[id].transaction)
    ensures var l := DoAll(config, Sandbox(), calls);
            && CaseFor(l, id).Some?
            && (forall k | IsCaseFor(l, id, k) :: l.cases[k] == CaseFor(l, id).value)
            && StandingOf(CaseFor(l, id).value) == Some(l.payments[id].status)
            && l.payments[id].transaction !in C.AllTxs(l.blocks)
  {
    RunsKeepNodeInv(config, calls);
    CaseAndPaymentAgree(config, DoAll(config, Sandbox(), calls), id);
  }

  // ---- The money ----

  lemma ProduceIsOp(config: NodeConfig, l: Ledger, tx: Transaction, now: int) returns (op: Op)
    requires Produce(l, [tx], config.engine, config.crypto, now).Ok?
    ensures Step(l, op) == Produce(l, [tx], config.engine, config.crypto, now).value.0
  {
    ProduceOne(config, l, tx, now);
    var b :| ApplyBlock(l, b) == Ok(Produce(l, [tx], config.engine, config.crypto, now).value.0);
    op := Apply(b);
  }

  lemma SubmitIsOp(config: NodeConfig, l: Ledger, r: Request, id: Uuid, k: Uuid, now: int) returns (op: Op)
    ensures Do(config, l, SubmitCall(r, id, k, now)) == Step(l, op)
  {
    SubmitOutcome(config, l, r, id, k, now);
    var after, tx := Do(config, l, SubmitCall(r, id, k, now)), TransferTx(config, l, r, id, now);
    if after == l {
      op := NoOp(l);
    } else if exists reason :: after == HoldPayment(l, NewHold(config, l, r, reason, id, now), OpenedCase(k, id, reason)) {
      var reason :| after == HoldPayment(l, NewHold(config, l, r, reason, id, now), OpenedCase(k, id, reason));
      op := Hold(NewHold(config, l, r, reason, id, now), OpenedCase(k, id, reason));
    } else {
      op := ProduceIsOp(config, l, tx, now);
    }
  }

  lemma IssueIsOp(config: NodeConfig, l: Ledger, call: Call) returns (op: Op)
    requires call.IssueCall?
    ensures Do(config, l, call) == Step(l, op)
  {
    var IssueCall(kind, from, to, asset, amount, id, now) := call;
    var tx := Transaction(id, from, to, asset, amount, l.NextNonce(from), kind, map[], now);
    if Produce(l, [tx], config.engine, config.crypto, now).Ok? {
      op := ProduceIsOp(config, l, tx, now);
    } else {
      op := NoOp(l);
    }
  }

  /** Every call is at most one operation of the ledger. */
  lemma CallIsOp(config: NodeConfig, l: Ledger, call: Call) returns (op: Op)
    ensures Do(config, l, call) == Step(l, op)
  {
    match call {
      case SubmitCall(r, id, k, now) => op := SubmitIsOp(config, l, r, id, k, now);
      case IssueCall(_, _, _, _, _, _, _) => op := IssueIsOp(config, l, call);
      case ApproveCall(k, reviewer, reason) => op := Approve(k, reviewer, reason);
      case RejectCall(k, reviewer, reason) => op := Reject(k, reviewer, reason);
    }
  }

  /** An operation every ledger refuses: a block without a hash. */
  function NoOp(l: Ledger): (op: Op)
    ensures Step(l, op) == l
  {
    Apply(NewUnsealed(0, "", [], "", 0))
  }

  lemma {:induction false} RunIsLedgerRun(config: NodeConfig, calls: seq<Call>) returns (ops: seq<Op>)
    ensures DoAll(config, Sandbox(), calls) == Run(Sandbox(), ops)
    decreases |calls|
  {
    if calls == [] {
      ops := [];
    } else {
      var front := RunIsLedgerRun(config, calls[..|calls| - 1]);
      var op := CallIsOp(config, DoAll(config, Sandbox(), calls[..|calls| - 1]), calls[|calls| - 1]);
      ops := front + [op];
      assert ops[..|ops| - 1] == front;
    }
  }

  /** Whatever callers do, all views of the node's money agree and no balance is negative. */
  lemma {:induction false} NodeMoneyBalances(config: NodeConfig, calls: seq<Call>)
    ensures var l := DoAll(config, Sandbox(), calls);
            Balanced(C.AllTxs(l.blocks), l.working) && Linked(l.blocks)
  {
    var ops := RunIsLedgerRun(config, calls);
    ReachableLedgersBalance(ops);
  }
}

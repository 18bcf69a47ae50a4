/**
  The in-memory node (crates/kani-node/src/lib.rs:203-418, 615-645, 690-731; crates/kani-api/src/lib.rs:885-989):
  submission, hold, mint, burn and case resolution against one mutable ledger.
 */
module Node {
  import opened Wrappers
  import opened Types
  import opened Ledgers
  import opened Consensus
  import opened Blocks
  import opened Compliance
  import opened Idempotency
  import C = LedgerCore
  import IM = InMemory

  datatype NodeConfig = NodeConfig(engine: Engine, crypto: Crypto, digest: Digest, policy: Policy)

  datatype SubmitError = Forbidden(ruleId: string) | Refused(nodeError: NodeError)

  // ---- Looking up records ----

  ghost predicate HasReference(l: Ledger, reference: string, id: Uuid) {
    id in l.payments && l.payments[id].clientReferenceId == Some(reference)
  }

  ghost predicate UniqueReferences(l: Ledger) {
    forall reference, i, j | HasReference(l, reference, i) && HasReference(l, reference, j) :: i == j
  }

  /** `get_payment_by_client_reference_id`: some record with the reference. */
  ghost function Lookup(l: Ledger, reference: string): Option<PaymentRecord> {
    if id :| HasReference(l, reference, id) then Some(l.payments[id]) else None
  }

  /** What a search for a reference may return: some record that carries it, or nothing when none does. */
  ghost predicate Finds(l: Ledger, reference: Option<string>, found: Option<PaymentRecord>) {
    if found.None? then reference.None? || forall id :: !HasReference(l, reference.value, id)
    else reference.Some? && exists id :: HasReference(l, reference.value, id) && l.payments[id] == found.value
  }

  ghost function LookupIf(l: Ledger, reference: Option<string>): Option<PaymentRecord> {
    if reference.None? then None else Lookup(l, reference.value)
  }

  ghost predicate IsCaseFor(l: Ledger, payment: Uuid, k: Uuid) {
    k in l.cases && l.cases[k].paymentId == payment
  }

  ghost predicate OneCaseEach(l: Ledger) {
    forall payment, j, k | IsCaseFor(l, payment, j) && IsCaseFor(l, payment, k) :: j == k
  }

  ghost function CaseFor(l: Ledger, payment: Uuid): Option<ComplianceCase> {
    if k :| IsCaseFor(l, payment, k) then Some(l.cases[k]) else None
  }

  ghost predicate FindsCase(l: Ledger, payment: Uuid, found: Option<ComplianceCase>) {
    if found.None? then forall k :: !IsCaseFor(l, payment, k)
    else exists k :: IsCaseFor(l, payment, k) && l.cases[k] == found.value
  }

  // ---- Operations ----

  function TransferTx(config: NodeConfig, l: Ledger, r: Request, id: Uuid, now: int): Transaction {
    var metadata :=
      if r.reference.None? then map[]
      else map["client_reference_id" := r.reference.value, "request_fingerprint" := Fingerprint(config.digest, r)];
    Transaction(id, r.from, r.to, r.asset, r.amount, l.NextNonce(r.from), Transfer, metadata, now)
  }

  /** What an earlier record makes of a request: that record, a conflict, or nothing. */
  function EarlierOf(config: NodeConfig, r: Request, found: Option<PaymentRecord>): Result<Option<PaymentRecord>, NodeError> {
    if r.reference.None? || found.None? then Ok(None)
    else
      var _ :- EnsureIdempotentRetry(found.value, r, Fingerprint(config.digest, r), r.reference.value);
      Ok(found)
  }

  ghost function Earlier(config: NodeConfig, l: Ledger, r: Request): Result<Option<PaymentRecord>, NodeError> {
    EarlierOf(config, r, LookupIf(l, r.reference))
  }

  function SubmissionOf(config: NodeConfig, l: Ledger, r: Request, found: Option<PaymentRecord>, id: Uuid, now: int):
      Result<(Ledger, PaymentRecord), NodeError> {
    var earlier :- EarlierOf(config, r, found);
    if earlier.Some? then Ok((l, earlier.value))
    else Produce(l, [TransferTx(config, l, r, id, now)], config.engine, config.crypto, now)
  }

  ghost function Submission(config: NodeConfig, l: Ledger, r: Request, id: Uuid, now: int): Result<(Ledger, PaymentRecord), NodeError> {
    SubmissionOf(config, l, r, LookupIf(l, r.reference), id, now)
  }

  function NewHold(config: NodeConfig, l: Ledger, r: Request, reason: string, id: Uuid, now: int): PaymentRecord {
    HeldRecord(TransferTx(config, l, r, id, now), reason)
      .(clientReferenceId := r.reference, requestFingerprint := Some(Fingerprint(config.digest, r)))
  }

  /** A hold, given the record and the case that searching has found. */
  function HoldOf(config: NodeConfig, l: Ledger, r: Request, found: Option<PaymentRecord>, foundCase: Option<ComplianceCase>, reason: string,
                  id: Uuid, k: Uuid, now: int): Result<(Ledger, PaymentRecord, ComplianceCase), NodeError> {
    var earlier :- EarlierOf(config, r, found);
    if earlier.Some? then
      match foundCase
      case None => Err(LedgerFailure(C.UnknownComplianceCase(earlier.value.transaction.id)))
      case Some(k) => Ok((l, earlier.value, k))
    else
      var payment, newCase := NewHold(config, l, r, reason, id, now), OpenedCase(k, id, reason);
      Ok((HoldPayment(l, payment, newCase), payment, newCase))
  }

  /** The case of the record a search has found. */
  ghost function CaseOfFound(l: Ledger, found: Option<PaymentRecord>): Option<ComplianceCase> {
    if found.None? then None else CaseFor(l, found.value.transaction.id)
  }

  ghost function HoldForReview(config: NodeConfig, l: Ledger, r: Request, reason: string, id: Uuid, k: Uuid, now: int):
      Result<(Ledger, PaymentRecord, ComplianceCase), NodeError> {
    var found := LookupIf(l, r.reference);
    HoldOf(config, l, r, found, CaseOfFound(l, found), reason, id, k, now)
  }

  /** The verdict of screening decides between refusal, hold and submission. */
  function DispatchedOf(config: NodeConfig, l: Ledger, screened: ComplianceResult, r: Request, found: Option<PaymentRecord>,
                        foundCase: Option<ComplianceCase>, id: Uuid, k: Uuid, now: int): Result<(Ledger, PaymentRecord), SubmitError> {
    match screened.decision
    case Deny => Err(Forbidden(screened.ruleId))
    case Review =>
      (match HoldOf(config, l, r, found, foundCase, screened.reason, id, k, now)
       case Err(e) => Err(Refused(e))
       case Ok((after, payment, _)) => Ok((after, payment)))
    case Allow =>
      match SubmissionOf(config, l, r, found, id, now)
      case Err(e) => Err(Refused(e))
      case Ok((after, payment)) => Ok((after, payment))
  }

  ghost function Dispatched(config: NodeConfig, l: Ledger, screened: ComplianceResult, r: Request, id: Uuid, k: Uuid, now: int):
      Result<(Ledger, PaymentRecord), SubmitError> {
    var found := LookupIf(l, r.reference);
    DispatchedOf(config, l, screened, r, found, CaseOfFound(l, found), id, k, now)
  }

  /** `submit_validated_payment` after authorization. */
  ghost function ScreenedSubmission(config: NodeConfig, l: Ledger, r: Request, id: Uuid, k: Uuid, now: int):
      Result<(Ledger, PaymentRecord), SubmitError> {
    Dispatched(config, l, Screen(config.policy, r.from, r.to, r.asset, r.amount), r, id, k, now)
  }

  /** `mint_sandbox` (treasury to account) and `burn_sandbox` (account to treasury): no reference, no screening. */
  function Issuance(config: NodeConfig, l: Ledger, kind: TransactionKind, from: AccountId, to: AccountId, asset: Asset, amount: int,
                    id: Uuid, now: int): Result<(Ledger, PaymentRecord), NodeError> {
    Produce(l, [Transaction(id, from, to, asset, amount, l.NextNonce(from), kind, map[], now)], config.engine, config.crypto, now)
  }

  /** What a search may find of the earlier record and, when that is a match, of its case. */
  ghost predicate FindsBoth(config: NodeConfig, l: Ledger, r: Request, found: Option<PaymentRecord>, foundCase: Option<ComplianceCase>) {
    && Finds(l, r.reference, found)
    && (found.Some? && EarlierOf(config, r, found).Ok? ==> FindsCase(l, found.value.transaction.id, foundCase))
  }

  lemma SomethingIsFound(config: NodeConfig, l: Ledger, r: Request, found: Option<PaymentRecord>)
    requires Finds(l, r.reference, found)
    ensures FindsBoth(config, l, r, found, CaseOfFound(l, found))
  {
  }

  /** A call has ended with the result and the ledger of an outcome; an error leaves the ledger as it was. */
  ghost predicate Ends<T, E>(outcome: Result<(Ledger, T), E>, before: Ledger, result: Result<T, E>, after: Ledger) {
    match outcome
    case Ok((l, value)) => result == Ok(value) && after == l
    case Err(e) => result == Err(e) && after == before
  }

  ghost predicate EndsHold(outcome: Result<(Ledger, PaymentRecord, ComplianceCase), NodeError>, before: Ledger,
                     result: Result<(PaymentRecord, ComplianceCase), NodeError>, after: Ledger) {
    match outcome
    case Ok((l, payment, complianceCase)) => result == Ok((payment, complianceCase)) && after == l
    case Err(e) => result == Err(e) && after == before
  }

  // ---- The node object ----

  class KaniNode {
    var ledger: IM.InMemoryLedger
    const config: NodeConfig

    constructor (ledger: IM.InMemoryLedger, config: NodeConfig)
      ensures this.ledger == ledger && this.config == config
    {
      this.ledger := ledger;
      this.config := config;
    }

    method FindByReference(reference: string) returns (found: Option<PaymentRecord>)
      ensures found.None? <==> forall id :: !HasReference(ledger.Value(), reference, id)
      ensures found.Some? ==> exists id :: HasReference(ledger.Value(), reference, id) && ledger.payments[id] == found.value
      ensures UniqueReferences(ledger.Value()) ==> found == Lookup(ledger.Value(), reference)
    {
      var ids := ledger.payments.Keys;
      while ids != {}
        invariant ids <= ledger.payments.Keys
        invariant forall id :: HasReference(ledger.Value(), reference, id) ==> id in ids
        decreases |ids|
      {
        var id :| id in ids;
        if ledger.payments[id].clientReferenceId == Some(reference) {
          assert HasReference(ledger.Value(), reference, id);
          return Some(ledger.payments[id]);
        }
        ids := ids - {id};
      }
      return None;
    }

    method FindCase(payment: Uuid) returns (found: Option<ComplianceCase>)
      ensures FindsCase(ledger.Value(), payment, found)
      ensures OneCaseEach(ledger.Value()) ==> found == CaseFor(ledger.Value(), payment)
    {
      var keys := ledger.complianceCases.Keys;
      while keys != {}
        invariant keys <= ledger.complianceCases.Keys
        invariant forall k :: IsCaseFor(ledger.Value(), payment, k) ==> k in keys
        decreases |keys|
      {
        var k :| k in keys;
        if ledger.complianceCases[k].paymentId == payment {
          assert IsCaseFor(ledger.Value(), payment, k);
          return Some(ledger.complianceCases[k]);
        }
        keys := keys - {k};
      }
      return None;
    }

    method EarlierPayment(r: Request) returns (earlier: Result<Option<PaymentRecord>, NodeError>)
      ensures exists found :: Finds(ledger.Value(), r.reference, found) && earlier == EarlierOf(config, r, found)
      ensures UniqueReferences(ledger.Value()) ==> earlier == Earlier(config, ledger.Value(), r)
    {
      ghost var l := ledger.Value();
      if r.reference.None? {
        assert Finds(l, r.reference, None);
        return Ok(None);
      }
      var found := FindByReference(r.reference.value);
      assert Finds(l, r.reference, found);
      if found.None? {
        return Ok(None);
      }
      var checked := EnsureIdempotentRetry(found.value, r, Fingerprint(config.digest, r), r.reference.value);
      return if checked.Err? then Err(checked.error) else Ok(found);
    }

    method BuildBlock(txs: seq<Transaction>, now: int) returns (r: Result<Block, NodeError>)
      requires txs != []
      ensures r == match config.engine.LeaderForHeight(ledger.Value().NextHeight())
                   case Err(error) => Err(ConsensusFailure(error))
                   case Ok(leader) => BuildBlockForValidator(ledger.Value(), txs, config.engine, config.crypto, leader, now)
    {
      var height := ledger.Value().NextHeight();
      var leader := config.engine.LeaderForHeight(height);
      if leader.Err? {
        return Err(ConsensusFailure(leader.error));
      }
      var votes := config.engine.FinalityVotesForBlock(height);
      if votes.Err? {
        return Err(ConsensusFailure(votes.error));
      }
      if |votes.value| < config.engine.Threshold() {
        return Err(InsufficientFinality(|votes.value|, config.engine.Threshold()));
      }
      var block := Sealed(ledger.Value(), txs, config.crypto, leader.value, votes.value, now);
      var verified := VerifyPhase1Block(ledger, block, config.engine, config.crypto);
      return if verified.Err? then Err(verified.error) else Ok(block);
    }

    /** The block is applied to a copy, which replaces the ledger only when everything succeeded. */
    method ProduceAndApply(txs: seq<Transaction>, now: int) returns (r: Result<PaymentRecord, NodeError>)
      modifies this`ledger
      ensures match Produce(old(ledger.Value()), txs, config.engine, config.crypto, now)
              case Ok((after, payment)) => r == Ok(payment) && fresh(ledger) && ledger.Value() == after
              case Err(e) => r == Err(e) && ledger == old(ledger)
    {
      if txs == [] {
        return Err(EmptyBlock);
      }
      var built := BuildBlock(txs, now);
      if built.Err? {
        return Err(built.error);
      }
      var verified := VerifyPhase1Block(ledger, built.value, config.engine, config.crypto);
      if verified.Err? {
        // The builder has verified this very block already.
        assert false;
      }
      var working := new IM.InMemoryLedger.FromValue(ledger.Value());
      var records := working.ApplyBlock(built.value);
      if records.Err? {
        return Err(LedgerFailure(records.error));
      }
      ledger := working;
      return Ok(records.value[0]);
    }

    /** The outcome for some record that the search may find; there is only one when references are unique. */
    method SubmitPayment(r: Request, id: Uuid, now: int) returns (result: Result<PaymentRecord, NodeError>)
      modifies this`ledger
      ensures exists found :: Finds(old(ledger.Value()), r.reference, found) &&
                Ends(SubmissionOf(config, old(ledger.Value()), r, found, id, now), old(ledger.Value()), result, ledger.Value())
      ensures UniqueReferences(old(ledger.Value())) ==>
                Ends(Submission(config, old(ledger.Value()), r, id, now), old(ledger.Value()), result, ledger.Value())
    {
      ghost var l := ledger.Value();
      var earlier := EarlierPayment(r);
      ghost var found :| Finds(l, r.reference, found) && earlier == EarlierOf(config, r, found);
      if earlier.Err? {
        return Err(earlier.error);
      }
      if earlier.value.Some? {
        return Ok(earlier.value.value);
      }
      result := ProduceAndApply([TransferTx(config, ledger.Value(), r, id, now)], now);
      assert Ends(SubmissionOf(config, l, r, found, id, now), l, result, ledger.Value());
    }

    method HoldPaymentForReview(r: Request, reason: string, id: Uuid, k: Uuid, now: int)
      returns (result: Result<(PaymentRecord, ComplianceCase), NodeError>)
      modifies ledger
      ensures ledger == old(ledger)
      ensures exists found, foundCase :: FindsBoth(config, old(ledger.Value()), r, found, foundCase) &&
                EndsHold(HoldOf(config, old(ledger.Value()), r, found, foundCase, reason, id, k, now), old(ledger.Value()), result, ledger.Value())
      ensures UniqueReferences(old(ledger.Value())) && OneCaseEach(old(ledger.Value())) ==>
                EndsHold(HoldForReview(config, old(ledger.Value()), r, reason, id, k, now), old(ledger.Value()), result, ledger.Value())
    {
      ghost var l := ledger.Value();
      var earlier := EarlierPayment(r);
      ghost var found :| Finds(l, r.reference, found) && earlier == EarlierOf(config, r, found);
      if earlier.Err? {
        assert FindsBoth(config, l, r, found, None);
        return Err(earlier.error);
      }
      if earlier.value.Some? {
        var payment := earlier.value.value;
        var foundCase := FindCase(payment.transaction.id);
        assert FindsBoth(config, l, r, found, foundCase);
        if foundCase.None? {
          return Err(LedgerFailure(C.UnknownComplianceCase(payment.transaction.id)));
        }
        return Ok((payment, foundCase.value));
      }
      var payment := NewHold(config, ledger.Value(), r, reason, id, now);
      var newCase := OpenedCase(k, id, reason);
      ledger.HoldPaymentForReview(payment, newCase);
      assert FindsBoth(config, l, r, found, None) by {
        assert r.reference.None? || found.None?;
      }
      return Ok((payment, newCase));
    }

    method Submit(r: Request, id: Uuid, k: Uuid, now: int) returns (result: Result<PaymentRecord, SubmitError>)
      modifies this`ledger, ledger
      ensures exists found, foundCase :: FindsBoth(config, old(ledger.Value()), r, found, foundCase) &&
                Ends(DispatchedOf(config, old(ledger.Value()), Screen(config.policy, r.from, r.to, r.asset, r.amount), r, found, foundCase,
                                  id, k, now),
                     old(ledger.Value()), result, ledger.Value())
      ensures UniqueReferences(old(ledger.Value())) && OneCaseEach(old(ledger.Value())) ==>
                Ends(ScreenedSubmission(config, old(ledger.Value()), r, id, k, now), old(ledger.Value()), result, ledger.Value())
    {
      var screened := Screen(config.policy, r.from, r.to, r.asset, r.amount);
      match screened.decision {
        case Deny =>
          SomethingIsFound(config, ledger.Value(), r, LookupIf(ledger.Value(), r.reference));
          return Err(Forbidden(screened.ruleId));
        case Review =>
          var held := HoldPaymentForReview(r, screened.reason, id, k, now);
          return if held.Err? then Err(Refused(held.error)) else Ok(held.value.0);
        case Allow =>
          ghost var l := ledger.Value();
          var submitted := SubmitPayment(r, id, now);
          ghost var found :| Finds(l, r.reference, found) &&
            Ends(SubmissionOf(config, l, r, found, id, now), l, submitted, ledger.Value());
          SomethingIsFound(config, l, r, found);
          return if submitted.Err? then Err(Refused(submitted.error)) else Ok(submitted.value);
      }
    }

    method MintSandbox(treasury: AccountId, to: AccountId, asset: Asset, amount: int, id: Uuid, now: int)
      returns (result: Result<PaymentRecord, NodeError>)
      modifies this`ledger
      ensures Ends(Issuance(config, old(ledger.Value()), Mint, treasury, to, asset, amount, id, now), old(ledger.Value()), result, ledger.Value())
    {
      var nonce := ledger.Value().NextNonce(treasury);
      result := ProduceAndApply([Transaction(id, treasury, to, asset, amount, nonce, Mint, map[], now)], now);
    }

    method BurnSandbox(from: AccountId, treasury: AccountId, asset: Asset, amount: int, id: Uuid, now: int)
      returns (result: Result<PaymentRecord, NodeError>)
      modifies this`ledger
      ensures Ends(Issuance(config, old(ledger.Value()), Burn, from, treasury, asset, amount, id, now), old(ledger.Value()), result, ledger.Value())
    {
      var nonce := ledger.Value().NextNonce(from);
      result := ProduceAndApply([Transaction(id, from, treasury, asset, amount, nonce, Burn, map[], now)], now);
    }
  }
}

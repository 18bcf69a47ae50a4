/**
  The records of crates/kani-types. Payment, case and transaction ids are UUIDs, that is
  128-bit numbers; they are naturals here, ordered as the database orders them. Amounts are
  mathematical integers; MachineArithmetic.dfy relates them to 128-bit words.
 */
module Types {
  import opened Wrappers

  type Uuid = nat
  type AccountId = string
  type Asset = string
  type ValidatorId = string

  const GENESIS_HASH := "KANI_GENESIS_V1"

  datatype AccountType = Treasury | Institution | Settlement | Fee

  datatype Account = Account(id: AccountId, accountType: AccountType)

  datatype TransactionKind = Mint | Burn | Transfer

  datatype Transaction = Transaction(
    id: Uuid,
    from: AccountId,
    to: AccountId,
    asset: Asset,
    amount: int,
    nonce: int,
    kind: TransactionKind,
    metadata: map<string, string>,
    createdAt: int)

  datatype TransactionStatus = Pending | Held | Finalized | Rejected

  datatype PaymentRecord = PaymentRecord(
    transaction: Transaction,
    status: TransactionStatus,
    blockHeight: Option<int>,
    blockHash: Option<string>,
    failureReason: Option<string>,
    clientReferenceId: Option<string>,
    requestFingerprint: Option<string>)
  {
    function MarkPending(): PaymentRecord {
      this.(status := Pending, failureReason := None)
    }

    function MarkRejected(reason: string): PaymentRecord {
      this.(status := Rejected, failureReason := Some(reason))
    }
  }

  function MetadataValue(tx: Transaction, key: string): Option<string> {
    if key in tx.metadata then Some(tx.metadata[key]) else None
  }

  /** Every constructor takes the client reference and the fingerprint from the metadata. */
  function NewRecord(tx: Transaction, status: TransactionStatus, height: Option<int>, hash: Option<string>,
                     reason: Option<string>): PaymentRecord {
    PaymentRecord(tx, status, height, hash, reason,
                  MetadataValue(tx, "client_reference_id"), MetadataValue(tx, "request_fingerprint"))
  }

  function FinalizedRecord(tx: Transaction, height: int, hash: string): PaymentRecord {
    NewRecord(tx, Finalized, Some(height), Some(hash), None)
  }

  function HeldRecord(tx: Transaction, reason: string): PaymentRecord {
    NewRecord(tx, Held, None, None, Some(reason))
  }

  datatype ComplianceCaseStatus =
    | Opened | Assigned | EvidenceRequested | Escalated | CaseApproved | CaseRejected | Closed

  datatype ComplianceCase = ComplianceCase(
    id: Uuid,
    paymentId: Uuid,
    status: ComplianceCaseStatus,
    reason: string,
    reviewer: Option<string>,
    resolutionReason: Option<string>)
  {
    function Approve(who: Option<string>, why: Option<string>): ComplianceCase {
      this.(status := CaseApproved, reviewer := who, resolutionReason := why)
    }

    function Reject(who: Option<string>, why: Option<string>): ComplianceCase {
      this.(status := CaseRejected, reviewer := who, resolutionReason := why)
    }

    predicate Terminal() {
      status.CaseApproved? || status.CaseRejected? || status.Closed?
    }
  }

  function OpenedCase(k: Uuid, payment: Uuid, reason: string): ComplianceCase {
    ComplianceCase(k, payment, Opened, reason, None, None)
  }

  datatype JournalDirection = DebitEntry | CreditEntry

  /** A transaction writes at most one entry per direction, so (transaction, direction) stands for the entry's UUID. */
  datatype JournalEntry = JournalEntry(
    transactionId: Uuid,
    direction: JournalDirection,
    accountId: AccountId,
    asset: Asset,
    amount: int,
    blockHeight: int)
  {
    function Key(): (Uuid, JournalDirection) {
      (transactionId, direction)
    }
  }

  datatype Block = Block(
    height: int,
    prevHash: string,
    txs: seq<Transaction>,
    validator: ValidatorId,
    signature: string,
    hash: string,
    finalizedBy: seq<ValidatorId>,
    createdAt: int)
  {
    function Seal(h: string, s: string, votes: seq<ValidatorId>): Block {
      this.(hash := h, signature := s, finalizedBy := votes)
    }

    /** The block as it is hashed: hash, signature and votes cleared. */
    function Unsealed(): Block {
      this.(hash := "", signature := "", finalizedBy := [])
    }
  }

  function NewUnsealed(height: int, prevHash: string, txs: seq<Transaction>, validator: ValidatorId, now: int): Block {
    Block(height, prevHash, txs, validator, "", "", [], now)
  }
}

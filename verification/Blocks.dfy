/**
  Building, verifying and producing blocks (crates/kani-node/src/lib.rs:675-731, 1029-1129), and
  what holds of every chain made of verified blocks. Hash and signature are uninterpreted functions.
 */
module Blocks {
  import opened Wrappers
  import opened Types
  import opened Ledgers
  import opened Consensus
  import C = LedgerCore
  import B = Books
  import IM = InMemory

  datatype Crypto = Crypto(hash: Block -> string, sign: (ValidatorId, string) -> string)

  ghost predicate HashNonEmpty(crypto: Crypto) {
    forall b :: crypto.hash(b) != ""
  }

  ghost predicate HashInjective(crypto: Crypto) {
    forall a, b :: crypto.hash(a) == crypto.hash(b) ==> a == b
  }

  datatype NodeError =
    | LedgerFailure(ledgerError: C.LedgerError)
    | ConsensusFailure(consensusError: ConsensusError)
    | EmptyBlock
    | InsufficientFinality(got: nat, required: nat)
    | InvalidBlockValidator(expected: ValidatorId, actual: ValidatorId)
    | UnknownFinalityValidator(id: ValidatorId)
    | DuplicateFinalityVote(id: ValidatorId)
    | MissingProducerFinalityVote(id: ValidatorId)
    | InvalidBlockHash(expectedHash: string, actualHash: string)
    | InvalidBlockSignature(validator: ValidatorId, hash: string)
    | IdempotencyConflict(clientReferenceId: string)

  function VerifyBlock(l: Ledger, b: Block, e: Engine, crypto: Crypto): Result<Unit, NodeError> {
    if b.txs == [] then Err(EmptyBlock)
    else match e.LeaderForHeight(b.height)
      case Err(error) => Err(ConsensusFailure(error))
      case Ok(leader) =>
        if b.validator != leader then Err(InvalidBlockValidator(leader, b.validator))
        else if |b.finalizedBy| < e.Threshold() then Err(InsufficientFinality(|b.finalizedBy|, e.Threshold()))
        else match CheckVotes(SetOf(e.Active()), b.finalizedBy)
          case Err(UnknownVoter(v)) => Err(UnknownFinalityValidator(v))
          case Err(RepeatedVoter(v)) => Err(DuplicateFinalityVote(v))
          case Ok(seen) =>
            if b.validator !in seen then Err(MissingProducerFinalityVote(b.validator))
            else if b.hash != crypto.hash(b.Unsealed()) then Err(InvalidBlockHash(crypto.hash(b.Unsealed()), b.hash))
            else if b.signature != crypto.sign(b.validator, b.hash) then Err(InvalidBlockSignature(b.validator, b.hash))
            else match l.DryRun(b.txs)
              case Err(error) => Err(LedgerFailure(error))
              case Ok(_) => Ok(Unit)
  }

  /** Everything a finalized block proves about its own making. */
  ghost predicate Endorsed(e: Engine, crypto: Crypto, b: Block) {
    && b.txs != []
    && e.LeaderForHeight(b.height) == Ok(b.validator)
    && |b.finalizedBy| >= e.Threshold()
    && Distinct(b.finalizedBy)
    && (forall v | v in b.finalizedBy :: v in e.Active())
    && b.validator in b.finalizedBy
    && b.hash == crypto.hash(Block(b.height, b.prevHash, b.txs, b.validator, "", "", [], b.createdAt))
    && b.signature == crypto.sign(b.validator, b.hash)
  }

  /** An endorsed block was led and voted for by validators that are switched on, at least two thirds of them. */
  lemma EndorsedByActive(e: Engine, crypto: Crypto, b: Block)
    requires Endorsed(e, crypto, b)
    ensures IsActive(e.validators, b.validator) && forall v | v in b.finalizedBy :: IsActive(e.validators, v)
    ensures 3 * |b.finalizedBy| >= 2 * ActiveCount(e.validators)
  {
    ActiveIdsIff(e.validators);
  }

  /** A block verifies exactly when it is endorsed and its transactions pass the dry run. */
  lemma VerifyIffEndorsed(l: Ledger, b: Block, e: Engine, crypto: Crypto)
    ensures VerifyBlock(l, b, e, crypto).Ok? <==> Endorsed(e, crypto, b) && l.DryRun(b.txs).Ok?
  {
    CheckVotesIff(SetOf(e.Active()), b.finalizedBy);
  }

  method VerifyPhase1Block(ledger: IM.InMemoryLedger, block: Block, e: Engine, crypto: Crypto)
    returns (r: Result<Unit, NodeError>)
    ensures r == VerifyBlock(ledger.Value(), block, e, crypto)
    ensures r.Ok? <==> Endorsed(e, crypto, block) && ledger.Value().DryRun(block.txs).Ok?
    ensures r.Ok? ==> IsActive(e.validators, block.validator) && forall v | v in block.finalizedBy :: IsActive(e.validators, v)
  {
    ActiveIdsIff(e.validators);
    VerifyIffEndorsed(ledger.Value(), block, e, crypto);
    if block.txs == [] {
      return Err(EmptyBlock);
    }
    var leader := e.LeaderForHeight(block.height);
    if leader.Err? {
      return Err(ConsensusFailure(leader.error));
    }
    if block.validator != leader.value {
      return Err(InvalidBlockValidator(leader.value, block.validator));
    }
    var required := e.Threshold();
    if |block.finalizedBy| < required {
      return Err(InsufficientFinality(|block.finalizedBy|, required));
    }
    var checked := CheckVotesLoop(SetOf(e.Active()), block.finalizedBy);
    match checked {
      case Err(UnknownVoter(v)) => return Err(UnknownFinalityValidator(v));
      case Err(RepeatedVoter(v)) => return Err(DuplicateFinalityVote(v));
      case Ok(seen) =>
        if block.validator !in seen {
          return Err(MissingProducerFinalityVote(block.validator));
        }
    }
    var expectedHash := crypto.hash(block.Unsealed());
    if block.hash != expectedHash {
      return Err(InvalidBlockHash(expectedHash, block.hash));
    }
    if block.signature != crypto.sign(block.validator, block.hash) {
      return Err(InvalidBlockSignature(block.validator, block.hash));
    }
    var dryRun := ledger.ValidateTransactionsForNextBlock(block.txs);
    if dryRun.Err? {
      return Err(LedgerFailure(dryRun.error));
    }
    return Ok(Unit);
  }

  /** The sealed block both builders make before verifying it. */
  function Sealed(l: Ledger, txs: seq<Transaction>, crypto: Crypto, validator: ValidatorId, votes: seq<ValidatorId>, now: int): Block {
    var unsealed := NewUnsealed(l.NextHeight(), l.LastHash(), txs, validator, now);
    var hash := crypto.hash(unsealed);
    unsealed.Seal(hash, crypto.sign(validator, hash), votes)
  }

  function BuildBlockForValidator(l: Ledger, txs: seq<Transaction>, e: Engine, crypto: Crypto, validator: ValidatorId, now: int):
      Result<Block, NodeError> {
    if txs == [] then Err(EmptyBlock)
    else match e.FinalityVotesForBlock(l.NextHeight())
      case Err(error) => Err(ConsensusFailure(error))
      case Ok(votes) =>
        if |votes| < e.Threshold() then Err(InsufficientFinality(|votes|, e.Threshold()))
        else
          var block := Sealed(l, txs, crypto, validator, votes, now);
          var _ :- VerifyBlock(l, block, e, crypto);
          Ok(block)
  }

  /** A leader with a non-empty batch that passes the dry run always gets its block, and the block is endorsed. */
  lemma BuildingCannotFail(l: Ledger, txs: seq<Transaction>, e: Engine, crypto: Crypto, validator: ValidatorId, now: int)
    requires e.Configured() && txs != [] && l.DryRun(txs).Ok?
    requires e.LeaderForHeight(l.NextHeight()) == Ok(validator)
    ensures var built := BuildBlockForValidator(l, txs, e, crypto, validator, now);
            && built.Ok?
            && Endorsed(e, crypto, built.value)
            && built.value.txs == txs && built.value.validator == validator && built.value.createdAt == now
            && built.value.height == l.NextHeight() && built.value.prevHash == l.LastHash()
            && (HashNonEmpty(crypto) ==> ApplyBlock(l, built.value).Ok?)
  {
    VoteWindow(e, l.NextHeight());
    var votes := e.FinalityVotesForBlock(l.NextHeight()).value;
    var block := Sealed(l, txs, crypto, validator, votes, now);
    assert block.Unsealed() == NewUnsealed(l.NextHeight(), l.LastHash(), txs, validator, now);
    assert votes[0] == validator;
    VerifyIffEndorsed(l, block, e, crypto);
    if HashNonEmpty(crypto) {
      ApplyBlockIffDryRun(l, block);
    }
  }

  // ---- Chains of endorsed blocks ----

  ghost predicate GoodChain(e: Engine, crypto: Crypto, blocks: seq<Block>) {
    Linked(blocks) && forall b | b in blocks :: Endorsed(e, crypto, b)
  }

  lemma GoodChainExtends(e: Engine, crypto: Crypto, l: Ledger, b: Block)
    requires GoodChain(e, crypto, l.blocks) && Endorsed(e, crypto, b) && ApplyBlock(l, b).Ok?
    ensures GoodChain(e, crypto, l.blocks + [b])
  {
    LinkedSnoc(l.blocks, b);
  }

  lemma SameHashSameContents(e: Engine, crypto: Crypto, x: Block, y: Block)
    requires HashInjective(crypto) && Endorsed(e, crypto, x) && Endorsed(e, crypto, y) && x.hash == y.hash
    ensures x.height == y.height && x.prevHash == y.prevHash && x.txs == y.txs && x.validator == y.validator && x.createdAt == y.createdAt
  {
    var a := Block(x.height, x.prevHash, x.txs, x.validator, "", "", [], x.createdAt);
    var b := Block(y.height, y.prevHash, y.txs, y.validator, "", "", [], y.createdAt);
    assert a == b;
  }

  /** Whatever of its contents is changed on a verified block, under its old hash it no longer verifies on any ledger. */
  lemma RewrittenBlockFails(l: Ledger, b: Block, other: Ledger, c: Block, e: Engine, crypto: Crypto)
    requires HashInjective(crypto) && VerifyBlock(l, b, e, crypto).Ok? && c.hash == b.hash
    requires c.height != b.height || c.prevHash != b.prevHash || c.txs != b.txs || c.validator != b.validator || c.createdAt != b.createdAt
    ensures VerifyBlock(other, c, e, crypto).Err?
  {
    VerifyIffEndorsed(l, b, e, crypto);
    VerifyIffEndorsed(other, c, e, crypto);
    if VerifyBlock(other, c, e, crypto).Ok? {
      SameHashSameContents(e, crypto, b, c);
    }
  }

  /** With its transactions, its time or its predecessor exchanged, the error is the hash. */
  lemma ExchangedContentsAreNamed(l: Ledger, b: Block, c: Block, other: Ledger, e: Engine, crypto: Crypto)
    requires HashInjective(crypto) && VerifyBlock(l, b, e, crypto).Ok? && c != b
    requires c.txs != [] && c == b.(txs := c.txs, createdAt := c.createdAt, prevHash := c.prevHash)
    ensures VerifyBlock(other, c, e, crypto)
            == Err(InvalidBlockHash(crypto.hash(Block(c.height, c.prevHash, c.txs, c.validator, "", "", [], c.createdAt)), b.hash))
  {
    VerifyIffEndorsed(l, b, e, crypto);
    CheckVotesIff(SetOf(e.Active()), b.finalizedBy);
    var x := Block(b.height, b.prevHash, b.txs, b.validator, "", "", [], b.createdAt);
    var y := Block(c.height, c.prevHash, c.txs, c.validator, "", "", [], c.createdAt);
    assert x != y && c.Unsealed() == y;
    assert crypto.hash(x) != crypto.hash(y);
  }

  /** With an injective hash, a tip hash determines the whole history below it. */
  lemma {:induction false} SameTipSameHistory(e: Engine, crypto: Crypto, a: seq<Block>, b: seq<Block>)
    requires HashInjective(crypto)
    requires GoodChain(e, crypto, a) && GoodChain(e, crypto, b)
    requires a != [] && b != [] && a[|a| - 1].hash == b[|b| - 1].hash
    ensures |a| == |b|
    ensures forall i | 0 <= i < |a| ::
              && a[i].txs == b[i].txs && a[i].validator == b[i].validator && a[i].createdAt == b[i].createdAt
              && a[i].height == b[i].height && a[i].prevHash == b[i].prevHash && a[i].hash == b[i].hash
    decreases |a|
  {
    SameHashSameContents(e, crypto, a[|a| - 1], b[|b| - 1]);
    assert LinkAt(a, |a| - 1) && LinkAt(b, |b| - 1);
    if |a| > 1 {
      LinkedPrefix(a, |a| - 1);
      LinkedPrefix(b, |b| - 1);
      SameTipSameHistory(e, crypto, a[..|a| - 1], b[..|b| - 1]);
    }
  }

  // ---- The in-memory node's own producer ----

  /** `produce_and_apply_locked`: the block is built and verified against the old ledger, then replaces it. */
  function Produce(l: Ledger, txs: seq<Transaction>, e: Engine, crypto: Crypto, now: int): Result<(Ledger, PaymentRecord), NodeError> {
    if txs == [] then Err(EmptyBlock)
    else match e.LeaderForHeight(l.NextHeight())
      case Err(error) => Err(ConsensusFailure(error))
      case Ok(leader) =>
        var block :- BuildBlockForValidator(l, txs, e, crypto, leader, now);
        match ApplyBlock(l, block)
        case Err(error) => Err(LedgerFailure(error))
        case Ok(after) => Ok((after, RecordsOf(block)[0]))
  }

  /** Production succeeds exactly when the dry run accepts the batch; it then appends one endorsed block. */
  lemma ProduceIffDryRun(l: Ledger, txs: seq<Transaction>, e: Engine, crypto: Crypto, now: int)
    requires e.Configured() && HashNonEmpty(crypto) && txs != []
    ensures Produce(l, txs, e, crypto, now).Ok? <==> l.DryRun(txs).Ok?
    ensures Produce(l, txs, e, crypto, now).Ok? ==>
              var (after, record) := Produce(l, txs, e, crypto, now).value;
              && |after.blocks| == |l.blocks| + 1
              && after.blocks[..|l.blocks|] == l.blocks
              && after.blocks[|l.blocks|].txs == txs
              && Endorsed(e, crypto, after.blocks[|l.blocks|])
              && ApplyBlock(l, after.blocks[|l.blocks|]) == Ok(after)
              && record.transaction == txs[0] && record.status.Finalized?
              && after.cases == l.cases
              && after.payments == InsertRecords(l.payments, RecordsOf(after.blocks[|l.blocks|]))
  {
    LeaderIsActive(e, l.NextHeight());
    var leader := e.LeaderForHeight(l.NextHeight()).value;
    if l.DryRun(txs).Ok? {
      BuildingCannotFail(l, txs, e, crypto, leader, now);
    } else {
      VoteWindow(e, l.NextHeight());
      var votes := e.FinalityVotesForBlock(l.NextHeight()).value;
      VerifyIffEndorsed(l, Sealed(l, txs, crypto, leader, votes, now), e, crypto);
    }
  }
}

/**
  The settlement summary and the validator finality report (crates/kani-api/src/lib.rs:2503-2549,
  2612-2708): counting loops over a list of blocks in any order, and what they say about a whole chain.
 */
module Reports {
  import opened Wrappers
  import opened Types
  import opened Ledgers
  import opened LedgerCore
  import opened Books
  import opened Consensus
  import opened Blocks
  import opened Rotation

  // ---- Sums over blocks do not depend on their order ----

  function SumBy(f: Block -> int, blocks: seq<Block>): int {
    if blocks == [] then 0 else SumBy(f, blocks[..|blocks| - 1]) + f(blocks[|blocks| - 1])
  }

  lemma {:induction false} SumByRemove(f: Block -> int, blocks: seq<Block>, i: nat)
    requires i < |blocks|
    ensures SumBy(f, blocks) == SumBy(f, blocks[..i] + blocks[i + 1..]) + f(blocks[i])
    decreases |blocks|
  {
    var n := |blocks| - 1;
    if i == n {
      assert blocks[..i] + blocks[i + 1..] == blocks[..n];
    } else {
      var less := blocks[..i] + blocks[i + 1..];
      SumByRemove(f, blocks[..n], i);
      assert less[..n - 1] == blocks[..n][..i] + blocks[..n][i + 1..];
      assert less[n - 1] == blocks[n];
    }
  }

  lemma RemoveOne(s: seq<Block>, i: nat)
    requires i < |s|
    ensures multiset(s[..i] + s[i + 1..]) == multiset(s) - multiset{s[i]}
  {
    assert s == s[..i] + [s[i]] + s[i + 1..];
  }

  lemma {:induction false} SumByPermuted(f: Block -> int, a: seq<Block>, b: seq<Block>)
    requires multiset(a) == multiset(b)
    ensures SumBy(f, a) == SumBy(f, b)
    decreases |a|
  {
    if a == [] {
      assert |multiset(b)| == 0;
    } else {
      var n := |a| - 1;
      assert a[n] in multiset(b);
      var i: nat :| i < |b| && b[i] == a[n];
      RemoveOne(a, n);
      assert a[..n] + a[n + 1..] == a[..n];
      RemoveOne(b, i);
      SumByRemove(f, b, i);
      SumByPermuted(f, a[..n], b[..i] + b[i + 1..]);
    }
  }

  // ---- Settlement summary ----

  function CountKind(txs: seq<Transaction>, kind: TransactionKind): nat {
    if txs == [] then 0
    else CountKind(txs[..|txs| - 1], kind) + (if txs[|txs| - 1].kind == kind then 1 else 0)
  }

  ghost predicate Moved(txs: seq<Transaction>, kind: TransactionKind, asset: Asset) {
    exists i :: 0 <= i < |txs| && txs[i].kind == kind && txs[i].asset == asset
  }

  /** The map holds, for exactly the assets that transactions of one kind move, what they move. */
  ghost predicate Tallies(amounts: map<Asset, int>, txs: seq<Transaction>, kind: TransactionKind) {
    && (forall asset :: Get(amounts, asset) == SumOfKind(txs, kind, asset))
    && (forall asset :: asset in amounts <==> Moved(txs, kind, asset))
  }

  datatype SettlementSummary = SettlementSummary(
    blockCount: nat, transactionCount: nat, mintCount: nat, burnCount: nat, transferCount: nat,
    minted: map<Asset, int>, burned: map<Asset, int>, gross: map<Asset, int>)

  ghost predicate Summarizes(s: SettlementSummary, txs: seq<Transaction>) {
    && Tallies(s.minted, txs, Mint) && Tallies(s.burned, txs, Burn) && Tallies(s.gross, txs, Transfer)
    && s.mintCount == CountKind(txs, Mint) && s.burnCount == CountKind(txs, Burn) && s.transferCount == CountKind(txs, Transfer)
    && s.transactionCount == |txs|
  }

  lemma TalliesSnoc(amounts: map<Asset, int>, txs: seq<Transaction>, tx: Transaction, kind: TransactionKind)
    requires Tallies(amounts, txs, kind)
    ensures Tallies(if tx.kind == kind then Add(amounts, tx.asset, tx.amount) else amounts, txs + [tx], kind)
  {
    var all := txs + [tx];
    var after := if tx.kind == kind then Add(amounts, tx.asset, tx.amount) else amounts;
    forall asset ensures Get(after, asset) == SumOfKind(all, kind, asset) {
      SumOfKindSnoc(txs, tx, kind, asset);
    }
    forall asset ensures asset in after <==> Moved(all, kind, asset) {
      if Moved(txs, kind, asset) {
        var i :| 0 <= i < |txs| && txs[i].kind == kind && txs[i].asset == asset;
        assert all[i] == txs[i];
      } else if tx.kind == kind && tx.asset == asset {
        assert all[|txs|] == tx;
      }
    }
  }

  /** One transaction counted. */
  function Tally(s: SettlementSummary, tx: Transaction): SettlementSummary {
    var more := s.(transactionCount := s.transactionCount + 1);
    match tx.kind
    case Mint => more.(mintCount := s.mintCount + 1, minted := Add(s.minted, tx.asset, tx.amount))
    case Burn => more.(burnCount := s.burnCount + 1, burned := Add(s.burned, tx.asset, tx.amount))
    case Transfer => more.(transferCount := s.transferCount + 1, gross := Add(s.gross, tx.asset, tx.amount))
  }

  lemma SummarizesSnoc(s: SettlementSummary, txs: seq<Transaction>, tx: Transaction)
    requires Summarizes(s, txs)
    ensures Summarizes(Tally(s, tx), txs + [tx])
  {
    TalliesSnoc(s.minted, txs, tx, Mint);
    TalliesSnoc(s.burned, txs, tx, Burn);
    TalliesSnoc(s.gross, txs, tx, Transfer);
    assert (txs + [tx])[..|txs|] == txs;
  }

  /** The loop over one block's transactions. */
  method CountBlock(before: SettlementSummary, txs: seq<Transaction>, ghost done: seq<Transaction>) returns (s: SettlementSummary)
    requires Summarizes(before, done)
    ensures Summarizes(s, done + txs)
  {
    var minted, burned, gross := before.minted, before.burned, before.gross;
    var mintCount, burnCount, transferCount := before.mintCount, before.burnCount, before.transferCount;
    var j := 0;
    s := before;
    assert done + txs[..0] == done;
    while j < |txs|
      invariant 0 <= j <= |txs|
      invariant s == SettlementSummary(before.blockCount, before.transactionCount + j, mintCount, burnCount, transferCount,
                                       minted, burned, gross)
      invariant Summarizes(s, done + txs[..j])
    {
      var tx := txs[j];
      SummarizesSnoc(s, done + txs[..j], tx);
      assert done + txs[..j] + [tx] == done + txs[..j + 1];
      match tx.kind {
        case Mint =>
          mintCount := mintCount + 1;
          minted := Add(minted, tx.asset, tx.amount);
        case Burn =>
          burnCount := burnCount + 1;
          burned := Add(burned, tx.asset, tx.amount);
        case Transfer =>
          transferCount := transferCount + 1;
          gross := Add(gross, tx.asset, tx.amount);
      }
      ghost var counted := Tally(s, tx);
      j := j + 1;
      s := SettlementSummary(before.blockCount, before.transactionCount + j, mintCount, burnCount, transferCount, minted, burned, gross);
      assert s == counted;
    }
    assert txs[..j] == txs;
  }

  lemma {:induction false} CountsAddUp(txs: seq<Transaction>)
    ensures CountKind(txs, Mint) + CountKind(txs, Burn) + CountKind(txs, Transfer) == |txs|
    decreases |txs|
  {
    if txs != [] {
      CountsAddUp(txs[..|txs| - 1]);
    }
  }

  method BuildSettlementSummary(blocks: seq<Block>) returns (s: SettlementSummary)
    ensures Summarizes(s, AllTxs(blocks)) && s.blockCount == |blocks|
    ensures s.transactionCount == s.mintCount + s.burnCount + s.transferCount
  {
    s := SettlementSummary(|blocks|, 0, 0, 0, 0, map[], map[], map[]);
    var i := 0;
    while i < |blocks|
      invariant 0 <= i <= |blocks|
      invariant Summarizes(s, AllTxs(blocks[..i]))
    {
      s := CountBlock(s, blocks[i].txs, AllTxs(blocks[..i]));
      assert blocks[..i + 1] == blocks[..i] + [blocks[i]];
      AllTxsSnoc(blocks[..i], blocks[i]);
      i := i + 1;
    }
    assert blocks[..i] == blocks;
    CountsAddUp(AllTxs(blocks));
    s := s.(blockCount := |blocks|);
  }

  lemma {:induction false} KindOverBlocks(blocks: seq<Block>, kind: TransactionKind, asset: Asset)
    ensures SumOfKind(AllTxs(blocks), kind, asset) == SumBy((b: Block) => SumOfKind(b.txs, kind, asset), blocks)
    decreases |blocks|
  {
    if blocks != [] {
      var front, b := blocks[..|blocks| - 1], blocks[|blocks| - 1];
      KindOverBlocks(front, kind, asset);
      SumOfKindConcat(AllTxs(front), b.txs, kind, asset);
    }
  }

  /**
    The fifth view of the money: the settlement report over the whole chain, its blocks in any order,
    has minted minus burned equal to issued supply and to the sum of all balances.
   */
  lemma {:induction false} SettlementAgreesWithLedger(ops: seq<Op>, blocks: seq<Block>, s: SettlementSummary, asset: Asset)
    requires multiset(blocks) == multiset(Run(Sandbox(), ops).blocks) && Summarizes(s, AllTxs(blocks))
    ensures var w := Run(Sandbox(), ops).working;
            Get(s.minted, asset) - Get(s.burned, asset) == Get(w.issued, asset) == TotalHeld(w.balances, asset)
  {
    var l := Run(Sandbox(), ops);
    ReachableLedgersBalance(ops);
    KindOverBlocks(blocks, Mint, asset);
    KindOverBlocks(blocks, Burn, asset);
    KindOverBlocks(l.blocks, Mint, asset);
    KindOverBlocks(l.blocks, Burn, asset);
    SumByPermuted((b: Block) => SumOfKind(b.txs, Mint, asset), blocks, l.blocks);
    SumByPermuted((b: Block) => SumOfKind(b.txs, Burn, asset), blocks, l.blocks);
    assert Get(l.working.issued, asset) == NetIssue(AllTxs(l.blocks), asset);
  }

  // ---- Validator finality ----

  datatype ValidatorRow = ValidatorRow(id: ValidatorId, active: bool, producedBlocks: int, finalityVotes: int)

  datatype FinalityReport = FinalityReport(
    activeValidatorCount: nat, requiredFinalityVotes: nat, blockCount: nat, transactionCount: int,
    finalizedBlockCount: int, blocksBelowThreshold: int, rows: seq<ValidatorRow>)

  function RequiredFinalityVotes(active: nat): nat {
    if active == 0 then 0 else (active * 2 + 2) / 3
  }

  function Produced(blocks: seq<Block>, v: ValidatorId): int {
    SumBy((b: Block) => if b.validator == v then 1 else 0, blocks)
  }

  function Voted(blocks: seq<Block>, v: ValidatorId): int {
    SumBy((b: Block) => multiset(b.finalizedBy)[v], blocks)
  }

  function Below(blocks: seq<Block>, required: nat): int {
    SumBy((b: Block) => if |b.finalizedBy| >= required then 0 else 1, blocks)
  }

  function Transactions(blocks: seq<Block>): int {
    SumBy((b: Block) => |b.txs|, blocks)
  }

  method CountVotes(votes: map<ValidatorId, int>, finalizedBy: seq<ValidatorId>) returns (after: map<ValidatorId, int>)
    ensures forall v :: Get(after, v) == Get(votes, v) + multiset(finalizedBy)[v]
  {
    after := votes;
    var j := 0;
    while j < |finalizedBy|
      invariant 0 <= j <= |finalizedBy|
      invariant forall v :: Get(after, v) == Get(votes, v) + multiset(finalizedBy[..j])[v]
    {
      assert finalizedBy[..j + 1] == finalizedBy[..j] + [finalizedBy[j]];
      after := Add(after, finalizedBy[j], 1);
      j := j + 1;
    }
    assert finalizedBy[..j] == finalizedBy;
  }

  method BuildValidatorFinality(blocks: seq<Block>, validators: seq<Validator>) returns (r: FinalityReport)
    ensures r.activeValidatorCount == |ActiveIds(validators)|
    ensures r.requiredFinalityVotes == PoaThreshold(|ActiveIds(validators)|)
    ensures r.blockCount == |blocks| && r.transactionCount == Transactions(blocks)
    ensures r.blocksBelowThreshold == Below(blocks, r.requiredFinalityVotes)
    ensures r.finalizedBlockCount + r.blocksBelowThreshold == |blocks|
    ensures |r.rows| == |validators|
    ensures forall i | 0 <= i < |validators| ::
              r.rows[i] == ValidatorRow(validators[i].id, validators[i].active,
                                        Produced(blocks, validators[i].id), Voted(blocks, validators[i].id))
  {
    var active := |ActiveIds(validators)|;
    var required := RequiredFinalityVotes(active);
    var produced: map<ValidatorId, int>, votes: map<ValidatorId, int> := map[], map[];
    var transactions, finalized, below := 0, 0, 0;
    var i := 0;
    while i < |blocks|
      invariant 0 <= i <= |blocks|
      invariant forall v :: Get(produced, v) == Produced(blocks[..i], v)
      invariant forall v :: Get(votes, v) == Voted(blocks[..i], v)
      invariant transactions == Transactions(blocks[..i])
      invariant below == Below(blocks[..i], required) && finalized + below == i
    {
      var block := blocks[i];
      assert blocks[..i + 1] == blocks[..i] + [block];
      CountsSnoc(blocks[..i], block, required);
      transactions := transactions + |block.txs|;
      produced := Add(produced, block.validator, 1);
      votes := CountVotes(votes, block.finalizedBy);
      if |block.finalizedBy| >= required {
        finalized := finalized + 1;
      } else {
        below := below + 1;
      }
      i := i + 1;
    }
    assert blocks[..i] == blocks;
    var rows := seq(|validators|, k requires 0 <= k < |validators| =>
                      ValidatorRow(validators[k].id, validators[k].active, Get(produced, validators[k].id), Get(votes, validators[k].id)));
    r := FinalityReport(active, required, |blocks|, transactions, finalized, below, rows);
  }

  lemma CountsSnoc(blocks: seq<Block>, b: Block, required: nat)
    ensures forall v :: Produced(blocks + [b], v) == Produced(blocks, v) + (if b.validator == v then 1 else 0)
    ensures forall v :: Voted(blocks + [b], v) == Voted(blocks, v) + multiset(b.finalizedBy)[v]
    ensures Below(blocks + [b], required) == Below(blocks, required) + (if |b.finalizedBy| >= required then 0 else 1)
    ensures Transactions(blocks + [b]) == Transactions(blocks) + |b.txs|
  {
    assert (blocks + [b])[..|blocks + [b]| - 1] == blocks;
  }

  // ---- What the report says about a whole chain ----

  /** Every block carries exactly its height's vote window, as both builders make it. */
  ghost predicate Windowed(e: Engine, blocks: seq<Block>) {
    forall b | b in blocks :: e.FinalityVotesForBlock(b.height) == Ok(b.finalizedBy)
  }

  lemma VotesInBlock(e: Engine, b: Block, v: ValidatorId)
    requires e.Configured() && b.height >= 1 && e.FinalityVotesForBlock(b.height) == Ok(b.finalizedBy)
    ensures multiset(b.finalizedBy)[v] == if VotesAt(e, v, b.height) then 1 else 0
  {
    VoteWindow(e, b.height);
    DistinctCount(b.finalizedBy, v);
  }

  lemma {:induction false} DistinctCount(s: seq<ValidatorId>, v: ValidatorId)
    requires Distinct(s)
    ensures multiset(s)[v] == if v in s then 1 else 0
    decreases |s|
  {
    if s != [] {
      var front, x := s[..|s| - 1], s[|s| - 1];
      assert s == front + [x];
      DistinctCount(front, v);
      assert forall i | 0 <= i < |front| :: front[i] == s[i] != x;
    }
  }

  lemma ProducedSnoc(e: Engine, crypto: Crypto, chain: seq<Block>, n: nat, v: ValidatorId)
    requires GoodChain(e, crypto, chain) && |chain| == n + 1
    ensures Produced(chain, v) == Produced(chain[..n], v) + (if LeadsAt(e, v, n + 1) then 1 else 0)
    ensures GoodChain(e, crypto, chain[..n])
  {
    LinkedPrefix(chain, n);
    assert LinkAt(chain, n) && Endorsed(e, crypto, chain[n]);
    CountsSnoc(chain[..n], chain[n], 0);
    assert chain[..n] + [chain[n]] == chain;
  }

  lemma {:induction false} ProducedByTurn(e: Engine, crypto: Crypto, chain: seq<Block>, v: ValidatorId)
    requires GoodChain(e, crypto, chain)
    ensures Produced(chain, v) == CountHeights(h => LeadsAt(e, v, h), 1, 1 + |chain|)
    decreases |chain|
  {
    if chain != [] {
      ProducedSnoc(e, crypto, chain, |chain| - 1, v);
      ProducedByTurn(e, crypto, chain[..|chain| - 1], v);
    }
  }

  lemma VotedSnoc(e: Engine, chain: seq<Block>, n: nat, v: ValidatorId)
    requires e.Configured() && Linked(chain) && Windowed(e, chain) && |chain| == n + 1
    ensures Voted(chain, v) == Voted(chain[..n], v) + (if VotesAt(e, v, n + 1) then 1 else 0)
    ensures Linked(chain[..n]) && Windowed(e, chain[..n])
  {
    LinkedPrefix(chain, n);
    assert LinkAt(chain, n) && chain[n] in chain;
    VotesInBlock(e, chain[n], v);
    CountsSnoc(chain[..n], chain[n], 0);
    assert chain[..n] + [chain[n]] == chain;
    assert forall b | b in chain[..n] :: b in chain;
  }

  lemma {:induction false} VotedByTurn(e: Engine, chain: seq<Block>, v: ValidatorId)
    requires e.Configured() && Linked(chain) && Windowed(e, chain)
    ensures Voted(chain, v) == CountHeights(h => VotesAt(e, v, h), 1, 1 + |chain|)
    decreases |chain|
  {
    if chain != [] {
      VotedSnoc(e, chain, |chain| - 1, v);
      VotedByTurn(e, chain[..|chain| - 1], v);
    }
  }

  lemma {:induction false} NoneBelow(blocks: seq<Block>, required: nat)
    requires forall b | b in blocks :: |b.finalizedBy| >= required
    ensures Below(blocks, required) == 0
    decreases |blocks|
  {
    if blocks != [] {
      NoneBelow(blocks[..|blocks| - 1], required);
    }
  }

  /**
    The finality report over a whole good chain, its blocks in any order: active validators' produced
    counts differ by at most one, and no block is below the threshold.
   */
  lemma ProductionIsFair(e: Engine, crypto: Crypto, chain: seq<Block>, blocks: seq<Block>, v: ValidatorId)
    requires e.Configured() && GoodChain(e, crypto, chain) && multiset(blocks) == multiset(chain) && v in e.Active()
    ensures var q := |chain| / |e.Active()|; q <= Produced(blocks, v) <= q + 1
    ensures Below(blocks, PoaThreshold(|e.Active()|)) == 0
  {
    SumByPermuted((b: Block) => if b.validator == v then 1 else 0, blocks, chain);
    ProducedByTurn(e, crypto, chain, v);
    SharesUpTo(e, v, |chain|);
    ThresholdsDiffer(|e.Active()|);
    forall b | b in blocks ensures |b.finalizedBy| >= PoaThreshold(|e.Active()|) {
      assert b in multiset(chain);
      assert Endorsed(e, crypto, b);
    }
    NoneBelow(blocks, PoaThreshold(|e.Active()|));
  }

  /** When every block carries its window, active validators' vote counts lie within one threshold of each other. */
  lemma VotingIsFair(e: Engine, chain: seq<Block>, blocks: seq<Block>, v: ValidatorId)
    requires e.Configured() && Linked(chain) && Windowed(e, chain) && multiset(blocks) == multiset(chain) && v in e.Active()
    ensures var q, t := |chain| / |e.Active()|, e.Threshold(); q * t <= Voted(blocks, v) <= q * t + t
  {
    SumByPermuted((b: Block) => multiset(b.finalizedBy)[v], blocks, chain);
    VotedByTurn(e, chain, v);
    SharesUpTo(e, v, |chain|);
  }
}

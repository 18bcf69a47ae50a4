/**
  One validator pass as an atomic function on the store
  (crates/kani-node/src/lib.rs:819-946): what it selects, rejects, finalizes and leaves alone.
 */
module Passes {
  import opened Wrappers
  import opened Types
  import opened Ledgers
  import opened LedgerCore
  import opened Books
  import opened Store
  import opened Reload
  import opened Merging
  import opened Consensus
  import opened Blocks
  import opened Selection
  import opened Protocol
  import Text

  /** The text a rejected transaction carries: the error as displayed. */
  function Describe(e: LedgerError): string {
    match e
    case UnknownAccount(a) => "account " + a + " does not exist"
    case UnknownPayment(p) => "payment " + Text.PrintNat(p) + " does not exist"
    case UnknownComplianceCase(k) => "compliance case " + Text.PrintNat(k) + " does not exist"
    case TerminalComplianceCase(k, _) => "compliance case " + Text.PrintNat(k) + " is already terminal"
    case MissingAsset => "asset code is required"
    case InvalidAmount => "amount must be positive"
    case InvalidNonce => "transaction nonce must be greater than the last finalized nonce"
    case InsufficientFunds(a, asset, available, required) =>
      "account " + a + " has insufficient " + asset + ": available " + Text.PrintInt(available)
      + ", required " + Text.PrintInt(required)
    case MintRequiresTreasury => "mint transactions must originate from a treasury account"
    case BurnRequiresTreasury => "burn transactions must settle to a treasury account"
    case InvalidBlockHeight(x, y) => "block height mismatch: expected " + Text.PrintInt(x) + ", got " + Text.PrintInt(y)
    case InvalidPrevHash(x, y) => "block prev_hash mismatch: expected " + x + ", got " + y
    case MissingBlockHash => "block hash is required before finalization"
  }

  datatype Filtered = Filtered(tables: Tables, accepted: seq<Transaction>)

  /** The selection loop with its effect on the table: each failing transaction is rejected as it is met. */
  function FilterAll(t: Tables, l: Ledger, accepted: seq<Transaction>, rest: seq<Transaction>): Filtered
    decreases |rest|
  {
    if rest == [] then Filtered(t, accepted)
    else
      var verdict := l.DryRun(accepted + [rest[0]]);
      if verdict.Ok? then FilterAll(t, l, accepted + [rest[0]], rest[1..])
      else FilterAll(t.(rows := RejectRow(t.rows, rest[0].id, Describe(verdict.error))), l, accepted, rest[1..])
  }

  datatype PassResult = PassResult(tables: Tables, block: Option<Block>)

  /** `run_once`, uninterrupted. */
  function Pass(c: Config, t: Tables, v: ValidatorId, now: int): PassResult {
    var l := Load(t);
    var page := PendingPage(t.rows, c.maxTransactions);
    if c.engine.LeaderForHeight(l.NextHeight()) != Ok(v) || page == [] then PassResult(t, None)
    else
      var f := FilterAll(t, l, [], page);
      if f.accepted == [] then PassResult(f.tables, None)
      else
        var built := BuildBlockForValidator(l, f.accepted, c.engine, c.crypto, v, now);
        if built.Err? || ApplyBlock(l, built.value).Err? then PassResult(f.tables, None)
        else PassResult(Merge(f.tables, ApplyBlock(l, built.value).value), Some(built.value))
  }

  // ---- The loop ----

  /** The loop accepts exactly what revalidation accepts. */
  lemma {:induction false} FilterIsRevalidation(t: Tables, l: Ledger, done: seq<Transaction>, rest: seq<Transaction>)
    ensures FilterAll(t, l, Revalidated(l, done).accepted, rest).accepted == Revalidated(l, done + rest).accepted
    decreases |rest|
  {
    if rest == [] {
      assert done + rest == done;
    } else {
      var more := done + [rest[0]];
      assert more[..|more| - 1] == done;
      assert done + rest == more + rest[1..];
      var accepted := Revalidated(l, done).accepted;
      var verdict := l.DryRun(accepted + [rest[0]]);
      FilterIsRevalidation(if verdict.Ok? then t else t.(rows := RejectRow(t.rows, rest[0].id, Describe(verdict.error))),
                           l, more, rest[1..]);
    }
  }

  /** After the loop: rows of accepted transactions still wait, rows of the others on the page are rejected, no other row moved. */
  ghost predicate FilterEffect(before: seq<Row>, after: seq<Row>, accepted: seq<Transaction>, page: seq<Transaction>) {
    && |after| == |before|
    && forall i | 0 <= i < |before| ::
         && after[i].tx == before[i].tx
         && (before[i].tx in page && before[i].tx !in accepted ==> after[i].status.Rejected?)
         && (before[i].tx !in page || before[i].tx in accepted ==> after[i] == before[i])
  }

  lemma {:induction false} FilterKeepsStore(c: Config, t: Tables, process: Process)
    requires ConfigOk(c) && StoreInv(c.engine, c.crypto, c.genesis, t)
    requires process.phase.Filtering? && PhaseInv(c, t, process)
    ensures var Filtering(l, accepted, rest) := process.phase;
            var f := FilterAll(t, l, accepted, rest);
            && StoreInv(c.engine, c.crypto, c.genesis, f.tables) && Chain(f.tables) == Chain(t)
            && PhaseInv(c, f.tables, process.(phase := Filtering(l, f.accepted, [])))
            && f.tables.cases == t.cases
    decreases |process.phase.rest|
  {
    var Filtering(l, accepted, rest) := process.phase;
    if rest == [] {
      assert accepted + [] == accepted;
    } else {
      var verdict := l.DryRun(accepted + [rest[0]]);
      var reason := if verdict.Ok? then "" else Describe(verdict.error);
      var (phase, after) := Judged(t, l, accepted, rest, reason);
      JudgedInv(c, t, process, reason);
      FilterKeepsStore(c, after, process.(phase := phase));
    }
  }

  lemma {:induction false} FilterKeepsAccepted(t: Tables, l: Ledger, accepted: seq<Transaction>, rest: seq<Transaction>)
    ensures var f := FilterAll(t, l, accepted, rest);
            accepted <= f.accepted && forall x | x in f.accepted :: x in accepted || x in rest
    decreases |rest|
  {
    if rest != [] {
      var verdict := l.DryRun(accepted + [rest[0]]);
      if verdict.Ok? {
        FilterKeepsAccepted(t, l, accepted + [rest[0]], rest[1..]);
      } else {
        FilterKeepsAccepted(t.(rows := RejectRow(t.rows, rest[0].id, Describe(verdict.error))), l, accepted, rest[1..]);
      }
    }
  }

  lemma RejectOneEffect(rows: seq<Row>, tx: Transaction, reason: string)
    requires UniqueIds(rows) && Queued(rows, tx)
    ensures FilterEffect(rows, RejectRow(rows, tx.id, reason), [], [tx])
    ensures UniqueIds(RejectRow(rows, tx.id, reason))
  {
    var i :| 0 <= i < |rows| && rows[i].tx == tx && rows[i].status.Pending?;
  }

  lemma FilterEffectComposes(a: seq<Row>, b: seq<Row>, d: seq<Row>, tx: Transaction, accepted: seq<Transaction>, rest: seq<Transaction>)
    requires FilterEffect(a, b, [], [tx]) && FilterEffect(b, d, accepted, rest) && tx !in accepted && tx !in rest
    ensures FilterEffect(a, d, accepted, [tx] + rest)
  {
    forall i | 0 <= i < |a|
      ensures && d[i].tx == a[i].tx
              && (a[i].tx in [tx] + rest && a[i].tx !in accepted ==> d[i].status.Rejected?)
              && (a[i].tx !in [tx] + rest || a[i].tx in accepted ==> d[i] == a[i])
    {
      assert b[i].tx == a[i].tx;
    }
  }

  lemma {:induction false} FilterRows(t: Tables, l: Ledger, accepted: seq<Transaction>, rest: seq<Transaction>)
    requires UniqueIds(t.rows) && Ordered(accepted + rest) && forall x | x in rest :: Queued(t.rows, x)
    ensures FilterEffect(t.rows, FilterAll(t, l, accepted, rest).tables.rows, FilterAll(t, l, accepted, rest).accepted, rest)
    decreases |rest|
  {
    if rest != [] {
      var tx := rest[0];
      var verdict := l.DryRun(accepted + [tx]);
      assert rest == [tx] + rest[1..];
      assert accepted + rest == accepted + [tx] + rest[1..];
      if verdict.Ok? {
        FilterRows(t, l, accepted + [tx], rest[1..]);
        FilterKeepsAccepted(t, l, accepted + [tx], rest[1..]);
        var f := FilterAll(t, l, accepted + [tx], rest[1..]);
        assert (accepted + [tx])[|accepted|] == tx && tx in f.accepted;
      } else {
        var after := t.(rows := RejectRow(t.rows, tx.id, Describe(verdict.error)));
        RejectOneEffect(t.rows, tx, Describe(verdict.error));
        DropOne(accepted, tx, rest[1..]);
        forall x | x in rest[1..] ensures Queued(after.rows, x) {
          assert x in accepted + rest[1..];
          QueuedIdsDiffer(t.rows, x, tx);
          MoveKeepsQueue(t.rows, tx.id, Pending, Rejected, Some(Describe(verdict.error)), x);
        }
        FilterRows(after, l, accepted, rest[1..]);
        FilterKeepsAccepted(after, l, accepted, rest[1..]);
        var f := FilterAll(after, l, accepted, rest[1..]);
        assert forall x | x in f.accepted || x in rest[1..] :: x in accepted + rest[1..];
        assert tx !in f.accepted && tx !in rest[1..];
        FilterEffectComposes(t.rows, after.rows, f.tables.rows, tx, f.accepted, rest[1..]);
      }
    }
  }

  // ---- A whole pass ----

  predicate LeadsStore(c: Config, t: Tables, v: ValidatorId) {
    c.engine.LeaderForHeight(Load(t).NextHeight()) == Ok(v)
  }

  /** The transactions a pass by the leader would accept, and the page it looks at. */
  function Selected(c: Config, t: Tables): seq<Transaction> {
    Revalidated(Load(t), PendingPage(t.rows, c.maxTransactions)).accepted
  }

  /** What the filtering loop of a leader's pass has done when it ends. */
  lemma {:induction false} PassFilterStore(c: Config, t: Tables, v: ValidatorId)
    requires ConfigOk(c) && StoreInv(c.engine, c.crypto, c.genesis, t) && LeadsStore(c, t, v)
    ensures var l, page := Load(t), PendingPage(t.rows, c.maxTransactions);
            var f := FilterAll(t, l, [], page);
            && StoreInv(c.engine, c.crypto, c.genesis, f.tables) && Chain(f.tables) == Chain(t)
            && Current(f.tables, l) && l.DryRun(f.accepted).Ok? && Ordered(f.accepted)
            && (forall x | x in f.accepted :: Queued(f.tables.rows, x))
  {
    var l, page := Load(t), PendingPage(t.rows, c.maxTransactions);
    LoadIsCurrent(t);
    PageIsQueued(t.rows, c.maxTransactions);
    assert [] + page == page;
    FilterKeepsStore(c, t, Process(v, Filtering(l, [], page)));
    var f := FilterAll(t, l, [], page);
    assert f.accepted + [] == f.accepted;
  }

  lemma {:induction false} PassFilter(c: Config, t: Tables, v: ValidatorId)
    requires ConfigOk(c) && StoreInv(c.engine, c.crypto, c.genesis, t) && LeadsStore(c, t, v)
    ensures var l, page := Load(t), PendingPage(t.rows, c.maxTransactions);
            var f := FilterAll(t, l, [], page);
            && f.accepted == Selected(c, t)
            && StoreInv(c.engine, c.crypto, c.genesis, f.tables) && Chain(f.tables) == Chain(t)
            && FilterEffect(t.rows, f.tables.rows, f.accepted, page)
            && Current(f.tables, l) && l.DryRun(f.accepted).Ok? && Ordered(f.accepted)
            && (forall x | x in f.accepted :: Queued(f.tables.rows, x) && x in page)
  {
    var l, page := Load(t), PendingPage(t.rows, c.maxTransactions);
    PageIsQueued(t.rows, c.maxTransactions);
    assert [] + page == page;
    PassFilterStore(c, t, v);
    FilterIsRevalidation(t, l, [], page);
    FilterRows(t, l, [], page);
    FilterKeepsAccepted(t, l, [], page);
  }

  /** A pass that selects something always ends in a saved block of exactly the selected transactions. */
  lemma {:induction false} PassFinalizes(c: Config, t: Tables, v: ValidatorId, now: int)
    requires ConfigOk(c) && StoreInv(c.engine, c.crypto, c.genesis, t) && LeadsStore(c, t, v)
    requires Selected(c, t) != []
    ensures var f := FilterAll(t, Load(t), [], PendingPage(t.rows, c.maxTransactions));
            var r := Pass(c, t, v, now);
            && r.block.Some? && r.block.value.txs == Selected(c, t) && r.block.value.validator == v
            && BuildBlockForValidator(Load(t), Selected(c, t), c.engine, c.crypto, v, now) == Ok(r.block.value)
            && Ready(c.engine, c.crypto, f.tables, Load(t), r.block.value)
            && r.tables == Merge(f.tables, ApplyBlock(Load(t), r.block.value).value)
  {
    PassFilter(c, t, v);
    BuildingCannotFail(Load(t), Selected(c, t), c.engine, c.crypto, v, now);
  }

  /**
    A pass takes the oldest first: whatever waits and is neither selected for the block nor rejected by the
    filter is younger than every transaction of its page, and the page was full.
   */
  lemma {:induction false} PassTakesOldest(c: Config, t: Tables, v: ValidatorId, x: Transaction)
    requires ConfigOk(c) && StoreInv(c.engine, c.crypto, c.genesis, t) && LeadsStore(c, t, v)
    requires Queued(t.rows, x) && x !in Selected(c, t)
    requires Queued(FilterAll(t, Load(t), [], PendingPage(t.rows, c.maxTransactions)).tables.rows, x)
    ensures |PendingPage(t.rows, c.maxTransactions)| == c.maxTransactions < PendingRows(t.rows)
    ensures forall y | y in PendingPage(t.rows, c.maxTransactions) :: Older(y, x)
  {
    var page := PendingPage(t.rows, c.maxTransactions);
    var after := FilterAll(t, Load(t), [], page).tables.rows;
    PageIsOldest(t.rows, c.maxTransactions);
    assert FilterEffect(t.rows, after, Selected(c, t), page) by {
      PassFilter(c, t, v);
    }
    LeftAlone(t.rows, after, Selected(c, t), page, x);
    PendingCounted(t.rows);
    PendingMember(t.rows, x);
  }

  lemma LeftAlone(before: seq<Row>, after: seq<Row>, accepted: seq<Transaction>, page: seq<Transaction>, x: Transaction)
    requires FilterEffect(before, after, accepted, page) && Queued(after, x) && x !in accepted
    ensures x !in page
  {
    var i :| 0 <= i < |after| && after[i].tx == x && after[i].status.Pending?;
    assert before[i].tx == x;
  }

  /** A pass keeps the store's invariant and either leaves the chain alone or appends the block it returns. */
  lemma PassKeepsStore(c: Config, t: Tables, v: ValidatorId, now: int)
    requires ConfigOk(c) && StoreInv(c.engine, c.crypto, c.genesis, t)
    ensures var r := Pass(c, t, v, now);
            && StoreInv(c.engine, c.crypto, c.genesis, r.tables)
            && Chain(r.tables) == Chain(t) + (if r.block.Some? then [r.block.value] else [])
  {
    var r := Pass(c, t, v, now);
    assert Chain(t) + [] == Chain(t);
    if LeadsStore(c, t, v) && PendingPage(t.rows, c.maxTransactions) != [] {
      PassFilter(c, t, v);
      if Selected(c, t) != [] {
        PassFinalizes(c, t, v, now);
        var f := FilterAll(t, Load(t), [], PendingPage(t.rows, c.maxTransactions));
        MergeKeepsStore(c.engine, c.crypto, c.genesis, f.tables, Load(t), r.block.value);
        MergeExtendsChain(c.engine, c.crypto, f.tables, Load(t), r.block.value);
      }
    }
  }
}

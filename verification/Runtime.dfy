/**
  The validator runtime and the sweep in the source's own imperative form
  (crates/kani-node/src/lib.rs:819-946; crates/kani-node/src/main.rs:74-94), proved equal to the
  functions whose safety and progress Passes and Drain establish.
 */
module Runtime {
  import opened Wrappers
  import opened Types
  import opened Ledgers
  import opened Store
  import opened Reload
  import opened Merging
  import opened Consensus
  import opened Blocks
  import opened Selection
  import opened Protocol
  import opened Safety
  import opened Passes
  import opened Drain
  import opened Uninterrupted
  import C = LedgerCore
  import IM = InMemory

  /** Iterating a hash map: each entry once, in no particular order. */
  method Entries<K(==), V>(m: map<K, V>) returns (pairs: seq<(K, V)>)
    ensures Lists(pairs, m)
  {
    pairs := [];
    var left := m.Keys;
    while left != {}
      invariant left <= m.Keys
      invariant forall i | 0 <= i < |pairs| :: pairs[i].0 in m && pairs[i].0 !in left && pairs[i].1 == m[pairs[i].0]
      invariant forall i, j | 0 <= i < j < |pairs| :: pairs[i].0 != pairs[j].0
      invariant forall k | k in m && k !in left :: exists i :: 0 <= i < |pairs| && pairs[i].0 == k
      decreases left
    {
      var k :| k in left;
      ghost var before := pairs;
      pairs := pairs + [(k, m[k])];
      left := left - {k};
      forall j | j in m && j !in left ensures exists i :: 0 <= i < |pairs| && pairs[i].0 == j {
        if j == k {
          assert pairs[|before|].0 == j;
        } else {
          var i :| 0 <= i < |before| && before[i].0 == j;
          assert pairs[i].0 == j;
        }
      }
    }
  }

  /** `snapshot()` */
  method TakeSnapshot(ledger: IM.InMemoryLedger) returns (s: Snapshot)
    requires WellKeyed(ledger.Value())
    ensures IsSnapshot(s, ledger.Value())
  {
    var accounts := Entries(ledger.accounts);
    var balances := Entries(ledger.balances);
    var payments := Entries(ledger.payments);
    var cases := Entries(ledger.complianceCases);
    s := Snapshot(
      seq(|accounts|, i requires 0 <= i < |accounts| => accounts[i].1), balances,
      seq(|payments|, i requires 0 <= i < |payments| => payments[i].1),
      seq(|cases|, i requires 0 <= i < |cases| => cases[i].1),
      ledger.blocks, ledger.journalEntries, ledger.nonces, ledger.issued);
    assert AccountPairs(s.accounts) == accounts;
    assert PaymentPairs(s.payments) == payments;
    assert CasePairs(s.cases) == cases;
  }

  lemma {:induction false} PaymentsCollect(rows: seq<Row>, headers: seq<Block>, payments: seq<PaymentRecord>)
    requires |payments| == |rows| && forall i | 0 <= i < |rows| :: payments[i] == PaymentOf(rows[i], headers)
    ensures Collect(PaymentPairs(payments)) == PaymentsOf(rows, headers)
    decreases |rows|
  {
    if rows != [] {
      var front := payments[..|payments| - 1];
      PaymentsCollect(rows[..|rows| - 1], headers, front);
      assert PaymentPairs(payments)[..|payments| - 1] == PaymentPairs(front);
    }
  }

  /** Each stored header with the transactions its height collected. */
  method AssembleBlocks(t: Tables, byHeight: map<int, seq<Transaction>>) returns (blocks: seq<Block>)
    requires GroupsByHeight(t.rows, byHeight)
    ensures blocks == Chain(t)
  {
    blocks := [];
    var i := 0;
    while i < |t.headers|
      invariant 0 <= i <= |t.headers| && blocks == Chain(t)[..i]
    {
      var h := t.headers[i];
      blocks := blocks + [h.(txs := if h.height in byHeight then byHeight[h.height] else [])];
      i := i + 1;
    }
    assert Chain(t)[..i] == Chain(t);
  }

  /** Rejecting takes exactly the transactions with that id off the queue. */
  lemma RejectedLeavesQueue(rows: seq<Row>, id: Uuid, reason: string, tx: Transaction)
    ensures Queued(RejectRow(rows, id, reason), tx) <==> Queued(rows, tx) && tx.id != id
  {
    var after := RejectRow(rows, id, reason);
    if Queued(rows, tx) && tx.id != id {
      MoveKeepsQueue(rows, id, Pending, Rejected, Some(reason), tx);
    }
    if Queued(after, tx) {
      var i :| 0 <= i < |after| && after[i].tx == tx && after[i].status.Pending?;
      assert rows[i] == after[i];
    }
  }

  class LedgerStore {
    var tables: Tables

    constructor (t: Tables)
      ensures tables == t
    {
      tables := t;
    }

    method PendingTransactions(limit: nat) returns (page: seq<Transaction>)
      ensures page == PendingPage(tables.rows, limit)
      ensures OrderedRows(tables.rows) ==>
                && |page| == (if limit < PendingRows(tables.rows) then limit else PendingRows(tables.rows))
                && (forall x | x in page :: Queued(tables.rows, x))
                && (forall x, y | Queued(tables.rows, x) && x !in page && y in page :: Older(y, x))
    {
      page := PendingPage(tables.rows, limit);
      assert OrderedRows(tables.rows) ==>
               && |page| == (if limit < PendingRows(tables.rows) then limit else PendingRows(tables.rows))
               && (forall x | x in page :: Queued(tables.rows, x))
               && (forall x, y | Queued(tables.rows, x) && x !in page && y in page :: Older(y, x)) by {
        if OrderedRows(tables.rows) {
          PageIsOldest(tables.rows, limit);
        }
      }
    }

    /** Of the row with that id only, and only while it is PENDING, status and reason change; everything else stays. */
    method RejectTransaction(id: Uuid, reason: string)
      modifies this
      ensures tables == old(tables).(rows := RejectRow(old(tables.rows), id, reason))
      ensures tables == old(tables).(rows := tables.rows) && |tables.rows| == |old(tables.rows)|
      ensures forall i | 0 <= i < |tables.rows| ::
                var before, after := old(tables.rows)[i], tables.rows[i];
                if before.tx.id == id && before.status.Pending?
                then after.status.Rejected? && after.failureReason == Some(reason) && SameIdentity(before, after)
                     && after.blockHeight == before.blockHeight
                else after == before
      ensures forall tx :: Queued(tables.rows, tx) <==> Queued(old(tables.rows), tx) && tx.id != id
    {
      ghost var before := tables.rows;
      tables := tables.(rows := RejectRow(tables.rows, id, reason));
      forall tx ensures Queued(tables.rows, tx) <==> Queued(before, tx) && tx.id != id {
        RejectedLeavesQueue(before, id, reason, tx);
      }
    }

    /** `from_snapshot(load_snapshot())`: one scan of the transaction table feeds payments, nonces, issued supply and blocks. */
    method LoadLedger() returns (ledger: IM.InMemoryLedger)
      ensures fresh(ledger) && ledger.Value() == Load(tables)
    {
      var payments, nonces, issued, byHeight := LoadPayments(tables.rows, tables.headers);
      PaymentsCollect(tables.rows, tables.headers, payments);
      var blocks := AssembleBlocks(tables, byHeight);
      ledger := new IM.InMemoryLedger.FromValue(
        Ledger(tables.accounts, C.Working(tables.balances, nonces, issued, tables.journal),
               Collect(PaymentPairs(payments)), tables.cases, blocks));
    }

    /** `save_snapshot`: one upsert per block, payment and journal entry. */
    method SaveSnapshot(s: Snapshot)
      modifies this
      ensures tables == Save(old(tables), s)
    {
      var headers, rows, journal := tables.headers, tables.rows, tables.journal;
      var i := 0;
      while i < |s.blocks|
        invariant 0 <= i <= |s.blocks| && headers == InsertHeaders(tables.headers, s.blocks[..i])
      {
        assert s.blocks[..i + 1][..i] == s.blocks[..i];
        headers := InsertHeader(headers, s.blocks[i]);
        i := i + 1;
      }
      assert s.blocks[..i] == s.blocks;
      i := 0;
      while i < |s.payments|
        invariant 0 <= i <= |s.payments| && rows == UpsertRows(tables.rows, s.payments[..i])
      {
        assert s.payments[..i + 1][..i] == s.payments[..i];
        rows := UpsertRow(rows, s.payments[i]);
        i := i + 1;
      }
      assert s.payments[..i] == s.payments;
      i := 0;
      while i < |s.journal|
        invariant 0 <= i <= |s.journal| && journal == AppendMissing(tables.journal, s.journal[..i])
      {
        assert s.journal[..i + 1][..i] == s.journal[..i];
        if !HasKey(journal, s.journal[i]) {
          journal := journal + [s.journal[i]];
        }
        i := i + 1;
      }
      assert s.journal[..i] == s.journal;
      tables := Tables(tables.accounts + Collect(AccountPairs(s.accounts)), tables.balances + Collect(s.balances), headers, rows,
                       tables.cases + Collect(CasePairs(s.cases)), journal);
    }
  }

  /** The filter run with its table effect, one transaction further. */
  lemma {:induction false} FilterSnoc(t: Tables, l: Ledger, accepted: seq<Transaction>, done: seq<Transaction>, tx: Transaction)
    ensures var f := FilterAll(t, l, accepted, done);
            var verdict := l.DryRun(f.accepted + [tx]);
            FilterAll(t, l, accepted, done + [tx])
            == if verdict.Ok? then Filtered(f.tables, f.accepted + [tx])
               else Filtered(f.tables.(rows := RejectRow(f.tables.rows, tx.id, Describe(verdict.error))), f.accepted)
    decreases |done|
  {
    if done == [] {
      assert ([] + [tx])[1..] == [] && ([] + [tx])[0] == tx;
    } else {
      var verdict := l.DryRun(accepted + [done[0]]);
      assert (done + [tx])[1..] == done[1..] + [tx];
      if verdict.Ok? {
        FilterSnoc(t, l, accepted + [done[0]], done[1..], tx);
      } else {
        FilterSnoc(t.(rows := RejectRow(t.rows, done[0].id, Describe(verdict.error))), l, accepted, done[1..], tx);
      }
    }
  }

  lemma {:induction false} FilterOneMore(t: Tables, l: Ledger, pending: seq<Transaction>, i: nat)
    requires i < |pending|
    ensures var f := FilterAll(t, l, [], pending[..i]);
            var verdict := l.DryRun(f.accepted + [pending[i]]);
            FilterAll(t, l, [], pending[..i + 1])
            == if verdict.Ok? then Filtered(f.tables, f.accepted + [pending[i]])
               else Filtered(f.tables.(rows := RejectRow(f.tables.rows, pending[i].id, Describe(verdict.error))), f.accepted)
  {
    assert pending[..i + 1] == pending[..i] + [pending[i]];
    FilterSnoc(t, l, [], pending[..i], pending[i]);
  }

  class ValidatorRuntime {
    const store: LedgerStore
    const config: Config
    const validatorId: ValidatorId

    constructor (store: LedgerStore, config: Config, validatorId: ValidatorId)
      ensures this.store == store && this.config == config && this.validatorId == validatorId
    {
      this.store := store;
      this.config := config;
      this.validatorId := validatorId;
    }

    method BuildBlock(ledger: IM.InMemoryLedger, txs: seq<Transaction>, now: int) returns (r: Result<Block, NodeError>)
      ensures r == BuildBlockForValidator(ledger.Value(), txs, config.engine, config.crypto, validatorId, now)
    {
      if txs == [] {
        return Err(EmptyBlock);
      }
      var height := |ledger.blocks| + 1;
      var votes := config.engine.FinalityVotesForBlock(height);
      if votes.Err? {
        return Err(ConsensusFailure(votes.error));
      }
      var required := config.engine.Threshold();
      if |votes.value| < required {
        return Err(InsufficientFinality(|votes.value|, required));
      }
      var block := Sealed(ledger.Value(), txs, config.crypto, validatorId, votes.value, now);
      var verified := VerifyPhase1Block(ledger, block, config.engine, config.crypto);
      if verified.Err? {
        return Err(verified.error);
      }
      return Ok(block);
    }

    /** The loop that grows `accepted`, rejecting in the store what fails. */
    method FilterPending(ledger: IM.InMemoryLedger, pending: seq<Transaction>) returns (accepted: seq<Transaction>)
      modifies store
      ensures ledger.Value() == old(ledger.Value())
      ensures var f := FilterAll(old(store.tables), old(ledger.Value()), [], pending);
              store.tables == f.tables && accepted == f.accepted
    {
      accepted := [];
      ghost var l, t := ledger.Value(), store.tables;
      var i := 0;
      while i < |pending|
        invariant 0 <= i <= |pending| && ledger.Value() == l
        invariant FilterAll(t, l, [], pending[..i]) == Filtered(store.tables, accepted)
      {
        var tx := pending[i];
        FilterOneMore(t, l, pending, i);
        var candidate := accepted + [tx];
        var verdict := ledger.ValidateTransactionsForNextBlock(candidate);
        if verdict.Err? {
          store.RejectTransaction(tx.id, Describe(verdict.error));
        } else {
          accepted := candidate;
        }
        i := i + 1;
      }
      assert pending[..i] == pending;
    }

    /**
      `run_once`, alone with the store: the pass that Passes and Drain reason about. The build, the
      verification and the application of the selected batch cannot fail, so their error branches are dead.
     */
    method RunOnce(now: int) returns (block: Option<Block>)
      requires ConfigOk(config) && StoreInv(config.engine, config.crypto, config.genesis, store.tables)
      requires KeyedTables(store.tables)
      modifies store
      ensures PassResult(store.tables, block) == Pass(config, old(store.tables), validatorId, now)
    {
      var checked := store.LoadLedger();
      var leader := config.engine.LeaderForHeight(|checked.blocks| + 1);
      if leader != Ok(validatorId) {
        return None;
      }
      var ledger := store.LoadLedger();
      ghost var t := store.tables;
      var pending := store.PendingTransactions(config.maxTransactions);
      if pending == [] {
        return None;
      }
      var accepted := FilterPending(ledger, pending);
      PassFilter(config, t, validatorId);
      if accepted == [] {
        return None;
      }
      PassFinalizes(config, t, validatorId, now);
      block := FinalizeSelection(ledger, accepted, now, t);
    }

    /** The rest of the pass once something is selected: build, verify, apply, save. */
    method FinalizeSelection(ledger: IM.InMemoryLedger, accepted: seq<Transaction>, now: int, ghost t: Tables) returns (block: Option<Block>)
      requires KeyedTables(t) && WellFormed(t) && WellFormed(store.tables) && ledger.Value() == Load(t)
      requires var built := BuildBlockForValidator(Load(t), accepted, config.engine, config.crypto, validatorId, now);
               built.Ok? && Ready(config.engine, config.crypto, store.tables, Load(t), built.value)
      modifies store, ledger
      ensures var built := BuildBlockForValidator(Load(t), accepted, config.engine, config.crypto, validatorId, now).value;
              block == Some(built) && store.tables == Merge(old(store.tables), Ledgers.ApplyBlock(Load(t), built).value)
    {
      var built := BuildBlock(ledger, accepted, now);
      if built.Err? {
        assert false;
      }
      SavedIsWellKeyed(t, built.value);
      var applied := ledger.ApplyBlock(built.value);
      if applied.Err? {
        assert false;
      }
      var snapshot := TakeSnapshot(ledger);
      SaveIsMerge(config.engine, config.crypto, store.tables, Load(t), built.value, snapshot);
      store.SaveSnapshot(snapshot);
      return Some(built.value);
    }
  }

  lemma {:induction false} FilterKeepsTables(t: Tables, l: Ledger, accepted: seq<Transaction>, rest: seq<Transaction>)
    ensures var f := FilterAll(t, l, accepted, rest).tables;
            f.cases == t.cases && f.accounts == t.accounts && f.headers == t.headers
    decreases |rest|
  {
    if rest != [] {
      var verdict := l.DryRun(accepted + [rest[0]]);
      if verdict.Ok? {
        FilterKeepsTables(t, l, accepted + [rest[0]], rest[1..]);
      } else {
        FilterKeepsTables(t.(rows := RejectRow(t.rows, rest[0].id, Describe(verdict.error))), l, accepted, rest[1..]);
      }
    }
  }

  lemma MergeKeepsPeople(t: Tables, l: Ledger, b: Block)
    requires ApplyBlock(l, b).Ok? && l.accounts == t.accounts && l.cases == t.cases
    ensures Merge(t, ApplyBlock(l, b).value).accounts == t.accounts
    ensures Merge(t, ApplyBlock(l, b).value).cases == t.cases
  {
    assert ApplyBlock(l, b).value.accounts == t.accounts;
    assert ApplyBlock(l, b).value.cases == t.cases;
  }

  lemma {:induction false} PassTables(c: Config, t: Tables, v: ValidatorId, now: int)
    ensures var f, r := FilterAll(t, Load(t), [], PendingPage(t.rows, c.maxTransactions)).tables, Pass(c, t, v, now).tables;
            r == t || r == f || exists b :: ApplyBlock(Load(t), b).Ok? && r == Merge(f, ApplyBlock(Load(t), b).value)
  {
  }

  lemma PassKeepsKeys(c: Config, t: Tables, v: ValidatorId, now: int)
    requires KeyedTables(t)
    ensures KeyedTables(Pass(c, t, v, now).tables)
  {
    var l, page := Load(t), PendingPage(t.rows, c.maxTransactions);
    var f, r := FilterAll(t, l, [], page).tables, Pass(c, t, v, now).tables;
    FilterKeepsTables(t, l, [], page);
    PassTables(c, t, v, now);
    if r != t && r != f {
      var b :| ApplyBlock(l, b).Ok? && r == Merge(f, ApplyBlock(l, b).value);
      MergeKeepsPeople(f, l, b);
    }
  }

  lemma {:induction false} SweepKeepsKeys(c: Config, t: Tables, ids: seq<ValidatorId>, clock: nat -> int)
    requires KeyedTables(t)
    ensures KeyedTables(Sweep(c, t, ids, clock))
    decreases |ids|
  {
    if ids != [] {
      SweepKeepsKeys(c, t, ids[..|ids| - 1], clock);
      PassKeepsKeys(c, Sweep(c, t, ids[..|ids| - 1], clock), ids[|ids| - 1], clock(|ids| - 1));
    }
  }

  /** Before each turn of the sweep the store is in order. */
  lemma {:induction false} SweepReady(c: Config, t: Tables, ids: seq<ValidatorId>, i: nat, clock: nat -> int)
    requires ConfigOk(c) && StoreInv(c.engine, c.crypto, c.genesis, t) && KeyedTables(t) && i <= |ids|
    ensures var now := Sweep(c, t, ids[..i], clock);
            && StoreInv(c.engine, c.crypto, c.genesis, now) && KeyedTables(now)
            && |Chain(now)| == |Chain(t)| + SweepBlocks(c, t, ids[..i], clock)
  {
    SweepKeepsStore(c, t, ids[..i], clock);
    SweepKeepsKeys(c, t, ids[..i], clock);
  }

  lemma {:induction false} SweepTurn(c: Config, t: Tables, ids: seq<ValidatorId>, i: nat, clock: nat -> int)
    requires i < |ids|
    ensures var pass := Pass(c, Sweep(c, t, ids[..i], clock), ids[i], clock(i));
            && Sweep(c, t, ids[..i + 1], clock) == pass.tables
            && SweepBlocks(c, t, ids[..i + 1], clock) == SweepBlocks(c, t, ids[..i], clock) + (if pass.block.Some? then 1 else 0)
  {
    assert ids[..i + 1][..i] == ids[..i];
  }

  /** `sweep`: every listed validator runs once; the count of finalized blocks is returned. */
  method RunSweep(store: LedgerStore, config: Config, ids: seq<ValidatorId>, clock: nat -> int) returns (finalizedBlocks: nat)
    requires ConfigOk(config) && StoreInv(config.engine, config.crypto, config.genesis, store.tables)
    requires KeyedTables(store.tables)
    modifies store
    ensures store.tables == Sweep(config, old(store.tables), ids, clock)
    ensures finalizedBlocks == SweepBlocks(config, old(store.tables), ids, clock)
    ensures |Chain(store.tables)| == |Chain(old(store.tables))| + finalizedBlocks
  {
    ghost var t := store.tables;
    finalizedBlocks := 0;
    var i := 0;
    while i < |ids|
      invariant 0 <= i <= |ids|
      invariant store.tables == Sweep(config, t, ids[..i], clock)
      invariant finalizedBlocks == SweepBlocks(config, t, ids[..i], clock)
    {
      SweepReady(config, t, ids, i, clock);
      SweepTurn(config, t, ids, i, clock);
      ghost var pass := Pass(config, Sweep(config, t, ids[..i], clock), ids[i], clock(i));
      ghost var next := Sweep(config, t, ids[..i + 1], clock);
      assert next == pass.tables;
      var validator := new ValidatorRuntime(store, config, ids[i]);
      var block := validator.RunOnce(clock(i));
      assert PassResult(store.tables, block) == pass;
      assert store.tables == next;
      if block.Some? {
        finalizedBlocks := finalizedBlocks + 1;
      }
      i := i + 1;
    }
    assert ids[..i] == ids;
    SweepReady(config, t, ids, i, clock);
  }
}

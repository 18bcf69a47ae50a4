/**
  Draining the queue (crates/kani-node/src/main.rs:78-94; README.md:550): every pass by the current
  leader over a non-empty queue shortens it by a known amount, so enough sweeps over all active
  validators empty it.
 */
module Drain {
  import opened Wrappers
  import opened Types
  import opened Ledgers
  import opened LedgerCore
  import opened Store
  import opened Reload
  import opened Merging
  import opened Consensus
  import opened Blocks
  import opened Selection
  import opened Protocol
  import opened Safety
  import opened Passes

  function PendingCount(t: Tables): nat {
    |PendingTxs(t.rows)|
  }

  // ---- Counting ----

  lemma OrderedIsDistinct(txs: seq<Transaction>)
    requires Ordered(txs)
    ensures Distinct(txs)
  {
    forall i, j | 0 <= i < j < |txs| ensures txs[i] != txs[j] {
      assert Before(txs[i], txs[j]);
    }
  }

  /** Taking part of an ordered list away from another shortens it by the length of the part. */
  lemma RemovedCount(all: seq<Transaction>, gone: seq<Transaction>, left: seq<Transaction>)
    requires Distinct(all) && Distinct(gone) && Distinct(left)
    requires forall x | x in gone :: x in all
    requires forall x :: x in left <==> x in all && x !in gone
    ensures |left| == |all| - |gone|
  {
    SetOfSize(all);
    SetOfSize(gone);
    SetOfSize(left);
    assert SetOf(left) == SetOf(all) - SetOf(gone);
    assert SetOf(gone) <= SetOf(all);
  }

  /** A table whose queue is another's minus a list. */
  lemma QueueMinus(before: Tables, after: Tables, gone: seq<Transaction>)
    requires OrderedRows(before.rows) && OrderedRows(after.rows) && Ordered(gone)
    requires forall x | x in gone :: Queued(before.rows, x)
    requires forall x :: Queued(after.rows, x) <==> Queued(before.rows, x) && x !in gone
    ensures PendingCount(after) == PendingCount(before) - |gone|
  {
    PendingOrdered(before.rows);
    PendingOrdered(after.rows);
    OrderedIsDistinct(PendingTxs(before.rows));
    OrderedIsDistinct(PendingTxs(after.rows));
    OrderedIsDistinct(gone);
    forall x ensures (x in PendingTxs(before.rows) <==> Queued(before.rows, x)) && (x in PendingTxs(after.rows) <==> Queued(after.rows, x)) {
      PendingMember(before.rows, x);
      PendingMember(after.rows, x);
    }
    RemovedCount(PendingTxs(before.rows), gone, PendingTxs(after.rows));
  }

  /** A pass that accepts nothing rejects its whole page for good. */
  lemma EmptyPassQueue(c: Config, t: Tables, v: ValidatorId, now: int, x: Transaction)
    requires ConfigOk(c) && StoreInv(c.engine, c.crypto, c.genesis, t) && LeadsStore(c, t, v) && Selected(c, t) == []
    ensures Queued(Pass(c, t, v, now).tables.rows, x)
            <==> Queued(t.rows, x) && x !in PendingPage(t.rows, c.maxTransactions)
  {
    var page := PendingPage(t.rows, c.maxTransactions);
    var after := FilterAll(t, Load(t), [], page).tables.rows;
    assert FilterEffect(t.rows, after, [], page) && Pass(c, t, v, now).tables.rows == after by {
      PassFilter(c, t, v);
    }
    EffectOnQueue(t.rows, after, page, x);
  }

  /** When nothing is accepted, exactly the page leaves the queue. */
  lemma EffectOnQueue(before: seq<Row>, after: seq<Row>, page: seq<Transaction>, x: Transaction)
    requires FilterEffect(before, after, [], page)
    ensures Queued(after, x) <==> Queued(before, x) && x !in page
  {
    if Queued(before, x) && x !in page {
      var i :| 0 <= i < |before| && before[i].tx == x && before[i].status.Pending?;
      assert after[i] == before[i];
    }
    if Queued(after, x) {
      var i :| 0 <= i < |after| && after[i].tx == x && after[i].status.Pending?;
      assert before[i].tx == x;
    }
  }

  /** Row by row, a pass that saves: a row still waits exactly when it waited before and is not in the block. */
  lemma SavingPassRow(c: Config, t: Tables, v: ValidatorId, now: int, i: nat)
    requires ConfigOk(c) && StoreInv(c.engine, c.crypto, c.genesis, t) && LeadsStore(c, t, v) && Selected(c, t) != []
    requires i < |t.rows|
    ensures var after := Pass(c, t, v, now).tables.rows;
            && |after| == |t.rows|
            && after[i].tx == t.rows[i].tx
            && (after[i].status.Pending? <==> t.rows[i].status.Pending? && t.rows[i].tx !in Selected(c, t))
  {
    PassFilter(c, t, v);
    PassFinalizes(c, t, v, now);
    var l := Load(t);
    var f := FilterAll(t, l, [], PendingPage(t.rows, c.maxTransactions));
    var b := Pass(c, t, v, now).block.value;
    PaymentsOfLookup(t.rows, t.headers);
    assert l.payments[t.rows[i].tx.id] == PaymentOf(t.rows[i], t.headers);
    assert f.tables.rows[i].tx == t.rows[i].tx;
    MergedRow(c.engine, c.crypto, f.tables, l, b, i);
    if t.rows[i].tx in b.txs {
      assert f.tables.rows[i] == t.rows[i];
    }
  }

  /** A pass that saves a block takes exactly the block out of the queue: what it rejected is PENDING again. */
  lemma SavingPassQueue(c: Config, t: Tables, v: ValidatorId, now: int, x: Transaction)
    requires ConfigOk(c) && StoreInv(c.engine, c.crypto, c.genesis, t) && LeadsStore(c, t, v) && Selected(c, t) != []
    ensures Queued(Pass(c, t, v, now).tables.rows, x) <==> Queued(t.rows, x) && x !in Selected(c, t)
  {
    var after := Pass(c, t, v, now).tables.rows;
    assert |after| == |t.rows| by {
      PassFinalizes(c, t, v, now);
      PassFilter(c, t, v);
    }
    if Queued(after, x) {
      var i: nat :| i < |after| && after[i].tx == x && after[i].status.Pending?;
      SavingPassRow(c, t, v, now, i);
    }
    if Queued(t.rows, x) && x !in Selected(c, t) {
      var i: nat :| i < |t.rows| && t.rows[i].tx == x && t.rows[i].status.Pending?;
      SavingPassRow(c, t, v, now, i);
    }
  }

  /**
    The exact effect of a pass on the queue: nothing when its validator does not lead; the whole page
    goes when nothing on it is valid; otherwise exactly the finalized transactions go, although the
    rejected ones of a mixed pass are written back as PENDING.
   */
  lemma PassShortensQueue(c: Config, t: Tables, v: ValidatorId, now: int)
    requires ConfigOk(c) && StoreInv(c.engine, c.crypto, c.genesis, t)
    ensures PendingCount(Pass(c, t, v, now).tables)
            == PendingCount(t) - (if !LeadsStore(c, t, v) then 0
                                  else if Selected(c, t) == [] then |PendingPage(t.rows, c.maxTransactions)|
                                  else |Selected(c, t)|)
  {
    if LeadsStore(c, t, v) {
      var page := PendingPage(t.rows, c.maxTransactions);
      PassFilter(c, t, v);
      PassKeepsStore(c, t, v, now);
      PageIsQueued(t.rows, c.maxTransactions);
      var after := Pass(c, t, v, now).tables;
      if Selected(c, t) == [] {
        forall x ensures Queued(after.rows, x) <==> Queued(t.rows, x) && x !in page {
          EmptyPassQueue(c, t, v, now, x);
        }
        QueueMinus(t, after, page);
      } else {
        forall x ensures Queued(after.rows, x) <==> Queued(t.rows, x) && x !in Selected(c, t) {
          SavingPassQueue(c, t, v, now, x);
        }
        QueueMinus(t, after, Selected(c, t));
      }
    }
  }

  // ---- Sweeps ----

  /** Each listed validator runs once, in turn; `clock` gives the time of each pass. */
  function Sweep(c: Config, t: Tables, ids: seq<ValidatorId>, clock: nat -> int): Tables {
    if ids == [] then t
    else Pass(c, Sweep(c, t, ids[..|ids| - 1], clock), ids[|ids| - 1], clock(|ids| - 1)).tables
  }

  /** The number of blocks a sweep finalizes: `finalized_blocks`. */
  function SweepBlocks(c: Config, t: Tables, ids: seq<ValidatorId>, clock: nat -> int): nat {
    if ids == [] then 0
    else
      var before := Sweep(c, t, ids[..|ids| - 1], clock);
      SweepBlocks(c, t, ids[..|ids| - 1], clock)
      + (if Pass(c, before, ids[|ids| - 1], clock(|ids| - 1)).block.Some? then 1 else 0)
  }

  lemma {:induction false} SweepKeepsStore(c: Config, t: Tables, ids: seq<ValidatorId>, clock: nat -> int)
    requires ConfigOk(c) && StoreInv(c.engine, c.crypto, c.genesis, t)
    ensures StoreInv(c.engine, c.crypto, c.genesis, Sweep(c, t, ids, clock))
    ensures PendingCount(Sweep(c, t, ids, clock)) <= PendingCount(t)
    ensures Chain(t) <= Chain(Sweep(c, t, ids, clock))
    ensures |Chain(Sweep(c, t, ids, clock))| == |Chain(t)| + SweepBlocks(c, t, ids, clock)
    decreases |ids|
  {
    if ids != [] {
      SweepKeepsStore(c, t, ids[..|ids| - 1], clock);
      var before := Sweep(c, t, ids[..|ids| - 1], clock);
      PassKeepsStore(c, before, ids[|ids| - 1], clock(|ids| - 1));
      PassShortensQueue(c, before, ids[|ids| - 1], clock(|ids| - 1));
    }
  }

  lemma PassWaits(c: Config, t: Tables, v: ValidatorId, now: int)
    requires !LeadsStore(c, t, v)
    ensures Pass(c, t, v, now) == PassResult(t, None)
  {
  }

  /** Until the leader's turn comes, a sweep does nothing at all. */
  lemma {:induction false} SweepWaits(c: Config, t: Tables, ids: seq<ValidatorId>, clock: nat -> int)
    requires forall k | 0 <= k < |ids| :: !LeadsStore(c, t, ids[k])
    ensures Sweep(c, t, ids, clock) == t
    decreases |ids|
  {
    if ids != [] {
      var front := ids[..|ids| - 1];
      assert forall k | 0 <= k < |front| :: front[k] == ids[k];
      SweepWaits(c, t, front, clock);
      PassWaits(c, t, ids[|ids| - 1], clock(|ids| - 1));
    }
  }

  lemma PassNeverLengthens(c: Config, t: Tables, v: ValidatorId, now: int)
    requires ConfigOk(c) && StoreInv(c.engine, c.crypto, c.genesis, t)
    ensures PendingCount(Pass(c, t, v, now).tables) <= PendingCount(t)
  {
    PassShortensQueue(c, t, v, now);
  }

  lemma {:induction false} SweepConcat(c: Config, t: Tables, ids: seq<ValidatorId>, k: nat, clock: nat -> int)
    requires ConfigOk(c) && StoreInv(c.engine, c.crypto, c.genesis, t) && k <= |ids|
    ensures PendingCount(Sweep(c, t, ids, clock)) <= PendingCount(Sweep(c, t, ids[..k], clock))
    ensures SweepBlocks(c, t, ids, clock) >= SweepBlocks(c, t, ids[..k], clock)
    decreases |ids|
  {
    if k == |ids| {
      assert ids[..k] == ids;
    } else {
      var front := ids[..|ids| - 1];
      assert front[..k] == ids[..k];
      SweepConcat(c, t, front, k, clock);
      SweepKeepsStore(c, t, front, clock);
      PassNeverLengthens(c, Sweep(c, t, front, clock), ids[|ids| - 1], clock(|ids| - 1));
    }
  }

  lemma {:induction false} FirstLeader(c: Config, t: Tables, ids: seq<ValidatorId>, v: ValidatorId) returns (k: nat)
    requires v in ids && LeadsStore(c, t, v)
    decreases |ids|
    ensures k < |ids| && LeadsStore(c, t, ids[k]) && forall j | 0 <= j < k :: !LeadsStore(c, t, ids[j])
  {
    if LeadsStore(c, t, ids[0]) {
      k := 0;
    } else {
      var rest := ids[1..];
      var j := FirstLeader(c, t, rest, v);
      k := j + 1;
      assert forall i | 0 < i < k :: ids[i] == rest[i - 1];
    }
  }

  ghost predicate CoversActive(c: Config, ids: seq<ValidatorId>) {
    forall v | v in c.engine.Active() :: v in ids
  }

  /** The leader's turn comes at some position of the sweep, and finds the store as the sweep found it. */
  lemma LeadersTurn(c: Config, t: Tables, ids: seq<ValidatorId>, clock: nat -> int) returns (k: nat)
    requires ConfigOk(c) && CoversActive(c, ids)
    ensures k < |ids| && LeadsStore(c, t, ids[k])
    ensures Sweep(c, t, ids[..k + 1], clock) == Pass(c, t, ids[k], clock(k)).tables
    ensures SweepBlocks(c, t, ids[..k + 1], clock) >= (if Pass(c, t, ids[k], clock(k)).block.Some? then 1 else 0)
  {
    LeaderIsActive(c.engine, Load(t).NextHeight());
    k := FirstLeader(c, t, ids, c.engine.LeaderForHeight(Load(t).NextHeight()).value);
    assert forall j | 0 <= j < k :: ids[..k][j] == ids[j];
    SweepWaits(c, t, ids[..k], clock);
    assert ids[..k + 1][..k] == ids[..k];
  }

  /** A sweep over every active validator shortens a non-empty queue. */
  lemma {:induction false} SweepShortens(c: Config, t: Tables, ids: seq<ValidatorId>, clock: nat -> int)
    requires ConfigOk(c) && StoreInv(c.engine, c.crypto, c.genesis, t) && c.maxTransactions >= 1
    requires CoversActive(c, ids) && PendingCount(t) > 0
    ensures PendingCount(Sweep(c, t, ids, clock)) < PendingCount(t)
  {
    var k := LeadersTurn(c, t, ids, clock);
    PassShortensQueue(c, t, ids[k], clock(k));
    SweepConcat(c, t, ids, k + 1, clock);
  }

  /** A sweep finalizes at least one block when some transaction on the first page is valid by itself. */
  lemma {:induction false} SweepFinalizes(c: Config, t: Tables, ids: seq<ValidatorId>, clock: nat -> int, tx: Transaction)
    requires ConfigOk(c) && StoreInv(c.engine, c.crypto, c.genesis, t)
    requires CoversActive(c, ids)
    requires tx in PendingPage(t.rows, c.maxTransactions) && Load(t).DryRun([tx]).Ok?
    ensures SweepBlocks(c, t, ids, clock) >= 1
    ensures Chain(t) < Chain(Sweep(c, t, ids, clock))
  {
    var k := LeadersTurn(c, t, ids, clock);
    AcceptsSomethingIff(Load(t), PendingPage(t.rows, c.maxTransactions));
    PassFinalizes(c, t, ids[k], clock(k));
    SweepConcat(c, t, ids, k + 1, clock);
    SweepKeepsStore(c, t, ids, clock);
  }

  /** The store after `n` turns of a step. */
  function Iterated(step: Tables -> Tables, t: Tables, n: nat): Tables {
    if n == 0 then t else step(Iterated(step, t, n - 1))
  }

  function SweepStep(c: Config, ids: seq<ValidatorId>, clock: nat -> int): Tables -> Tables {
    m => Sweep(c, m, ids, clock)
  }

  function Sweeps(c: Config, t: Tables, ids: seq<ValidatorId>, clock: nat -> int, n: nat): Tables {
    Iterated(SweepStep(c, ids, clock), t, n)
  }

  /** A queue length after one sweep more. */
  lemma {:induction false} OneMoreSweep(c: Config, t: Tables, ids: seq<ValidatorId>, clock: nat -> int)
    requires ConfigOk(c) && StoreInv(c.engine, c.crypto, c.genesis, t) && c.maxTransactions >= 1
    requires CoversActive(c, ids)
    ensures StoreInv(c.engine, c.crypto, c.genesis, Sweep(c, t, ids, clock))
    ensures PendingCount(Sweep(c, t, ids, clock)) <= (if PendingCount(t) == 0 then 0 else PendingCount(t) - 1)
  {
    SweepKeepsStore(c, t, ids, clock);
    if PendingCount(t) > 0 {
      SweepShortens(c, t, ids, clock);
    }
  }

  /** A step that keeps a store in order and shortens a queue that is not empty. */
  ghost predicate Shortens(step: Tables -> Tables, ok: Tables -> bool, m: Tables) {
    ok(m) ==> ok(step(m)) && PendingCount(step(m)) <= (if PendingCount(m) == 0 then 0 else PendingCount(m) - 1)
  }

  lemma {:induction false} IterationDrains(step: Tables -> Tables, ok: Tables -> bool, t: Tables, n: nat)
    requires ok(t) && forall m :: Shortens(step, ok, m)
    ensures ok(Iterated(step, t, n)) && PendingCount(Iterated(step, t, n)) <= (if n < PendingCount(t) then PendingCount(t) - n else 0)
    decreases n
  {
    if n > 0 {
      IterationDrains(step, ok, t, n - 1);
      assert Shortens(step, ok, Iterated(step, t, n - 1));
    }
  }

  ghost function InOrder(c: Config): Tables -> bool {
    m => StoreInv(c.engine, c.crypto, c.genesis, m)
  }

  lemma {:induction false} SweepStepShortens(c: Config, ids: seq<ValidatorId>, clock: nat -> int, m: Tables)
    requires ConfigOk(c) && c.maxTransactions >= 1 && CoversActive(c, ids)
    ensures Shortens(SweepStep(c, ids, clock), InOrder(c), m)
  {
    if StoreInv(c.engine, c.crypto, c.genesis, m) {
      OneMoreSweep(c, m, ids, clock);
    }
  }

  /** With nothing new arriving, as many sweeps as there are queued transactions empty the queue. */
  lemma {:induction false} QueueDrains(c: Config, t: Tables, ids: seq<ValidatorId>, clock: nat -> int, n: nat)
    requires ConfigOk(c) && StoreInv(c.engine, c.crypto, c.genesis, t) && c.maxTransactions >= 1
    requires CoversActive(c, ids)
    requires n >= PendingCount(t)
    ensures PendingTxs(Sweeps(c, t, ids, clock, n).rows) == []
  {
    forall m ensures Shortens(SweepStep(c, ids, clock), InOrder(c), m) {
      SweepStepShortens(c, ids, clock, m);
    }
    IterationDrains(SweepStep(c, ids, clock), InOrder(c), t, n);
  }
}

/**
  Validator processes and the API working on one store, step by step and in any interleaving
  (crates/kani-node/src/lib.rs:819-946; crates/kani-ledger/src/lib.rs:1109-1174, 1337-1672). A run is
  any list of actions; every reachable state keeps one chain, extended only by its own leaders.
 */
module Protocol {
  import opened Wrappers
  import opened Types
  import opened Ledgers
  import opened LedgerCore
  import opened Books
  import opened Store
  import opened Reload
  import opened Merging
  import opened Consensus
  import opened Blocks
  import opened Compliance
  import Idempotency

  datatype Config = Config(
    engine: Engine, crypto: Crypto, digest: Idempotency.Digest, genesis: Ledger, maxTransactions: nat, policy: Policy)

  /** A genesis ledger has rows and accounts but no money, payments, cases or blocks. */
  ghost predicate GenesisOk(c: Config) {
    && Zero(c.genesis.working)
    && c.genesis.blocks == [] && c.genesis.payments == map[] && c.genesis.cases == map[]
  }

  ghost predicate ConfigOk(c: Config) {
    c.engine.Configured() && HashNonEmpty(c.crypto) && GenesisOk(c)
  }

  /** Where a validator process stands in `run_once`. From Locked on it holds the advisory lock. */
  datatype Phase =
    | Idle
    | Checked
    | Locked
    | Loaded(base: Ledger)
    | Filtering(base: Ledger, accepted: seq<Transaction>, rest: seq<Transaction>)
    | Built(base: Ledger, block: Block)
    | Finishing

  datatype Process = Process(validator: ValidatorId, phase: Phase)

  /** `approved` is history: the payments whose case was approved at some time. */
  datatype State = State(tables: Tables, lock: Option<nat>, processes: map<nat, Process>, approved: set<Uuid>)

  datatype Action =
    | Begin(p: nat)
    | TryLock(p: nat)
    | ReloadLedger(p: nat)
    | ReadPending(p: nat)
    | FilterOne(p: nat, reason: string)
    | Build(p: nat, now: int)
    | SaveBlock(p: nat, snapshot: Snapshot)
    | Release(p: nat)
    | Abort(p: nat)
    | Enqueue(row: Row)
    | HoldRow(row: Row, newCase: ComplianceCase)
    | Resolve(caseId: Uuid, resolution: Resolution, reviewer: Option<string>, why: Option<string>)

  predicate HoldsLock(phase: Phase) {
    !phase.Idle? && !phase.Checked?
  }

  function Move(s: State, p: nat, phase: Phase): State
    requires p in s.processes
  {
    s.(processes := s.processes[p := s.processes[p].(phase := phase)])
  }

  /** The verdict on the next transaction of the page: it joins the selection, or is rejected in the store. */
  function Judged(t: Tables, l: Ledger, accepted: seq<Transaction>, rest: seq<Transaction>, reason: string): (Phase, Tables)
    requires rest != []
  {
    if l.DryRun(accepted + [rest[0]]).Ok? then (Filtering(l, accepted + [rest[0]], rest[1..]), t)
    else (Filtering(l, accepted, rest[1..]), t.(rows := RejectRow(t.rows, rest[0].id, reason)))
  }

  /** Where building what was accepted leads: to a block to save, or to the end of the pass. */
  function BuiltPhase(c: Config, l: Ledger, accepted: seq<Transaction>, v: ValidatorId, now: int): Phase {
    if accepted == [] then Finishing
    else match BuildBlockForValidator(l, accepted, c.engine, c.crypto, v, now)
      case Err(_) => Finishing
      case Ok(block) => Built(l, block)
  }

  /** One step of a validator process; None when the step is not enabled. */
  ghost function ProcessStep(c: Config, s: State, a: Action, p: nat): Option<State> {
    if p !in s.processes then None
    else
      var v := s.processes[p].validator;
      var t := s.tables;
      match (a, s.processes[p].phase)
      case (Begin(_), Idle) =>
        if c.engine.LeaderForHeight(Load(t).NextHeight()) == Ok(v) then Some(Move(s, p, Checked)) else Some(s)
      case (TryLock(_), Checked) =>
        if s.lock.Some? then Some(Move(s, p, Idle)) else Some(Move(s, p, Locked).(lock := Some(p)))
      case (ReloadLedger(_), Locked) =>
        var l := Load(t);
        if c.engine.LeaderForHeight(l.NextHeight()) == Ok(v) then Some(Move(s, p, Loaded(l))) else Some(Move(s, p, Finishing))
      case (ReadPending(_), Loaded(l)) =>
        var page := PendingPage(t.rows, c.maxTransactions);
        if page == [] then Some(Move(s, p, Finishing)) else Some(Move(s, p, Filtering(l, [], page)))
      case (FilterOne(_, reason), Filtering(l, accepted, rest)) =>
        if rest == [] then None
        else
          var (phase, after) := Judged(t, l, accepted, rest, reason);
          Some(Move(s, p, phase).(tables := after))
      case (Build(_, now), Filtering(l, accepted, rest)) =>
        if rest != [] then None else Some(Move(s, p, BuiltPhase(c, l, accepted, v, now)))
      case (SaveBlock(_, snapshot), Built(l, block)) =>
        if ApplyBlock(l, block).Ok? && IsSnapshot(snapshot, ApplyBlock(l, block).value)
        then Some(Move(s, p, Finishing).(tables := Save(t, snapshot)))
        else None
      case (Release(_), Finishing) => Some(Move(s, p, Idle).(lock := None))
      case (Abort(_), phase) => Some(Move(s, p, Idle).(lock := if HoldsLock(phase) then None else s.lock))
      case _ => None
  }

  /** A row is stored under a client reference only with the fingerprint of its own request. */
  predicate Fingerprinted(c: Config, row: Row) {
    row.clientReferenceId.Some? ==>
      row.requestFingerprint.Some? && Idempotency.OwnFingerprint(c.digest, row.tx, row.requestFingerprint)
  }

  /** One step of the API. Inserts that break a table constraint do not happen. */
  ghost function ApiStep(c: Config, s: State, a: Action): Option<State> {
    var t := s.tables;
    match a
    case Enqueue(row) =>
      if Insertable(t, row) && Fingerprinted(c, row) && row.status.Pending? && (row.tx.kind.Transfer? ==> ScreenTx(c.policy, row.tx).Allow?)
      then Some(s.(tables := t.(rows := InsertRow(t.rows, row)))) else None
    case HoldRow(row, newCase) =>
      if && Insertable(t, row) && Fingerprinted(c, row) && row.status.Held? && row.tx.kind.Transfer? && ScreenTx(c.policy, row.tx).Review?
         && newCase.id !in t.cases && newCase.paymentId == row.tx.id && newCase.status.Opened?
      then Some(s.(tables := t.(rows := InsertRow(t.rows, row), cases := t.cases[newCase.id := newCase]))) else None
    case Resolve(caseId, resolution, reviewer, reason) =>
      (match ResolveStored(t, caseId, resolution, reviewer, reason)
       case Err(_) => None
       case Ok(after) =>
         Some(s.(tables := after,
                 approved := if resolution.Approval? then s.approved + {t.cases[caseId].paymentId} else s.approved)))
    case _ => None
  }

  predicate IsApi(a: Action) {
    a.Enqueue? || a.HoldRow? || a.Resolve?
  }

  ghost function StepState(c: Config, s: State, a: Action): Option<State> {
    if IsApi(a) then ApiStep(c, s, a) else ProcessStep(c, s, a, a.p)
  }

  ghost function Execute(c: Config, s: State, actions: seq<Action>): Option<State> {
    if actions == [] then Some(s)
    else
      var before := Execute(c, s, actions[..|actions| - 1]);
      if before.None? then None else StepState(c, before.value, actions[|actions| - 1])
  }

  function StartTables(c: Config): Tables {
    Tables(c.genesis.accounts, c.genesis.working.balances, [], [], map[], [])
  }

  /** Any validator ids, one process or several of each; nothing queued. */
  ghost predicate Initial(c: Config, s: State) {
    && s.tables == StartTables(c)
    && s.lock == None
    && s.approved == {}
    && forall p | p in s.processes :: s.processes[p].phase.Idle?
  }

  // ---- Invariant ----

  ghost predicate Leads(c: Config, l: Ledger, v: ValidatorId) {
    c.engine.LeaderForHeight(l.NextHeight()) == Ok(v)
  }

  ghost predicate PhaseInv(c: Config, t: Tables, process: Process) {
    match process.phase
    case Loaded(l) => Current(t, l) && Leads(c, l, process.validator)
    case Filtering(l, accepted, rest) =>
      && Current(t, l) && Leads(c, l, process.validator)
      && l.DryRun(accepted).Ok?
      && Ordered(accepted + rest)
      && forall tx | tx in accepted + rest :: Queued(t.rows, tx)
    case Built(l, block) => Ready(c.engine, c.crypto, t, l, block) && block.validator == process.validator
    case _ => true
  }

  ghost predicate Inv(c: Config, s: State) {
    && StoreInv(c.engine, c.crypto, c.genesis, s.tables)
    && (forall p | p in s.processes && HoldsLock(s.processes[p].phase) :: s.lock == Some(p))
    && (forall p | p in s.processes :: PhaseInv(c, s.tables, s.processes[p]))
  }

  lemma InitialInv(c: Config, s: State)
    requires GenesisOk(c) && Initial(c, s)
    ensures Inv(c, s)
  {
    assert Chain(s.tables) == [];
    assert Load(s.tables).working == c.genesis.working;
  }

  // ---- Store changes that leave the finalized part alone ----

  /** The same row, with the same place in the chain. */
  predicate SameStanding(r: Row, q: Row) {
    && q.tx == r.tx && q.blockHeight == r.blockHeight && (q.status.Finalized? <==> r.status.Finalized?)
    && q.clientReferenceId == r.clientReferenceId && q.requestFingerprint == r.requestFingerprint
  }

  predicate StandsIn(r: Row, rows: seq<Row>) {
    exists q :: q in rows && SameStanding(r, q)
  }

  /** Rows may be inserted and unfinalized rows may move; every row and every finalized row stays. */
  ghost predicate Extends(a: Tables, b: Tables) {
    && b.accounts == a.accounts && b.balances == a.balances && b.headers == a.headers && b.journal == a.journal
    && WellFormed(b)
    && (forall r | r in a.rows :: StandsIn(r, b.rows))
    && (forall q | q in b.rows && q.blockHeight.Some? :: StandsIn(q, a.rows))
  }

  lemma ExtendsItself(t: Tables, cases: map<Uuid, ComplianceCase>)
    requires WellFormed(t)
    ensures Extends(t, t.(cases := cases))
  {
    assert forall r | r in t.rows :: SameStanding(r, r);
  }

  lemma {:induction false} InsertRowShape(rows: seq<Row>, r: Row)
    requires OrderedRows(rows) && UniqueIds(rows) && forall q | q in rows :: q.tx.id != r.tx.id
    ensures OrderedRows(InsertRow(rows, r)) && UniqueIds(InsertRow(rows, r))
    ensures forall q :: q in InsertRow(rows, r) <==> q in rows || q == r
    decreases |rows|
  {
    if rows != [] && !Before(r.tx, rows[0].tx) {
      var rest := rows[1..];
      InsertRowShape(rest, r);
      var after := InsertRow(rest, r);
      assert rows == [rows[0]] + rest;
      forall i | 0 <= i < |after| ensures Before(rows[0].tx, after[i].tx) && rows[0].tx.id != after[i].tx.id {
        assert after[i] in after;
      }
    }
  }

  /** What an upsert writes: status, height and reason of the row with that id, or one new row with every field of the payment. */
  lemma {:induction false} UpsertFields(rows: seq<Row>, p: PaymentRecord)
    requires OrderedRows(rows) && UniqueIds(rows)
    ensures var after, known := UpsertRow(rows, p), exists q :: q in rows && q.tx.id == p.transaction.id;
            if known
            then |after| == |rows|
                 && forall i | 0 <= i < |rows| ::
                      after[i] == if rows[i].tx.id != p.transaction.id then rows[i]
                                  else Row(rows[i].tx, p.status, p.blockHeight, p.failureReason,
                                           rows[i].clientReferenceId, rows[i].requestFingerprint)
            else OrderedRows(after)
                 && forall q :: q in after <==>
                      q in rows || q == Row(p.transaction, p.status, p.blockHeight, p.failureReason, p.clientReferenceId, p.requestFingerprint)
  {
    var k := RowIndex(rows, p.transaction.id);
    if k < |rows| {
      assert rows[k] in rows;
    } else {
      InsertRowShape(rows, Row(p.transaction, p.status, p.blockHeight, p.failureReason, p.clientReferenceId, p.requestFingerprint));
    }
  }

  lemma QueuedIffMember(rows: seq<Row>, tx: Transaction)
    ensures Queued(rows, tx) <==> exists q :: q in rows && q.tx == tx && q.status.Pending?
  {
    if Queued(rows, tx) {
      var i :| 0 <= i < |rows| && rows[i].tx == tx && rows[i].status.Pending?;
      assert rows[i] in rows;
    }
  }

  /** Inserting a row with a new id and no block height. */
  lemma {:induction false} InsertExtends(t: Tables, r: Row, cases: map<Uuid, ComplianceCase>)
    requires WellFormed(t) && Insertable(t, r) && !r.status.Finalized?
    ensures Extends(t, t.(rows := InsertRow(t.rows, r), cases := cases))
    ensures forall tx | Queued(t.rows, tx) :: Queued(InsertRow(t.rows, r), tx)
    ensures forall q :: q in InsertRow(t.rows, r) <==> q in t.rows || q == r
  {
    InsertRowShape(t.rows, r);
    var after := InsertRow(t.rows, r);
    assert forall q | q in t.rows :: SameStanding(q, q);
    forall i | 0 <= i < |after|
      ensures && (after[i].status.Finalized? <==> after[i].blockHeight.Some?)
              && (after[i].blockHeight.Some? ==> 1 <= after[i].blockHeight.value <= |t.headers|)
    {
      assert after[i] in after;
    }
    forall tx | Queued(t.rows, tx) ensures Queued(after, tx) {
      QueuedIffMember(t.rows, tx);
      QueuedIffMember(after, tx);
    }
  }

  lemma MoveKeepsShape(t: Tables, id: Uuid, from: TransactionStatus, to: TransactionStatus, reason: Option<string>)
    requires WellFormed(t) && !from.Finalized? && !to.Finalized?
    ensures WellFormed(t.(rows := MoveRow(t.rows, id, from, to, reason)))
  {
    var after := MoveRow(t.rows, id, from, to, reason);
    assert forall i: nat | i < |t.rows| :: SameStanding(t.rows[i], after[i]);
  }

  lemma MoveKeepsQueue(rows: seq<Row>, id: Uuid, from: TransactionStatus, to: TransactionStatus, reason: Option<string>,
                       tx: Transaction)
    requires Queued(rows, tx) && (from.Pending? ==> tx.id != id)
    ensures Queued(MoveRow(rows, id, from, to, reason), tx)
  {
    var i :| 0 <= i < |rows| && rows[i].tx == tx && rows[i].status.Pending?;
    assert MoveRow(rows, id, from, to, reason)[i] == rows[i];
  }

  lemma MoveKeepsStanding(rows: seq<Row>, id: Uuid, from: TransactionStatus, to: TransactionStatus, reason: Option<string>)
    requires !from.Finalized? && !to.Finalized?
    ensures forall r | r in rows :: StandsIn(r, MoveRow(rows, id, from, to, reason))
    ensures forall q | q in MoveRow(rows, id, from, to, reason) :: StandsIn(q, rows)
  {
    var after := MoveRow(rows, id, from, to, reason);
    forall r | r in rows ensures StandsIn(r, after) {
      var i :| 0 <= i < |rows| && rows[i] == r;
      assert after[i] in after && SameStanding(r, after[i]);
    }
    forall q | q in after ensures StandsIn(q, rows) {
      var i :| 0 <= i < |after| && after[i] == q;
      assert rows[i] in rows && SameStanding(q, rows[i]);
    }
  }

  /** Moving a row between two statuses that are not FINALIZED. */
  lemma MoveExtends(t: Tables, id: Uuid, from: TransactionStatus, to: TransactionStatus, reason: Option<string>,
                    cases: map<Uuid, ComplianceCase>)
    requires WellFormed(t) && !from.Finalized? && !to.Finalized?
    ensures Extends(t, t.(rows := MoveRow(t.rows, id, from, to, reason), cases := cases))
    ensures forall tx | Queued(t.rows, tx) && (from.Pending? ==> tx.id != id) :: Queued(MoveRow(t.rows, id, from, to, reason), tx)
  {
    var after := MoveRow(t.rows, id, from, to, reason);
    MoveKeepsShape(t, id, from, to, reason);
    MoveKeepsStanding(t.rows, id, from, to, reason);
    forall tx | Queued(t.rows, tx) && (from.Pending? ==> tx.id != id) ensures Queued(after, tx) {
      MoveKeepsQueue(t.rows, id, from, to, reason, tx);
    }
  }

  /** Extending the tables leaves every height of the chain as it was. */
  lemma ExtendsKeepsChain(a: Tables, b: Tables)
    requires WellFormed(a) && Extends(a, b)
    ensures Chain(b) == Chain(a)
  {
    forall h ensures TxsAtHeight(b.rows, h) == TxsAtHeight(a.rows, h) {
      TxsAtHeightOrdered(a.rows, h);
      TxsAtHeightOrdered(b.rows, h);
      forall x ensures x in TxsAtHeight(a.rows, h) <==> x in TxsAtHeight(b.rows, h) {
        TxsAtHeightMember(a.rows, h, x);
        TxsAtHeightMember(b.rows, h, x);
        if x in TxsAtHeight(a.rows, h) {
          var i :| 0 <= i < |a.rows| && a.rows[i].tx == x && a.rows[i].blockHeight == Some(h);
          assert StandsIn(a.rows[i], b.rows);
        }
        if x in TxsAtHeight(b.rows, h) {
          var j :| 0 <= j < |b.rows| && b.rows[j].tx == x && b.rows[j].blockHeight == Some(h);
          assert StandsIn(b.rows[j], a.rows);
        }
      }
      OrderedListsAgree(TxsAtHeight(a.rows, h), TxsAtHeight(b.rows, h));
    }
  }

  lemma ExtendsKeepsStore(e: Engine, crypto: Crypto, genesis: Ledger, a: Tables, b: Tables)
    requires Zero(genesis.working) && StoreInv(e, crypto, genesis, a) && Extends(a, b)
    ensures StoreInv(e, crypto, genesis, b)
    ensures Load(b).working == Load(a).working && Load(b).blocks == Load(a).blocks
  {
    ExtendsKeepsChain(a, b);
    ReloadAgrees(a, genesis.working);
    ReloadAgrees(b, genesis.working);
    forall entry | entry in b.journal ensures FinalId(b.rows, entry.transactionId) {
      assert FinalId(a.rows, entry.transactionId);
      var i :| 0 <= i < |a.rows| && a.rows[i].tx.id == entry.transactionId && a.rows[i].status.Finalized?;
      assert StandsIn(a.rows[i], b.rows);
    }
  }

  lemma StandingId(a: Tables, b: Tables, id: Uuid)
    requires Extends(a, b) && HasRow(a.rows, id)
    ensures HasRow(b.rows, id)
  {
    var i :| 0 <= i < |a.rows| && a.rows[i].tx.id == id;
    assert StandsIn(a.rows[i], b.rows);
    var q :| q in b.rows && SameStanding(a.rows[i], q);
  }

  lemma StandingRow(a: Tables, b: Tables, j: nat)
    requires Extends(a, b) && j < |b.rows| && HasRow(a.rows, b.rows[j].tx.id)
    ensures exists i :: 0 <= i < |a.rows| && SameStanding(a.rows[i], b.rows[j])
  {
    var i :| 0 <= i < |a.rows| && a.rows[i].tx.id == b.rows[j].tx.id;
    assert StandsIn(a.rows[i], b.rows);
    var q :| q in b.rows && SameStanding(a.rows[i], q);
    var k :| 0 <= k < |b.rows| && b.rows[k] == q;
    assert k == j;
  }

  lemma ExtendsKeepsCurrent(a: Tables, b: Tables, l: Ledger)
    requires WellFormed(a) && Extends(a, b) && Current(a, l)
    requires Load(b).working == Load(a).working && Chain(b) == Chain(a)
    ensures Current(b, l)
  {
    forall id | id in l.payments ensures HasRow(b.rows, id) {
      StandingId(a, b, id);
    }
    forall j: nat | j < |b.rows| && b.rows[j].tx.id in l.payments ensures Matches(b.rows[j], l.payments[b.rows[j].tx.id]) {
      StandingRow(a, b, j);
    }
    forall j: nat | j < |b.rows| && b.rows[j].status.Finalized? ensures b.rows[j].tx.id in l.payments {
      assert StandsIn(b.rows[j], a.rows);
    }
  }

  /** A process keeps its place while others extend the tables without touching its queue. */
  lemma ExtendsKeepsPhase(c: Config, a: Tables, b: Tables, process: Process)
    requires StoreInv(c.engine, c.crypto, c.genesis, a) && Extends(a, b)
    requires Load(b).working == Load(a).working && Chain(b) == Chain(a)
    requires PhaseInv(c, a, process)
    requires forall tx | Queued(a.rows, tx) :: Queued(b.rows, tx)
    ensures PhaseInv(c, b, process)
  {
    match process.phase {
      case Loaded(l) => ExtendsKeepsCurrent(a, b, l);
      case Filtering(l, _, _) => ExtendsKeepsCurrent(a, b, l);
      case Built(l, _) => ExtendsKeepsCurrent(a, b, l);
      case _ =>
    }
  }

  lemma ApiStepKeepsInv(c: Config, s: State, a: Action)
    requires ConfigOk(c) && Inv(c, s) && IsApi(a) && ApiStep(c, s, a).Some?
    ensures Inv(c, ApiStep(c, s, a).value)
    ensures Extends(s.tables, ApiStep(c, s, a).value.tables)
    ensures Chain(ApiStep(c, s, a).value.tables) == Chain(s.tables)
  {
    var t, after := s.tables, ApiStep(c, s, a).value.tables;
    match a {
      case Enqueue(row) => InsertExtends(t, row, t.cases);
      case HoldRow(row, newCase) => InsertExtends(t, row, t.cases[newCase.id := newCase]);
      case Resolve(caseId, resolution, reviewer, reason) =>
        var paymentId := t.cases[caseId].paymentId;
        MoveExtends(t, paymentId, Held, Pending, None, after.cases);
        if resolution.Rejection? {
          MoveExtends(t, paymentId, Held, Rejected, Some(resolution.reason), after.cases);
        }
    }
    ExtendsKeepsStore(c.engine, c.crypto, c.genesis, t, after);
    forall p | p in s.processes ensures PhaseInv(c, after, s.processes[p]) {
      ExtendsKeepsPhase(c, t, after, s.processes[p]);
    }
  }

  // ---- The lock holder's own steps ----

  lemma {:induction false} PendingMember(rows: seq<Row>, tx: Transaction)
    ensures tx in PendingTxs(rows) <==> Queued(rows, tx)
    decreases |rows|
  {
    if rows != [] {
      var front := rows[..|rows| - 1];
      PendingMember(front, tx);
      if Queued(front, tx) {
        var i: nat :| i < |front| && front[i].tx == tx && front[i].status.Pending?;
        assert rows[i] == front[i];
      } else if tx in PendingTxs(rows) {
        assert rows[|rows| - 1].tx == tx;
      }
    }
  }

  lemma {:induction false} PendingOrdered(rows: seq<Row>)
    requires OrderedRows(rows)
    ensures Ordered(PendingTxs(rows))
    decreases |rows|
  {
    if rows != [] {
      var front := rows[..|rows| - 1];
      PendingOrdered(front);
      forall k | 0 <= k < |PendingTxs(front)| ensures Before(PendingTxs(front)[k], rows[|rows| - 1].tx) {
        PendingMember(front, PendingTxs(front)[k]);
      }
    }
  }

  lemma PageIsQueued(rows: seq<Row>, limit: nat)
    requires OrderedRows(rows)
    ensures Ordered(PendingPage(rows, limit))
    ensures forall tx | tx in PendingPage(rows, limit) :: Queued(rows, tx)
  {
    PendingOrdered(rows);
    forall tx | tx in PendingPage(rows, limit) ensures Queued(rows, tx) {
      PendingMember(rows, tx);
    }
  }

  /** How many rows are PENDING. */
  ghost function PendingRows(rows: seq<Row>): nat {
    |set i | 0 <= i < |rows| && rows[i].status.Pending?|
  }

  lemma {:induction false} PendingCounted(rows: seq<Row>)
    ensures |PendingTxs(rows)| == PendingRows(rows)
    decreases |rows|
  {
    var all := set i | 0 <= i < |rows| && rows[i].status.Pending?;
    if rows == [] {
      assert all == {};
    } else {
      var n := |rows| - 1;
      var front := rows[..n];
      PendingCounted(front);
      var before := set i | 0 <= i < |front| && front[i].status.Pending?;
      assert all == before + (if rows[n].status.Pending? then {n} else {});
    }
  }

  /** Earlier by creation time, then by id. */
  predicate Older(x: Transaction, y: Transaction) {
    x.createdAt < y.createdAt || (x.createdAt == y.createdAt && x.id < y.id)
  }

  /** The page holds the oldest waiting transactions, oldest first, and is full unless nothing else waits. */
  lemma PageIsOldest(rows: seq<Row>, limit: nat)
    requires OrderedRows(rows)
    ensures |PendingPage(rows, limit)| == if limit < PendingRows(rows) then limit else PendingRows(rows)
    ensures forall i, j | 0 <= i < j < |PendingPage(rows, limit)| :: Older(PendingPage(rows, limit)[i], PendingPage(rows, limit)[j])
    ensures forall x | x in PendingPage(rows, limit) :: Queued(rows, x)
    ensures forall x, y | Queued(rows, x) && x !in PendingPage(rows, limit) && y in PendingPage(rows, limit) :: Older(y, x)
  {
    PendingCounted(rows);
    PageIsQueued(rows, limit);
    PendingOrdered(rows);
    var pending, page := PendingTxs(rows), PendingPage(rows, limit);
    assert forall i, j | 0 <= i < j < |pending| :: Before(pending[i], pending[j]);
    assert forall k | 0 <= k < |page| :: page[k] == pending[k] && pending[k] in page;
    forall x, y | Queued(rows, x) && x !in page && y in page ensures Older(y, x) {
      PendingMember(rows, x);
      var i :| 0 <= i < |pending| && pending[i] == x;
      var j :| 0 <= j < |page| && page[j] == y;
      assert pending[j] == y && j < i;
    }
  }

  /** No other process can be inside the lock. */
  lemma OthersAreOutside(c: Config, s: State, p: nat, q: nat)
    requires Inv(c, s) && p in s.processes && q in s.processes && p != q && HoldsLock(s.processes[p].phase)
    ensures !HoldsLock(s.processes[q].phase)
  {
  }

  /** Different queued transactions have different ids. */
  lemma QueuedIdsDiffer(rows: seq<Row>, x: Transaction, y: Transaction)
    requires UniqueIds(rows) && Queued(rows, x) && Queued(rows, y) && x != y
    ensures x.id != y.id
  {
  }

  /** Dropping one transaction from an ordered queue keeps it ordered, and the dropped one is gone. */
  lemma DropOne(accepted: seq<Transaction>, tx: Transaction, rest: seq<Transaction>)
    requires Ordered(accepted + [tx] + rest)
    ensures Ordered(accepted + rest)
    ensures forall x | x in accepted + rest :: x != tx && x in accepted + [tx] + rest
  {
    var all, left := accepted + [tx] + rest, accepted + rest;
    assert all[|accepted|] == tx;
    forall i | 0 <= i < |left| ensures left[i] == all[if i < |accepted| then i else i + 1] {
    }
    forall x | x in left ensures x != tx && x in all {
      var i :| 0 <= i < |left| && left[i] == x;
      assert all[if i < |accepted| then i else i + 1] == x;
    }
  }

  /** The rest of the page stays queued when its first transaction is rejected. */
  lemma RejectQueue(rows: seq<Row>, accepted: seq<Transaction>, rest: seq<Transaction>, reason: string)
    requires UniqueIds(rows) && rest != [] && Ordered(accepted + rest)
    requires forall tx | tx in accepted + rest :: Queued(rows, tx)
    ensures Ordered(accepted + rest[1..])
    ensures forall tx | tx in accepted + rest[1..] :: Queued(RejectRow(rows, rest[0].id, reason), tx)
  {
    var tx := rest[0];
    assert accepted + rest == accepted + [tx] + rest[1..];
    DropOne(accepted, tx, rest[1..]);
    assert Queued(rows, tx) by {
      assert tx in accepted + rest;
    }
    forall x | x in accepted + rest[1..] ensures Queued(RejectRow(rows, tx.id, reason), x) {
      QueuedIdsDiffer(rows, x, tx);
      MoveKeepsQueue(rows, tx.id, Pending, Rejected, Some(reason), x);
    }
  }

  /** Rejecting a queued row touches nothing a loaded ledger depends on. */
  lemma RejectStore(c: Config, t: Tables, l: Ledger, id: Uuid, reason: string)
    requires ConfigOk(c) && StoreInv(c.engine, c.crypto, c.genesis, t) && Current(t, l)
    ensures var after := t.(rows := RejectRow(t.rows, id, reason));
            && Extends(t, after)
            && StoreInv(c.engine, c.crypto, c.genesis, after) && Chain(after) == Chain(t)
            && Current(after, l)
  {
    var after := t.(rows := RejectRow(t.rows, id, reason));
    MoveExtends(t, id, Pending, Rejected, Some(reason), t.cases);
    ExtendsKeepsStore(c.engine, c.crypto, c.genesis, t, after);
    ExtendsKeepsCurrent(t, after, l);
  }

  lemma RejectStep(c: Config, t: Tables, process: Process, reason: string)
    requires ConfigOk(c) && StoreInv(c.engine, c.crypto, c.genesis, t) && PhaseInv(c, t, process)
    requires process.phase.Filtering? && process.phase.rest != []
    ensures var Filtering(l, accepted, rest) := process.phase;
            var after := t.(rows := RejectRow(t.rows, rest[0].id, reason));
            && Extends(t, after)
            && StoreInv(c.engine, c.crypto, c.genesis, after) && Chain(after) == Chain(t)
            && PhaseInv(c, after, process.(phase := Filtering(l, accepted, rest[1..])))
  {
    var Filtering(l, accepted, rest) := process.phase;
    RejectStore(c, t, l, rest[0].id, reason);
    RejectQueue(t.rows, accepted, rest, reason);
  }

  /** What the lock holder does concerns no other process. */
  lemma HolderMoves(c: Config, s: State, p: nat, t: Tables, phase: Phase)
    requires Inv(c, s) && p in s.processes && HoldsLock(s.processes[p].phase) && HoldsLock(phase)
    requires StoreInv(c.engine, c.crypto, c.genesis, t)
    requires PhaseInv(c, t, s.processes[p].(phase := phase))
    ensures Inv(c, Move(s, p, phase).(tables := t))
  {
    var next := Move(s, p, phase).(tables := t);
    forall q | q in next.processes
      ensures PhaseInv(c, t, next.processes[q]) && (HoldsLock(next.processes[q].phase) ==> next.lock == Some(q))
    {
      if q != p {
        OthersAreOutside(c, s, p, q);
      }
    }
  }

  /** The lock holder's next phase, with the tables unchanged. */
  lemma HolderAdvances(c: Config, s: State, p: nat, phase: Phase)
    requires Inv(c, s) && p in s.processes && HoldsLock(s.processes[p].phase) && HoldsLock(phase)
    requires PhaseInv(c, s.tables, s.processes[p].(phase := phase))
    ensures Inv(c, Move(s, p, phase))
  {
    HolderMoves(c, s, p, s.tables, phase);
    assert Move(s, p, phase).(tables := s.tables) == Move(s, p, phase);
  }

  lemma TakeFirst(accepted: seq<Transaction>, rest: seq<Transaction>)
    requires rest != []
    ensures accepted + [rest[0]] + rest[1..] == accepted + rest
  {
  }

  /** An accepted transaction joins the selection. */
  lemma AcceptStep(c: Config, t: Tables, process: Process)
    requires PhaseInv(c, t, process) && process.phase.Filtering? && process.phase.rest != []
    requires process.phase.base.DryRun(process.phase.accepted + [process.phase.rest[0]]).Ok?
    ensures var Filtering(l, accepted, rest) := process.phase;
            PhaseInv(c, t, process.(phase := Filtering(l, accepted + [rest[0]], rest[1..])))
  {
    TakeFirst(process.phase.accepted, process.phase.rest);
  }

  lemma JudgedInv(c: Config, t: Tables, process: Process, reason: string)
    requires ConfigOk(c) && StoreInv(c.engine, c.crypto, c.genesis, t) && PhaseInv(c, t, process)
    requires process.phase.Filtering? && process.phase.rest != []
    ensures var Filtering(l, accepted, rest) := process.phase;
            var (phase, after) := Judged(t, l, accepted, rest, reason);
            && HoldsLock(phase) && PhaseInv(c, after, process.(phase := phase))
            && StoreInv(c.engine, c.crypto, c.genesis, after)
            && Extends(t, after) && Chain(after) == Chain(t)
  {
    var Filtering(l, accepted, rest) := process.phase;
    if l.DryRun(accepted + [rest[0]]).Ok? {
      AcceptStep(c, t, process);
      ExtendsItself(t, t.cases);
      assert t.(cases := t.cases) == t;
    } else {
      RejectStep(c, t, process, reason);
    }
  }

  /** The state after judging the next transaction. */
  function JudgedState(s: State, p: nat, reason: string): State
    requires p in s.processes && s.processes[p].phase.Filtering? && s.processes[p].phase.rest != []
  {
    var Filtering(l, accepted, rest) := s.processes[p].phase;
    var (phase, after) := Judged(s.tables, l, accepted, rest, reason);
    Move(s, p, phase).(tables := after)
  }

  lemma JudgedStateInv(c: Config, s: State, p: nat, reason: string)
    requires ConfigOk(c) && Inv(c, s) && p in s.processes && s.processes[p].phase.Filtering? && s.processes[p].phase.rest != []
    ensures var next := JudgedState(s, p, reason);
            Inv(c, next) && Extends(s.tables, next.tables) && Chain(next.tables) == Chain(s.tables)
  {
    assert PhaseInv(c, s.tables, s.processes[p]);
    JudgedInv(c, s.tables, s.processes[p], reason);
    var (phase, after) := Judged(s.tables, s.processes[p].phase.base, s.processes[p].phase.accepted, s.processes[p].phase.rest, reason);
    HolderMoves(c, s, p, after, phase);
  }

  lemma FilterStepIs(c: Config, s: State, p: nat, reason: string)
    requires p in s.processes && s.processes[p].phase.Filtering? && ProcessStep(c, s, FilterOne(p, reason), p).Some?
    ensures s.processes[p].phase.rest != [] && ProcessStep(c, s, FilterOne(p, reason), p) == Some(JudgedState(s, p, reason))
  {
  }

  lemma FilterStepInv(c: Config, s: State, p: nat, reason: string)
    requires ConfigOk(c) && Inv(c, s) && p in s.processes && s.processes[p].phase.Filtering?
    requires ProcessStep(c, s, FilterOne(p, reason), p).Some?
    ensures Inv(c, ProcessStep(c, s, FilterOne(p, reason), p).value)
    ensures Extends(s.tables, ProcessStep(c, s, FilterOne(p, reason), p).value.tables)
    ensures Chain(ProcessStep(c, s, FilterOne(p, reason), p).value.tables) == Chain(s.tables)
  {
    FilterStepIs(c, s, p, reason);
    JudgedStateInv(c, s, p, reason);
  }

  /** A non-empty selection always becomes a block ready to be saved. */
  lemma BuiltIsReady(c: Config, t: Tables, process: Process, now: int)
    requires ConfigOk(c) && PhaseInv(c, t, process) && process.phase.Filtering? && process.phase.rest == []
    ensures var Filtering(l, accepted, _) := process.phase;
            var phase := BuiltPhase(c, l, accepted, process.validator, now);
            && PhaseInv(c, t, process.(phase := phase)) && HoldsLock(phase)
            && (accepted != [] ==> phase.Built? && phase.block.txs == accepted)
  {
    var Filtering(l, accepted, rest) := process.phase;
    if accepted != [] {
      BuildingCannotFail(l, accepted, c.engine, c.crypto, process.validator, now);
      assert accepted + rest == accepted;
    }
  }

  lemma BuildStepInv(c: Config, s: State, p: nat, now: int)
    requires ConfigOk(c) && Inv(c, s) && p in s.processes && s.processes[p].phase.Filtering?
    requires ProcessStep(c, s, Build(p, now), p).Some?
    ensures Inv(c, ProcessStep(c, s, Build(p, now), p).value)
  {
    var Filtering(l, accepted, rest) := s.processes[p].phase;
    var phase := BuiltPhase(c, l, accepted, s.processes[p].validator, now);
    assert PhaseInv(c, s.tables, s.processes[p].(phase := phase)) && HoldsLock(phase) by {
      assert PhaseInv(c, s.tables, s.processes[p]);
      BuiltIsReady(c, s.tables, s.processes[p], now);
    }
    assert ProcessStep(c, s, Build(p, now), p) == Some(Move(s, p, phase));
    HolderAdvances(c, s, p, phase);
  }

  lemma SaveKeepsStore(c: Config, t: Tables, l: Ledger, block: Block, snapshot: Snapshot)
    requires ConfigOk(c) && StoreInv(c.engine, c.crypto, c.genesis, t) && Ready(c.engine, c.crypto, t, l, block)
    requires IsSnapshot(snapshot, ApplyBlock(l, block).value)
    ensures Save(t, snapshot) == Merge(t, ApplyBlock(l, block).value)
    ensures StoreInv(c.engine, c.crypto, c.genesis, Save(t, snapshot))
  {
    SaveIsMerge(c.engine, c.crypto, t, l, block, snapshot);
    MergeKeepsStore(c.engine, c.crypto, c.genesis, t, l, block);
  }

  lemma SaveStepIs(c: Config, s: State, p: nat, snapshot: Snapshot)
    requires p in s.processes && s.processes[p].phase.Built? && ProcessStep(c, s, SaveBlock(p, snapshot), p).Some?
    ensures var Built(l, block) := s.processes[p].phase;
            && ApplyBlock(l, block).Ok? && IsSnapshot(snapshot, ApplyBlock(l, block).value)
            && ProcessStep(c, s, SaveBlock(p, snapshot), p).value == Move(s, p, Finishing).(tables := Save(s.tables, snapshot))
  {
  }

  lemma SaveStepInv(c: Config, s: State, p: nat, snapshot: Snapshot)
    requires ConfigOk(c) && Inv(c, s) && p in s.processes && s.processes[p].phase.Built?
    requires ProcessStep(c, s, SaveBlock(p, snapshot), p).Some?
    ensures Inv(c, ProcessStep(c, s, SaveBlock(p, snapshot), p).value)
    ensures ProcessStep(c, s, SaveBlock(p, snapshot), p).value.tables
            == Merge(s.tables, ApplyBlock(s.processes[p].phase.base, s.processes[p].phase.block).value)
  {
    SaveStepIs(c, s, p, snapshot);
    assert PhaseInv(c, s.tables, s.processes[p]);
    SaveKeepsStore(c, s.tables, s.processes[p].phase.base, s.processes[p].phase.block, snapshot);
    HolderMoves(c, s, p, Save(s.tables, snapshot), Finishing);
  }

  lemma ReloadStepInv(c: Config, s: State, p: nat)
    requires ConfigOk(c) && Inv(c, s) && p in s.processes && s.processes[p].phase.Locked?
    ensures Inv(c, ProcessStep(c, s, ReloadLedger(p), p).value)
  {
    LoadIsCurrent(s.tables);
    var l := Load(s.tables);
    if c.engine.LeaderForHeight(l.NextHeight()) == Ok(s.processes[p].validator) {
      HolderAdvances(c, s, p, Loaded(l));
    } else {
      HolderAdvances(c, s, p, Finishing);
    }
  }

  lemma ReadStepInv(c: Config, s: State, p: nat)
    requires ConfigOk(c) && Inv(c, s) && p in s.processes && s.processes[p].phase.Loaded?
    ensures Inv(c, ProcessStep(c, s, ReadPending(p), p).value)
  {
    var page := PendingPage(s.tables.rows, c.maxTransactions);
    assert PhaseInv(c, s.tables, s.processes[p]);
    PageIsQueued(s.tables.rows, c.maxTransactions);
    assert [] + page == page;
    HolderAdvances(c, s, p, if page == [] then Finishing else Filtering(s.processes[p].phase.base, [], page));
  }

  /** The steps that carry no ledger. */
  lemma PlainStepInv(c: Config, s: State, a: Action, p: nat)
    requires Inv(c, s) && ProcessStep(c, s, a, p).Some?
    requires a.Begin? || a.TryLock? || a.Release? || a.Abort?
    ensures Inv(c, ProcessStep(c, s, a, p).value)
  {
  }

  lemma ProcessStepKeepsInv(c: Config, s: State, a: Action, p: nat)
    requires ConfigOk(c) && Inv(c, s) && ProcessStep(c, s, a, p).Some?
    ensures Inv(c, ProcessStep(c, s, a, p).value)
  {
    match a {
      case ReloadLedger(_) =>
        assert ProcessStep(c, s, a, p) == ProcessStep(c, s, ReloadLedger(p), p);
        ReloadStepInv(c, s, p);
      case ReadPending(_) =>
        assert ProcessStep(c, s, a, p) == ProcessStep(c, s, ReadPending(p), p);
        ReadStepInv(c, s, p);
      case FilterOne(_, reason) =>
        assert ProcessStep(c, s, a, p) == ProcessStep(c, s, FilterOne(p, reason), p);
        FilterStepInv(c, s, p, reason);
      case Build(_, now) =>
        assert ProcessStep(c, s, a, p) == ProcessStep(c, s, Build(p, now), p);
        BuildStepInv(c, s, p, now);
      case SaveBlock(_, snapshot) =>
        assert ProcessStep(c, s, a, p) == ProcessStep(c, s, SaveBlock(p, snapshot), p);
        SaveStepInv(c, s, p, snapshot);
      case _ => PlainStepInv(c, s, a, p);
    }
  }

  lemma StepKeepsInv(c: Config, s: State, a: Action)
    requires ConfigOk(c) && Inv(c, s) && StepState(c, s, a).Some?
    ensures Inv(c, StepState(c, s, a).value)
  {
    if IsApi(a) {
      ApiStepKeepsInv(c, s, a);
    } else {
      ProcessStepKeepsInv(c, s, a, a.p);
    }
  }

  /** Every state of every run keeps the invariant. */
  lemma {:induction false} RunsKeepInv(c: Config, s: State, actions: seq<Action>)
    requires ConfigOk(c) && Inv(c, s) && Execute(c, s, actions).Some?
    ensures Inv(c, Execute(c, s, actions).value)
    decreases |actions|
  {
    if actions != [] {
      RunsKeepInv(c, s, actions[..|actions| - 1]);
      StepKeepsInv(c, Execute(c, s, actions[..|actions| - 1]).value, actions[|actions| - 1]);
    }
  }
}

/**
  Why REJECTED is not terminal in the store: in a pass that both rejects and finalizes, the save writes the
  statuses that were loaded before the rejections (crates/kani-node/src/lib.rs:857, 877-880, 908-910).
 */
module WriteBack {
  import opened Wrappers
  import opened Types
  import opened Ledgers
  import opened LedgerCore
  import opened Store
  import opened Merging
  import opened Blocks
  import opened Selection
  import opened Protocol
  import opened Passes
  import opened Drain
  import opened Uninterrupted

  predicate HasStatus(rows: seq<Row>, tx: Transaction, status: TransactionStatus) {
    exists i :: 0 <= i < |rows| && rows[i].tx == tx && rows[i].status == status
  }

  /** An undisturbed leader whose page holds something valid and something invalid. */
  ghost predicate MixedPage(c: Config, s: State, p: nat, tx: Transaction) {
    && Undisturbed(c, s, p) && LeadsStore(c, s.tables, s.processes[p].validator)
    && Selected(c, s.tables) != []
    && tx in PendingPage(s.tables.rows, c.maxTransactions) && tx !in Selected(c, s.tables)
  }

  /** The run up to the end of the filter. */
  lemma {:induction false} FilteredRun(c: Config, s: State, p: nat, tx: Transaction) returns (run: seq<Action>, f: Filtered)
    requires MixedPage(c, s, p, tx)
    ensures f == FilterAll(s.tables, Load(s.tables), [], PendingPage(s.tables.rows, c.maxTransactions))
    ensures f.accepted == Selected(c, s.tables)
    ensures Execute(c, s, run) == Some(At(s, p, Filtering(Load(s.tables), f.accepted, []), f.tables))
  {
    var t, l, page := s.tables, Load(s.tables), PendingPage(s.tables.rows, c.maxTransactions);
    f := FilterAll(t, l, [], page);
    PassFilter(c, t, s.processes[p].validator);
    var opening := OpeningRun(c, s, p);
    ReadStep(c, s, p, t, l);
    var filtering := FilterRun(c, s, p, t, l, [], page);
    ExecuteConcat(c, s, opening, [ReadPending(p)]);
    ExecuteConcat(c, s, opening + [ReadPending(p)], filtering);
    run := opening + [ReadPending(p)] + filtering;
  }

  lemma {:induction false} UnselectedIsRejected(c: Config, t: Tables, v: ValidatorId, tx: Transaction)
    requires ConfigOk(c) && StoreInv(c.engine, c.crypto, c.genesis, t) && LeadsStore(c, t, v)
    requires tx in PendingPage(t.rows, c.maxTransactions) && tx !in Selected(c, t)
    ensures HasStatus(FilterAll(t, Load(t), [], PendingPage(t.rows, c.maxTransactions)).tables.rows, tx, Rejected)
  {
    PassFilter(c, t, v);
    PageIsQueued(t.rows, c.maxTransactions);
    assert Queued(t.rows, tx);
    var i :| 0 <= i < |t.rows| && t.rows[i].tx == tx && t.rows[i].status.Pending?;
    var after := FilterAll(t, Load(t), [], PendingPage(t.rows, c.maxTransactions)).tables.rows;
    assert after[i].tx == tx && after[i].status.Rejected?;
  }

  lemma {:induction false} UnselectedComesBack(c: Config, t: Tables, v: ValidatorId, now: int, tx: Transaction)
    requires ConfigOk(c) && StoreInv(c.engine, c.crypto, c.genesis, t) && LeadsStore(c, t, v) && Selected(c, t) != []
    requires tx in PendingPage(t.rows, c.maxTransactions) && tx !in Selected(c, t)
    ensures HasStatus(Pass(c, t, v, now).tables.rows, tx, Pending)
  {
    PageIsQueued(t.rows, c.maxTransactions);
    assert Queued(t.rows, tx);
    var i: nat :| i < |t.rows| && t.rows[i].tx == tx && t.rows[i].status.Pending?;
    SavingPassRow(c, t, v, now, i);
  }

  /**
    On every mixed page each transaction the filter refuses is REJECTED at one moment of the run and PENDING
    again at the end of it.
   */
  lemma {:induction false} RejectedComesBack(c: Config, s: State, p: nat, tx: Transaction, now: int)
    returns (filtered: seq<Action>, saved: seq<Action>)
    requires MixedPage(c, s, p, tx)
    ensures Execute(c, s, filtered).Some? && HasStatus(Execute(c, s, filtered).value.tables.rows, tx, Rejected)
    ensures Execute(c, s, filtered + saved).Some? && HasStatus(Execute(c, s, filtered + saved).value.tables.rows, tx, Pending)
  {
    var f: Filtered;
    filtered, f := FilteredRun(c, s, p, tx);
    UnselectedIsRejected(c, s.tables, s.processes[p].validator, tx);
    saved := SavingRun(c, s, p, now, f);
    ExecuteConcat(c, s, filtered, saved);
    UnselectedComesBack(c, s.tables, s.processes[p].validator, now, tx);
  }
}

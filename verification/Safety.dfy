/**
  What every interleaving of validators and API calls guarantees (crates/kani-node/src/lib.rs:819-946).
 */
module Safety {
  import opened Wrappers
  import opened Types
  import opened Ledgers
  import opened LedgerCore
  import opened Books
  import opened Store
  import opened Reload
  import opened Merging
  import opened Consensus
  import opened Blocks
  import opened Protocol

  /** The identity of a row: what no step may ever change. */
  predicate SameIdentity(r: Row, q: Row) {
    q.tx == r.tx && q.clientReferenceId == r.clientReferenceId && q.requestFingerprint == r.requestFingerprint
  }

  /** No row disappears or changes identity, and what is final stays final at its height. */
  ghost predicate KeepsRows(a: Tables, b: Tables) {
    forall r | r in a.rows :: exists q :: q in b.rows && SameIdentity(r, q) && (r.blockHeight.Some? ==> SameStanding(r, q))
  }

  /** One step's effect on the chain: nothing, or one more block, made by the lock holder as that height's leader. */
  ghost predicate ChainStep(c: Config, s: State, a: Action, next: State) {
    || Chain(next.tables) == Chain(s.tables)
    || (&& a.SaveBlock? && a.p in s.processes && s.lock == Some(a.p)
        && |Chain(next.tables)| == |Chain(s.tables)| + 1
        && Chain(next.tables)[..|Chain(s.tables)|] == Chain(s.tables)
        && var b := Chain(next.tables)[|Chain(s.tables)|];
        && b.height == |Chain(s.tables)| + 1
        && Endorsed(c.engine, c.crypto, b)
        && b.validator == s.processes[a.p].validator
        && c.engine.LeaderForHeight(b.height) == Ok(b.validator))
  }

  lemma SaveKeepsRows(c: Config, t: Tables, l: Ledger, b: Block)
    requires WellFormed(t) && Ready(c.engine, c.crypto, t, l, b)
    ensures KeepsRows(t, Merge(t, ApplyBlock(l, b).value))
  {
    var after := Merge(t, ApplyBlock(l, b).value).rows;
    forall r | r in t.rows
      ensures exists q :: q in after && SameIdentity(r, q) && (r.blockHeight.Some? ==> SameStanding(r, q))
    {
      var i :| 0 <= i < |t.rows| && t.rows[i] == r;
      MergedRow(c.engine, c.crypto, t, l, b, i);
      assert after[i] in after;
    }
  }

  lemma ExtendsKeepsRows(a: Tables, b: Tables)
    requires Extends(a, b)
    ensures KeepsRows(a, b)
  {
    forall r | r in a.rows
      ensures exists q :: q in b.rows && SameIdentity(r, q) && (r.blockHeight.Some? ==> SameStanding(r, q))
    {
      assert StandsIn(r, b.rows);
    }
  }

  lemma SaveStepSafe(c: Config, s: State, p: nat, snapshot: Snapshot)
    requires ConfigOk(c) && Inv(c, s) && p in s.processes && s.processes[p].phase.Built?
    requires ProcessStep(c, s, SaveBlock(p, snapshot), p).Some?
    ensures var next := ProcessStep(c, s, SaveBlock(p, snapshot), p).value;
            ChainStep(c, s, SaveBlock(p, snapshot), next) && KeepsRows(s.tables, next.tables)
  {
    assert PhaseInv(c, s.tables, s.processes[p]);
    var Built(l, b) := s.processes[p].phase;
    SaveStepInv(c, s, p, snapshot);
    MergeExtendsChain(c.engine, c.crypto, s.tables, l, b);
    SaveKeepsRows(c, s.tables, l, b);
  }

  /** Every step of every process or of the API is safe for the chain and for every row. */
  lemma StepIsSafe(c: Config, s: State, a: Action)
    requires ConfigOk(c) && Inv(c, s) && StepState(c, s, a).Some?
    ensures ChainStep(c, s, a, StepState(c, s, a).value)
    ensures KeepsRows(s.tables, StepState(c, s, a).value.tables)
  {
    if IsApi(a) {
      ApiStepKeepsInv(c, s, a);
      ExtendsKeepsRows(s.tables, StepState(c, s, a).value.tables);
    } else if a.FilterOne? && s.processes[a.p].phase.Filtering? {
      FilterStepInv(c, s, a.p, a.reason);
      ExtendsKeepsRows(s.tables, StepState(c, s, a).value.tables);
    } else if a.SaveBlock? && s.processes[a.p].phase.Built? {
      SaveStepSafe(c, s, a.p, a.snapshot);
    } else {
      assert StepState(c, s, a).value.tables == s.tables;
      assert forall r | r in s.tables.rows :: SameIdentity(r, r) && SameStanding(r, r);
    }
  }

  lemma KeepsRowsTransitive(a: Tables, b: Tables, d: Tables)
    requires KeepsRows(a, b) && KeepsRows(b, d)
    ensures KeepsRows(a, d)
  {
    forall r | r in a.rows
      ensures exists q :: q in d.rows && SameIdentity(r, q) && (r.blockHeight.Some? ==> SameStanding(r, q))
    {
      var q :| q in b.rows && SameIdentity(r, q) && (r.blockHeight.Some? ==> SameStanding(r, q));
      var z :| z in d.rows && SameIdentity(q, z) && (q.blockHeight.Some? ==> SameStanding(q, z));
      assert SameIdentity(r, z);
    }
  }

  lemma {:induction false} ExecuteSnoc(c: Config, s: State, actions: seq<Action>, a: Action)
    ensures Execute(c, s, actions + [a])
            == match Execute(c, s, actions) case None => None case Some(m) => StepState(c, m, a)
  {
    assert (actions + [a])[..|actions + [a]| - 1] == actions;
  }

  /**
    Safety over whole runs: between any two moments of any run the chain only grows - no height is
    finalized twice or differently - no row is lost, and finalized payments stay finalized.
   */
  lemma {:induction false} RunsOnlyGrow(c: Config, s: State, earlier: seq<Action>, later: seq<Action>)
    requires ConfigOk(c) && Inv(c, s) && Execute(c, s, earlier + later).Some?
    ensures Execute(c, s, earlier).Some?
    ensures var a, b := Execute(c, s, earlier).value.tables, Execute(c, s, earlier + later).value.tables;
            Chain(a) <= Chain(b) && KeepsRows(a, b)
    decreases |later|
  {
    if later == [] {
      assert earlier + later == earlier;
      var a := Execute(c, s, earlier).value.tables;
      assert forall r | r in a.rows :: SameIdentity(r, r) && SameStanding(r, r);
    } else {
      var front, x := later[..|later| - 1], later[|later| - 1];
      assert earlier + later == (earlier + front) + [x];
      ExecuteSnoc(c, s, earlier + front, x);
      RunsOnlyGrow(c, s, earlier, front);
      RunsKeepInv(c, s, earlier + front);
      var m := Execute(c, s, earlier + front).value;
      StepIsSafe(c, m, x);
      KeepsRowsTransitive(Execute(c, s, earlier).value.tables, m.tables, StepState(c, m, x).value.tables);
    }
  }

  /**
    In every state of every run from the start: the stored chain is linked, each block endorsed by its
    height's leader and a quorum; stored balances and journal equal a replay of that chain; a reload
    finds the replay's nonces and issued supply; and all views of the money agree.
   */
  lemma {:induction false} EveryRunIsSafe(c: Config, s: State, actions: seq<Action>)
    requires ConfigOk(c) && Initial(c, s) && Execute(c, s, actions).Some?
    ensures var t := Execute(c, s, actions).value.tables;
            && GoodChain(c.engine, c.crypto, Chain(t))
            && Replay(c.genesis.accounts, Chain(t), c.genesis.working) == Ok(Load(t).working)
            && Load(t).working.balances == t.balances && Load(t).working.journal == t.journal
            && Balanced(AllTxs(Chain(t)), Load(t).working)
            && forall tx :: tx in AllTxs(Chain(t)) <==> IsFinal(t.rows, tx)
  {
    InitialInv(c, s);
    RunsKeepInv(c, s, actions);
    var t := Execute(c, s, actions).value.tables;
    ReplayIsBalanced(c.genesis.accounts, Chain(t), c.genesis.working);
    forall tx ensures tx in AllTxs(Chain(t)) <==> IsFinal(t.rows, tx) {
      ChainHoldsFinalizedRows(t, tx);
    }
  }

  /** Mutual exclusion: at most one process is past the lock, in every state of every run. */
  lemma {:induction false} OneHolder(c: Config, s: State, actions: seq<Action>, p: nat, q: nat)
    requires ConfigOk(c) && Initial(c, s) && Execute(c, s, actions).Some?
    requires var ps := Execute(c, s, actions).value.processes;
             p in ps && q in ps && HoldsLock(ps[p].phase) && HoldsLock(ps[q].phase)
    ensures p == q
  {
    InitialInv(c, s);
    RunsKeepInv(c, s, actions);
  }

  // ---- What saving does to the rows it does not finalize ----

  /**
    The save writes its own snapshot back over every row it loaded: a row outside the block ends with
    the status it had when the ledger was loaded, and a row inserted since is left exactly as it is.
   */
  lemma SaveWritesBack(c: Config, s: State, p: nat, snapshot: Snapshot, i: nat)
    requires ConfigOk(c) && Inv(c, s) && p in s.processes && s.processes[p].phase.Built?
    requires ProcessStep(c, s, SaveBlock(p, snapshot), p).Some? && i < |s.tables.rows|
    ensures var Built(l, b) := s.processes[p].phase;
            var after := ProcessStep(c, s, SaveBlock(p, snapshot), p).value.tables.rows;
            var r := s.tables.rows[i];
            && |after| == |s.tables.rows|
            && (r.tx in b.txs ==> r.status.Pending? && after[i].status.Finalized? && after[i].failureReason == None)
            && (r.tx !in b.txs && r.tx.id in l.payments ==>
                  after[i].status == l.payments[r.tx.id].status && after[i].failureReason == l.payments[r.tx.id].failureReason)
            && (r.tx !in b.txs && r.tx.id !in l.payments ==> after[i] == r)
  {
    assert PhaseInv(c, s.tables, s.processes[p]);
    var Built(l, b) := s.processes[p].phase;
    SaveStepInv(c, s, p, snapshot);
    MergedRow(c.engine, c.crypto, s.tables, l, b, i);
  }
}

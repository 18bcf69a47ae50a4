/** The atomic pass is a run of the stepwise protocol in which no one else moves. */
module Uninterrupted {
  import opened Wrappers
  import opened Types
  import opened Ledgers
  import opened LedgerCore
  import opened Store
  import opened Reload
  import opened Merging
  import opened Consensus
  import opened Blocks
  import opened Selection
  import opened Protocol
  import opened Safety
  import opened Passes

  // ---- Every ledger has a snapshot ----

  lemma ListOneMore<K, V>(rest: seq<(K, V)>, m: map<K, V>, k: K)
    requires k in m && Lists(rest, m - {k})
    ensures Lists(rest + [(k, m[k])], m)
  {
    var pairs := rest + [(k, m[k])];
    assert pairs[|rest|].0 == k;
    forall j | j in m ensures exists i :: 0 <= i < |pairs| && pairs[i].0 == j {
      if j != k {
        assert j in m - {k};
        var i :| 0 <= i < |rest| && rest[i].0 == j;
        assert pairs[i].0 == j;
      }
    }
  }

  lemma {:induction false} ListingExists<K, V>(m: map<K, V>) returns (pairs: seq<(K, V)>)
    ensures Lists(pairs, m)
    decreases |m|
  {
    if m == map[] {
      pairs := [];
    } else {
      var k :| k in m;
      assert (m - {k}).Keys == m.Keys - {k};
      var rest := ListingExists(m - {k});
      ListOneMore(rest, m, k);
      pairs := rest + [(k, m[k])];
    }
  }

  /** A ledger whose maps are keyed by the ids inside their values. */
  ghost predicate WellKeyed(l: Ledger) {
    && (forall a | a in l.accounts :: l.accounts[a].id == a)
    && (forall p | p in l.payments :: l.payments[p].transaction.id == p)
    && (forall k | k in l.cases :: l.cases[k].id == k)
  }

  lemma SnapshotExists(l: Ledger) returns (s: Snapshot)
    requires WellKeyed(l)
    ensures IsSnapshot(s, l)
  {
    var accounts := ListingExists(l.accounts);
    var balances := ListingExists(l.working.balances);
    var payments := ListingExists(l.payments);
    var cases := ListingExists(l.cases);
    s := Snapshot(
      seq(|accounts|, i requires 0 <= i < |accounts| => accounts[i].1), balances,
      seq(|payments|, i requires 0 <= i < |payments| => payments[i].1),
      seq(|cases|, i requires 0 <= i < |cases| => cases[i].1),
      l.blocks, l.working.journal, l.working.nonces, l.working.issued);
    assert AccountPairs(s.accounts) == accounts;
    assert PaymentPairs(s.payments) == payments;
    assert CasePairs(s.cases) == cases;
  }

  ghost predicate KeyedTables(t: Tables) {
    && (forall a | a in t.accounts :: t.accounts[a].id == a)
    && (forall k | k in t.cases :: t.cases[k].id == k)
  }

  lemma SavedIsWellKeyed(t: Tables, b: Block)
    requires WellFormed(t) && KeyedTables(t) && ApplyBlock(Load(t), b).Ok?
    ensures WellKeyed(ApplyBlock(Load(t), b).value)
  {
    PaymentsOfLookup(t.rows, t.headers);
    var w := ApplyBlock(Load(t), b).value;
    forall p | p in w.payments ensures w.payments[p].transaction.id == p {
      SavedRecord(Load(t), b, p);
    }
  }

  // ---- Composing runs ----

  lemma {:induction false} ExecuteConcat(c: Config, s: State, a: seq<Action>, b: seq<Action>)
    requires Execute(c, s, a).Some?
    ensures Execute(c, s, a + b) == Execute(c, Execute(c, s, a).value, b)
    decreases |b|
  {
    if b == [] {
      assert a + b == a;
    } else {
      assert (a + b)[..|a + b| - 1] == a + b[..|b| - 1];
      ExecuteConcat(c, s, a, b[..|b| - 1]);
    }
  }

  lemma {:induction false} ExecuteOne(c: Config, s: State, a: Action)
    ensures Execute(c, s, [a]) == StepState(c, s, a)
  {
    assert [a][..0] == [];
  }

  lemma {:induction false} Then(c: Config, s: State, run: seq<Action>, m: State, a: Action, next: State)
    requires Execute(c, s, run) == Some(m) && StepState(c, m, a) == Some(next)
    ensures Execute(c, s, run + [a]) == Some(next)
  {
    ExecuteSnoc(c, s, run, a);
  }

  function At(s: State, p: nat, phase: Phase, t: Tables): State
    requires p in s.processes
  {
    Move(s, p, phase).(tables := t, lock := Some(p))
  }

  lemma AtMoves(s: State, p: nat, a: Phase, t: Tables, b: Phase)
    requires p in s.processes
    ensures Move(At(s, p, a, t), p, b) == At(s, p, b, t)
    ensures Move(s, p, b).(lock := Some(p)) == At(s, p, b, s.tables)
    ensures p in At(s, p, a, t).processes && At(s, p, a, t).processes[p] == Process(s.processes[p].validator, a)
  {
    var x, y := s.processes[p].(phase := a), s.processes[p].(phase := b);
    assert s.processes[p := x][p := y] == s.processes[p := y];
  }

  lemma {:induction false} FilterStep(c: Config, s: State, p: nat, t: Tables, l: Ledger, accepted: seq<Transaction>,
                                      rest: seq<Transaction>, reason: string)
    requires p in s.processes && rest != []
    ensures var (phase, after) := Judged(t, l, accepted, rest, reason);
            Execute(c, At(s, p, Filtering(l, accepted, rest), t), [FilterOne(p, reason)]) == Some(At(s, p, phase, after))
  {
    var here := At(s, p, Filtering(l, accepted, rest), t);
    var (phase, after) := Judged(t, l, accepted, rest, reason);
    AtMoves(s, p, here.processes[p].phase, t, phase);
    ExecuteOne(c, here, FilterOne(p, reason));
    assert JudgedState(here, p, reason) == At(s, p, phase, after);
  }

  /** The filtering steps, one per transaction of the page. */
  lemma {:induction false} FilterRun(c: Config, s: State, p: nat, t: Tables, l: Ledger, accepted: seq<Transaction>, rest: seq<Transaction>)
    returns (run: seq<Action>)
    requires p in s.processes
    ensures var f := FilterAll(t, l, accepted, rest);
            Execute(c, At(s, p, Filtering(l, accepted, rest), t), run) == Some(At(s, p, Filtering(l, f.accepted, []), f.tables))
    decreases |rest|
  {
    if rest == [] {
      run := [];
    } else {
      var verdict := l.DryRun(accepted + [rest[0]]);
      var reason := if verdict.Ok? then "" else Describe(verdict.error);
      var step := FilterOne(p, reason);
      var here := At(s, p, Filtering(l, accepted, rest), t);
      var (phase, after) := Judged(t, l, accepted, rest, reason);
      FilterStep(c, s, p, t, l, accepted, rest, reason);
      var more := FilterRun(c, s, p, after, l, phase.accepted, rest[1..]);
      run := [step] + more;
      ExecuteConcat(c, here, [step], more);
    }
  }

  /** An idle process with the lock free: the beginning and the end of an uninterrupted pass. */
  ghost predicate Undisturbed(c: Config, s: State, p: nat) {
    && ConfigOk(c) && Inv(c, s) && KeyedTables(s.tables)
    && p in s.processes && s.processes[p].phase.Idle? && s.lock == None
  }

  lemma OpeningRun(c: Config, s: State, p: nat) returns (run: seq<Action>)
    requires Undisturbed(c, s, p) && LeadsStore(c, s.tables, s.processes[p].validator)
    ensures Execute(c, s, run) == Some(At(s, p, Loaded(Load(s.tables)), s.tables))
  {
    var s1 := Move(s, p, Checked);
    var s2 := At(s, p, Locked, s.tables);
    var s3 := At(s, p, Loaded(Load(s.tables)), s.tables);
    assert Execute(c, s, []) == Some(s);
    Then(c, s, [], s, Begin(p), s1);
    assert Move(s1, p, Locked).(lock := Some(p)) == s2 by {
      assert s1.processes[p := s1.processes[p].(phase := Locked)] == s2.processes;
    }
    assert StepState(c, s1, TryLock(p)) == Some(s2);
    AtMoves(s, p, Locked, s.tables, Loaded(Load(s.tables)));
    Then(c, s, [] + [Begin(p)], s1, TryLock(p), s2);
    assert StepState(c, s2, ReloadLedger(p)) == Some(s3);
    Then(c, s, [] + [Begin(p)] + [TryLock(p)], s2, ReloadLedger(p), s3);
    run := [] + [Begin(p)] + [TryLock(p)] + [ReloadLedger(p)];
  }

  lemma ClosingStep(c: Config, s: State, p: nat, t: Tables)
    requires p in s.processes && s.processes[p].phase.Idle? && s.lock == None
    ensures StepState(c, At(s, p, Finishing, t), Release(p)) == Some(s.(tables := t))
  {
    AtMoves(s, p, Finishing, t, Idle);
    assert s.processes[p := s.processes[p].(phase := Idle)] == s.processes;
    assert Move(At(s, p, Finishing, t), p, Idle).(lock := None) == s.(tables := t);
  }

  lemma BuildStepIs(c: Config, s: State, p: nat, now: int)
    requires p in s.processes && s.processes[p].phase.Filtering? && s.processes[p].phase.rest == []
    ensures StepState(c, s, Build(p, now))
            == Some(Move(s, p, BuiltPhase(c, s.processes[p].phase.base, s.processes[p].phase.accepted, s.processes[p].validator, now)))
  {
  }

  lemma BuiltPhaseIs(c: Config, l: Ledger, accepted: seq<Transaction>, v: ValidatorId, now: int, b: Block)
    requires accepted != [] && BuildBlockForValidator(l, accepted, c.engine, c.crypto, v, now) == Ok(b)
    ensures BuiltPhase(c, l, accepted, v, now) == Built(l, b)
  {
  }

  lemma {:induction false} BuildStep(c: Config, s: State, p: nat, now: int, t: Tables, l: Ledger, accepted: seq<Transaction>, b: Block)
    requires p in s.processes && accepted != []
    requires BuildBlockForValidator(l, accepted, c.engine, c.crypto, s.processes[p].validator, now) == Ok(b)
    ensures Execute(c, At(s, p, Filtering(l, accepted, []), t), [Build(p, now)]) == Some(At(s, p, Built(l, b), t))
  {
    var here := At(s, p, Filtering(l, accepted, []), t);
    AtMoves(s, p, Filtering(l, accepted, []), t, Built(l, b));
    ExecuteOne(c, here, Build(p, now));
    BuildStepIs(c, here, p, now);
    BuiltPhaseIs(c, l, accepted, s.processes[p].validator, now, b);
  }

  lemma {:induction false} SaveStep(c: Config, s: State, p: nat, t: Tables, l: Ledger, b: Block, snapshot: Snapshot)
    requires p in s.processes && ApplyBlock(l, b).Ok? && IsSnapshot(snapshot, ApplyBlock(l, b).value)
    ensures Execute(c, At(s, p, Built(l, b), t), [SaveBlock(p, snapshot)]) == Some(At(s, p, Finishing, Save(t, snapshot)))
  {
    var here := At(s, p, Built(l, b), t);
    AtMoves(s, p, Built(l, b), t, Finishing);
    ExecuteOne(c, here, SaveBlock(p, snapshot));
    assert ProcessStep(c, here, SaveBlock(p, snapshot), p).Some?;
    SaveStepIs(c, here, p, snapshot);
  }

  lemma {:induction false} SaveOfPass(c: Config, t: Tables, v: ValidatorId, now: int, b: Block, snapshot: Snapshot)
    requires ConfigOk(c) && StoreInv(c.engine, c.crypto, c.genesis, t) && LeadsStore(c, t, v) && Selected(c, t) != []
    requires Pass(c, t, v, now).block == Some(b) && ApplyBlock(Load(t), b).Ok?
    requires IsSnapshot(snapshot, ApplyBlock(Load(t), b).value)
    ensures Save(FilterAll(t, Load(t), [], PendingPage(t.rows, c.maxTransactions)).tables, snapshot) == Pass(c, t, v, now).tables
  {
    var f := FilterAll(t, Load(t), [], PendingPage(t.rows, c.maxTransactions));
    assert WellFormed(f.tables) by {
      PassFilter(c, t, v);
    }
    PassFinalizes(c, t, v, now);
    SaveIsMerge(c.engine, c.crypto, f.tables, Load(t), b, snapshot);
  }

  /** What a saving pass builds and saves. */
  lemma SavingSnapshot(c: Config, t: Tables, v: ValidatorId, now: int) returns (b: Block, snapshot: Snapshot)
    requires ConfigOk(c) && StoreInv(c.engine, c.crypto, c.genesis, t) && KeyedTables(t)
    requires LeadsStore(c, t, v) && Selected(c, t) != []
    ensures BuildBlockForValidator(Load(t), Selected(c, t), c.engine, c.crypto, v, now) == Ok(b)
    ensures ApplyBlock(Load(t), b).Ok? && IsSnapshot(snapshot, ApplyBlock(Load(t), b).value)
    ensures Save(FilterAll(t, Load(t), [], PendingPage(t.rows, c.maxTransactions)).tables, snapshot) == Pass(c, t, v, now).tables
  {
    PassFinalizes(c, t, v, now);
    b := Pass(c, t, v, now).block.value;
    SavedIsWellKeyed(t, b);
    snapshot := SnapshotExists(ApplyBlock(Load(t), b).value);
    SaveOfPass(c, t, v, now, b, snapshot);
  }

  lemma SavingRun(c: Config, s: State, p: nat, now: int, f: Filtered) returns (run: seq<Action>)
    requires Undisturbed(c, s, p) && LeadsStore(c, s.tables, s.processes[p].validator)
    requires f == FilterAll(s.tables, Load(s.tables), [], PendingPage(s.tables.rows, c.maxTransactions))
    requires f.accepted == Selected(c, s.tables) != []
    ensures Execute(c, At(s, p, Filtering(Load(s.tables), f.accepted, []), f.tables), run)
            == Some(At(s, p, Finishing, Pass(c, s.tables, s.processes[p].validator, now).tables))
  {
    var l := Load(s.tables);
    var b, snapshot := SavingSnapshot(c, s.tables, s.processes[p].validator, now);
    BuildStep(c, s, p, now, f.tables, l, f.accepted, b);
    SaveStep(c, s, p, f.tables, l, b, snapshot);
    ExecuteConcat(c, At(s, p, Filtering(l, f.accepted, []), f.tables), [Build(p, now)], [SaveBlock(p, snapshot)]);
    run := [Build(p, now)] + [SaveBlock(p, snapshot)];
  }

  lemma {:induction false} ReadStep(c: Config, s: State, p: nat, t: Tables, l: Ledger)
    requires p in s.processes
    ensures var page := PendingPage(t.rows, c.maxTransactions);
            Execute(c, At(s, p, Loaded(l), t), [ReadPending(p)])
            == Some(At(s, p, if page == [] then Finishing else Filtering(l, [], page), t))
  {
    var page := PendingPage(t.rows, c.maxTransactions);
    AtMoves(s, p, Loaded(l), t, if page == [] then Finishing else Filtering(l, [], page));
    ExecuteOne(c, At(s, p, Loaded(l), t), ReadPending(p));
  }

  lemma {:induction false} EmptyBuildStep(c: Config, s: State, p: nat, now: int, t: Tables, l: Ledger)
    requires p in s.processes
    ensures Execute(c, At(s, p, Filtering(l, [], []), t), [Build(p, now)]) == Some(At(s, p, Finishing, t))
  {
    var here := At(s, p, Filtering(l, [], []), t);
    AtMoves(s, p, Filtering(l, [], []), t, Finishing);
    ExecuteOne(c, here, Build(p, now));
    BuildStepIs(c, here, p, now);
  }

  /** The run of a leader with something on its page. */
  lemma WorkingRun(c: Config, s: State, p: nat, now: int) returns (run: seq<Action>)
    requires Undisturbed(c, s, p) && LeadsStore(c, s.tables, s.processes[p].validator)
    requires PendingPage(s.tables.rows, c.maxTransactions) != []
    ensures Execute(c, At(s, p, Loaded(Load(s.tables)), s.tables), run)
            == Some(At(s, p, Finishing, Pass(c, s.tables, s.processes[p].validator, now).tables))
  {
    var t, l := s.tables, Load(s.tables);
    var page := PendingPage(t.rows, c.maxTransactions);
    var f := FilterAll(t, l, [], page);
    var s1 := At(s, p, Loaded(l), t);
    ReadStep(c, s, p, t, l);
    var filtering := FilterRun(c, s, p, t, l, [], page);
    ExecuteConcat(c, s1, [ReadPending(p)], filtering);
    var rest: seq<Action>;
    assert f.accepted == Selected(c, t) by {
      PassFilter(c, t, s.processes[p].validator);
    }
    if f.accepted == [] {
      rest := [Build(p, now)];
      EmptyBuildStep(c, s, p, now, f.tables, l);
    } else {
      rest := SavingRun(c, s, p, now, f);
    }
    ExecuteConcat(c, s1, [ReadPending(p)] + filtering, rest);
    run := [ReadPending(p)] + filtering + rest;
  }

  /** The atomic pass is what the protocol does when a validator runs from start to end undisturbed. */
  lemma PassIsARun(c: Config, s: State, p: nat, now: int) returns (run: seq<Action>)
    requires Undisturbed(c, s, p)
    ensures Execute(c, s, run) == Some(s.(tables := Pass(c, s.tables, s.processes[p].validator, now).tables))
  {
    var t, v := s.tables, s.processes[p].validator;
    var after := Pass(c, t, v, now).tables;
    if !LeadsStore(c, t, v) {
      run := [Begin(p)];
      ExecuteOne(c, s, Begin(p));
    } else {
      var opening := OpeningRun(c, s, p);
      var m := At(s, p, Loaded(Load(t)), t);
      var middle: seq<Action>;
      if PendingPage(t.rows, c.maxTransactions) == [] {
        middle := [ReadPending(p)];
        ReadStep(c, s, p, t, Load(t));
      } else {
        middle := WorkingRun(c, s, p, now);
      }
      ExecuteConcat(c, s, opening, middle);
      assert Execute(c, s, opening + middle) == Some(At(s, p, Finishing, after));
      ClosingStep(c, s, p, after);
      Then(c, s, opening + middle, At(s, p, Finishing, after), Release(p), s.(tables := after));
      run := opening + middle + [Release(p)];
    }
  }
}

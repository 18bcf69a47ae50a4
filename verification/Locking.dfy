/**
  The advisory lock of a validator pass (crates/kani-node/src/lib.rs:831-860; crates/kani-ledger/src/lib.rs:1109-1126)
  over whole runs: who holds it, that it is never left behind, and who may write under it.
 */
module Locking {
  import opened Wrappers
  import opened Types
  import opened Store
  import opened Consensus
  import opened Blocks
  import opened Protocol
  import opened Approvals
  import opened Merging

  /** A taken lock has a holder inside the locked part of a pass. */
  ghost predicate LockIsHeld(s: State) {
    s.lock.Some? ==> s.lock.value in s.processes && HoldsLock(s.processes[s.lock.value].phase)
  }

  lemma {:induction false} StepLock(c: Config, s: State, a: Action)
    requires Inv(c, s) && LockIsHeld(s) && StepState(c, s, a).Some?
    ensures LockIsHeld(StepState(c, s, a).value)
  {
    if IsApi(a) {
      ApiKeepsProcesses(c, s, a);
    } else {
      ProcessLock(c, s, a, a.p);
    }
  }

  lemma {:induction false} ApiKeepsProcesses(c: Config, s: State, a: Action)
    requires ApiStep(c, s, a).Some?
    ensures ApiStep(c, s, a).value.processes == s.processes && ApiStep(c, s, a).value.lock == s.lock
  {
  }

  lemma {:induction false} ProcessLock(c: Config, s: State, a: Action, p: nat)
    requires Inv(c, s) && LockIsHeld(s) && ProcessStep(c, s, a, p).Some?
    ensures LockIsHeld(ProcessStep(c, s, a, p).value)
  {
  }

  lemma {:induction false} RunsKeepLock(c: Config, s: State, actions: seq<Action>)
    requires ConfigOk(c) && Initial(c, s) && Execute(c, s, actions).Some?
    ensures Inv(c, Execute(c, s, actions).value) && LockIsHeld(Execute(c, s, actions).value)
    decreases |actions|
  {
    InitialInv(c, s);
    if actions != [] {
      var front, a := actions[..|actions| - 1], actions[|actions| - 1];
      RunsKeepLock(c, s, front);
      StepLock(c, Execute(c, s, front).value, a);
      StepKeepsInv(c, Execute(c, s, front).value, a);
    }
  }

  /**
    In every state of every run the lock is taken by a process if and only if that process is inside the locked
    part of its pass; so it is never left behind, and ending that pass at whatever point frees it.
   */
  lemma {:induction false} TakenIffInside(c: Config, s: State, actions: seq<Action>, p: nat)
    requires ConfigOk(c) && Initial(c, s) && Execute(c, s, actions).Some?
    ensures var m := Execute(c, s, actions).value;
            && (m.lock == Some(p) <==> p in m.processes && HoldsLock(m.processes[p].phase))
            && (m.lock == Some(p) ==> StepState(c, m, Abort(p)).Some? && StepState(c, m, Abort(p)).value.lock == None)
  {
    RunsKeepLock(c, s, actions);
  }

  lemma PhaseLeads(c: Config, t: Tables, process: Process)
    requires PhaseInv(c, t, process) && (process.phase.Filtering? || process.phase.Built?)
    ensures c.engine.LeaderForHeight(|Chain(t)| + 1) == Ok(process.validator)
  {
  }

  lemma {:induction false} WriterIsInside(c: Config, s: State, a: Action)
    requires !IsApi(a) && StepState(c, s, a).Some? && StepState(c, s, a).value.tables != s.tables
    ensures a.p in s.processes && (s.processes[a.p].phase.Filtering? || s.processes[a.p].phase.Built?)
  {
    StepShape(c, s, a, a.p);
  }

  lemma {:induction false} WriterLeads(c: Config, s: State, a: Action)
    requires Inv(c, s) && !IsApi(a) && StepState(c, s, a).Some? && StepState(c, s, a).value.tables != s.tables
    ensures a.p in s.processes && s.lock == Some(a.p)
    ensures c.engine.LeaderForHeight(|Chain(s.tables)| + 1) == Ok(s.processes[a.p].validator)
  {
    WriterIsInside(c, s, a);
    assert PhaseInv(c, s.tables, s.processes[a.p]);
    PhaseLeads(c, s.tables, s.processes[a.p]);
  }

  /**
    In every run only the holder of the lock, and only as the leader of the next height, ever writes to the store:
    neither a block nor a rejection comes from anyone else.
   */
  lemma {:induction false} OnlyTheLeaderWrites(c: Config, s: State, actions: seq<Action>, a: Action)
    requires ConfigOk(c) && Initial(c, s) && Execute(c, s, actions).Some? && !IsApi(a)
    requires var m := Execute(c, s, actions).value;
             StepState(c, m, a).Some? && StepState(c, m, a).value.tables != m.tables
    ensures var m := Execute(c, s, actions).value;
            && a.p in m.processes && m.lock == Some(a.p)
            && c.engine.LeaderForHeight(|Chain(m.tables)| + 1) == Ok(m.processes[a.p].validator)
  {
    RunsKeepLock(c, s, actions);
    WriterLeads(c, Execute(c, s, actions).value, a);
  }
}

/**
  Rotation fairness in every run of the protocol (crates/kani-node/src/lib.rs:819-915, 1028-1056;
  crates/kani-api/src/lib.rs:2612-2695): every stored block carries its height's vote window.
 */
module FairRuns {
  import opened Wrappers
  import opened Types
  import opened Ledgers
  import opened Store
  import opened Merging
  import opened Consensus
  import opened Blocks
  import opened Protocol
  import opened Safety
  import opened Reports

  ghost predicate HasWindow(e: Engine, b: Block) {
    e.FinalityVotesForBlock(b.height) == Ok(b.finalizedBy)
  }

  ghost predicate WindowInv(c: Config, s: State) {
    && Windowed(c.engine, Chain(s.tables))
    && forall p | p in s.processes && s.processes[p].phase.Built? :: HasWindow(c.engine, s.processes[p].phase.block)
  }

  lemma BuilderUsesWindow(l: Ledger, txs: seq<Transaction>, e: Engine, crypto: Crypto, validator: ValidatorId, now: int)
    requires BuildBlockForValidator(l, txs, e, crypto, validator, now).Ok?
    ensures HasWindow(e, BuildBlockForValidator(l, txs, e, crypto, validator, now).value)
  {
  }

  /** A process step leaves every built block as it is, or builds one. */
  lemma BuiltBlocks(c: Config, s: State, a: Action, p: nat, q: nat)
    requires ProcessStep(c, s, a, p).Some? && q in ProcessStep(c, s, a, p).value.processes
    requires ProcessStep(c, s, a, p).value.processes[q].phase.Built?
    requires forall r | r in s.processes && s.processes[r].phase.Built? :: HasWindow(c.engine, s.processes[r].phase.block)
    ensures HasWindow(c.engine, ProcessStep(c, s, a, p).value.processes[q].phase.block)
  {
    if q == p && a.Build? && s.processes[p].phase.Filtering? {
      var Filtering(l, accepted, rest) := s.processes[p].phase;
      BuilderUsesWindow(l, accepted, c.engine, c.crypto, s.processes[p].validator, a.now);
    }
  }

  lemma SaveWindow(c: Config, s: State, p: nat, snapshot: Snapshot)
    requires ConfigOk(c) && Inv(c, s) && WindowInv(c, s) && p in s.processes && s.processes[p].phase.Built?
    requires ProcessStep(c, s, SaveBlock(p, snapshot), p).Some?
    ensures Windowed(c.engine, Chain(ProcessStep(c, s, SaveBlock(p, snapshot), p).value.tables))
  {
    var l, b := s.processes[p].phase.base, s.processes[p].phase.block;
    assert StoreInv(c.engine, c.crypto, c.genesis, s.tables) && Ready(c.engine, c.crypto, s.tables, l, b) && HasWindow(c.engine, b) by {
      assert PhaseInv(c, s.tables, s.processes[p]);
    }
    SaveStepInv(c, s, p, snapshot);
    MergeExtendsChain(c.engine, c.crypto, s.tables, l, b);
  }

  lemma StepChainWindow(c: Config, s: State, a: Action)
    requires ConfigOk(c) && Inv(c, s) && WindowInv(c, s) && StepState(c, s, a).Some?
    ensures Windowed(c.engine, Chain(StepState(c, s, a).value.tables))
  {
    if a.SaveBlock? && s.processes[a.p].phase.Built? {
      SaveWindow(c, s, a.p, a.snapshot);
    } else {
      StepKeepsChain(c, s, a);
    }
  }

  lemma StepKeepsChain(c: Config, s: State, a: Action)
    requires ConfigOk(c) && Inv(c, s) && StepState(c, s, a).Some?
    requires !(a.SaveBlock? && s.processes[a.p].phase.Built?)
    ensures Chain(StepState(c, s, a).value.tables) == Chain(s.tables)
  {
    if IsApi(a) {
      ApiStepKeepsInv(c, s, a);
    } else if a.FilterOne? && s.processes[a.p].phase.Filtering? {
      FilterStepInv(c, s, a.p, a.reason);
    }
  }

  lemma StepKeepsWindow(c: Config, s: State, a: Action)
    requires ConfigOk(c) && Inv(c, s) && WindowInv(c, s) && StepState(c, s, a).Some?
    ensures WindowInv(c, StepState(c, s, a).value)
  {
    StepChainWindow(c, s, a);
    var next := StepState(c, s, a).value;
    forall q | q in next.processes && next.processes[q].phase.Built? ensures HasWindow(c.engine, next.processes[q].phase.block) {
      if !IsApi(a) {
        BuiltBlocks(c, s, a, a.p, q);
      }
    }
  }

  lemma {:induction false} RunsKeepWindow(c: Config, s: State, actions: seq<Action>)
    requires ConfigOk(c) && Inv(c, s) && WindowInv(c, s) && Execute(c, s, actions).Some?
    ensures Inv(c, Execute(c, s, actions).value) && WindowInv(c, Execute(c, s, actions).value)
    decreases |actions|
  {
    if actions != [] {
      var front := actions[..|actions| - 1];
      RunsKeepWindow(c, s, front);
      StepKeepsInv(c, Execute(c, s, front).value, actions[|actions| - 1]);
      StepKeepsWindow(c, Execute(c, s, front).value, actions[|actions| - 1]);
    }
  }

  /**
    Fairness in every run of every interleaving: for the finality report over the stored chain, each active
    validator has produced its share of blocks to within one and voted its share to within one threshold,
    and no block is below the report's threshold.
   */
  lemma {:induction false} EveryRunIsFair(c: Config, s: State, actions: seq<Action>, blocks: seq<Block>, v: ValidatorId)
    requires ConfigOk(c) && Initial(c, s) && Execute(c, s, actions).Some? && v in c.engine.Active()
    requires multiset(blocks) == multiset(Chain(Execute(c, s, actions).value.tables))
    ensures var q, t := |blocks| / |c.engine.Active()|, c.engine.Threshold();
            && q <= Produced(blocks, v) <= q + 1
            && q * t <= Voted(blocks, v) <= q * t + t
            && Below(blocks, PoaThreshold(|c.engine.Active()|)) == 0
  {
    InitialInv(c, s);
    RunsKeepWindow(c, s, actions);
    var chain := Chain(Execute(c, s, actions).value.tables);
    assert |multiset(blocks)| == |multiset(chain)|;
    ProductionIsFair(c.engine, c.crypto, chain, blocks, v);
    VotingIsFair(c.engine, chain, blocks, v);
  }
}

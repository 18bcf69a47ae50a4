/**
  `ensure_sandbox_seed` (crates/kani-ledger/src/lib.rs:875-888; crates/kani-node/src/lib.rs:187-201, 794-801): it
  loads the store, and saves the sandbox when it has found no account. The two are not one transaction and take
  no lock; this is what a save does that comes late, when the store is already in use.
 */
module Seeding {
  import opened Wrappers
  import opened Types
  import opened Ledgers
  import opened LedgerCore
  import opened Store
  import opened Reload
  import opened Merging
  import opened Consensus
  import opened Blocks
  import opened Protocol
  import opened StaleRun

  /** Every balance the seed writes is zero in the store already. */
  predicate NothingMoved(t: Tables) {
    forall k | k in Sandbox().working.balances :: k in t.balances && t.balances[k] == 0
  }

  /** The save of the sandbox writes accounts and balances, and nothing else. */
  lemma {:induction false} SeedSave(t: Tables, s: Snapshot)
    requires IsSnapshot(s, Sandbox())
    ensures Save(t, s) == t.(accounts := t.accounts + Sandbox().accounts, balances := t.balances + Sandbox().working.balances)
  {
    CollectListing(AccountPairs(s.accounts), Sandbox().accounts);
    CollectListing(s.balances, Sandbox().working.balances);
    NoPairs(PaymentPairs(s.payments));
    NoPairs(CasePairs(s.cases));
    assert s.payments == [] && s.cases == [];
    assert CasePairs([]) == [] && t.cases + map[] == t.cases;
  }

  lemma NoPairs<K, V>(pairs: seq<(K, V)>)
    requires Lists(pairs, map[])
    ensures pairs == []
  {
    if pairs != [] {
      SomePairs(pairs);
      CollectListing(pairs, map[]);
      assert false;
    }
  }

  lemma {:induction false} SomePairs<K, V>(pairs: seq<(K, V)>)
    requires pairs != []
    ensures Collect(pairs) != map[]
  {
    assert pairs[|pairs| - 1].0 in Collect(pairs);
  }

  /** Two stores in order with the same chain hold the same money. */
  lemma {:induction false} SameChainSameMoney(e: Engine, crypto: Crypto, genesis: Ledger, a: Tables, b: Tables)
    requires StoreInv(e, crypto, genesis, a) && StoreInv(e, crypto, genesis, b) && Chain(a) == Chain(b)
    ensures a.balances == b.balances && a.accounts == b.accounts == genesis.accounts
  {
    assert Load(a).working.balances == a.balances && Load(b).working.balances == b.balances;
  }

  lemma OverlayIff<K, V>(m: map<K, V>, overlay: map<K, V>)
    ensures m + overlay == m <==> forall k | k in overlay :: k in m && m[k] == overlay[k]
  {
    if m + overlay == m {
      forall k | k in overlay ensures k in m && m[k] == overlay[k] {
        assert k in m + overlay && (m + overlay)[k] == overlay[k];
      }
    }
  }

  lemma {:induction false} OverlayKeepsStore(e: Engine, crypto: Crypto, genesis: Ledger, t: Tables, after: Tables)
    requires StoreInv(e, crypto, genesis, t)
    requires after == t.(accounts := t.accounts + genesis.accounts, balances := t.balances + genesis.working.balances)
    ensures StoreInv(e, crypto, genesis, after) <==> after.balances == t.balances
    ensures after.balances == t.balances ==> after == t
  {
    assert t.accounts == genesis.accounts;
    assert genesis.accounts + genesis.accounts == genesis.accounts;
    assert Chain(after) == Chain(t);
    if StoreInv(e, crypto, genesis, after) {
      SameChainSameMoney(e, crypto, genesis, t, after);
    }
  }

  /**
    A late seed leaves a store in use in order exactly when no money has moved: otherwise it puts balances back
    to zero that the chain says are not.
   */
  lemma {:induction false} LateSeedIff(e: Engine, crypto: Crypto, t: Tables, s: Snapshot)
    requires StoreInv(e, crypto, Sandbox(), t) && IsSnapshot(s, Sandbox())
    ensures StoreInv(e, crypto, Sandbox(), Save(t, s)) <==> NothingMoved(t)
    ensures NothingMoved(t) ==> Save(t, s) == t
  {
    SeedSave(t, s);
    OverlayIff(t.balances, Sandbox().working.balances);
    OverlayKeepsStore(e, crypto, Sandbox(), t, Save(t, s));
  }

  /** In a store whose only block funds CORP_A, for one, a late seed breaks the books. */
  lemma {:induction false} LateSeedBreaks(c: Config, t: Tables, s: Snapshot)
    requires c.genesis == Sandbox() && OnlyFunding(c, t) && IsSnapshot(s, Sandbox())
    ensures !StoreInv(c.engine, c.crypto, c.genesis, Save(t, s))
  {
    FundedMoney(c, t);
    LateSeedIff(c.engine, c.crypto, t, s);
    assert (CORP_A_ACCOUNT, KCAD_TEST) in Sandbox().working.balances;
  }

  /** And such a store is reached from every start over the sandbox. */
  lemma {:induction false} LateSeedRun(c: Config, s: State, p: nat, q: nat, now: int, snapshot: Snapshot) returns (run: seq<Action>)
    requires Start(c, s, p, q) && IsSnapshot(snapshot, Sandbox())
    ensures Execute(c, s, run).Some?
    ensures var t := Execute(c, s, run).value.tables;
            StoreInv(c.engine, c.crypto, c.genesis, t) && !StoreInv(c.engine, c.crypto, c.genesis, Save(t, snapshot))
  {
    var m: State;
    run, m := FundedState(c, s, p, q, now);
    LateSeedBreaks(c, m.tables, snapshot);
  }
}

/**
  The greedy filter over the pending page (crates/kani-node/src/lib.rs:873-906). The source
  revalidates the whole candidate list from scratch for every transaction; that equals one pass
  carrying a working state, and what it selects can always be built, verified and applied.
 */
module Selection {
  import opened Wrappers
  import opened Types
  import opened Ledgers
  import opened LedgerCore
  import opened Consensus
  import opened Blocks
  import IM = InMemory

  datatype Split = Split(accepted: seq<Transaction>, rejected: seq<Transaction>)

  /** The source's loop: every candidate list is revalidated against the untouched ledger. */
  function Revalidated(l: Ledger, page: seq<Transaction>): Split {
    if page == [] then Split([], [])
    else
      var before, tx := Revalidated(l, page[..|page| - 1]), page[|page| - 1];
      if l.DryRun(before.accepted + [tx]).Ok?
      then before.(accepted := before.accepted + [tx])
      else before.(rejected := before.rejected + [tx])
  }

  /** The working state after one pass that skips every transaction that does not apply. */
  function Carried(l: Ledger, page: seq<Transaction>): Working {
    if page == [] then l.working
    else
      var before := Carried(l, page[..|page| - 1]);
      var stepped := StepTransaction(l.accounts, page[|page| - 1], l.NextHeight(), before);
      if stepped.Ok? then stepped.value else before
  }

  /** Whether the pass takes the transaction at a position of the page. */
  predicate Taken(l: Ledger, page: seq<Transaction>, i: nat)
    requires i < |page|
  {
    StepTransaction(l.accounts, page[i], l.NextHeight(), Carried(l, page[..i])).Ok?
  }

  /** The transactions of a page, in order, at the positions taken (or skipped) by one pass. */
  function Sift(l: Ledger, page: seq<Transaction>, taken: bool): seq<Transaction> {
    if page == [] then []
    else
      var n := |page| - 1;
      Sift(l, page[..n], taken) + (if Taken(l, page, n) == taken then [page[n]] else [])
  }

  /**
    Revalidation from scratch computes exactly the one-pass filter: what it accepts are the positions
    taken, what it rejects are the others, both in page order, and the carried state is the fold of
    the accepted ones.
   */
  lemma {:induction false} RevalidationIsOnePass(l: Ledger, page: seq<Transaction>)
    ensures Revalidated(l, page) == Split(Sift(l, page, true), Sift(l, page, false))
    ensures ApplyAll(l.accounts, Revalidated(l, page).accepted, l.NextHeight(), l.working) == Ok(Carried(l, page))
    decreases |page|
  {
    if page != [] {
      var front, tx := page[..|page| - 1], page[|page| - 1];
      RevalidationIsOnePass(l, front);
      ApplyAllSnoc(l.accounts, Revalidated(l, front).accepted, tx, l.NextHeight(), l.working);
    }
  }

  /** Each transaction is accepted exactly when it is valid after the accepted ones before it. */
  lemma {:induction false} EachVerdict(l: Ledger, page: seq<Transaction>, i: nat)
    requires i < |page|
    ensures Taken(l, page, i) <==> l.DryRun(Revalidated(l, page[..i]).accepted + [page[i]]).Ok?
    ensures Revalidated(l, page[..i + 1])
            == if Taken(l, page, i)
               then Revalidated(l, page[..i]).(accepted := Revalidated(l, page[..i]).accepted + [page[i]])
               else Revalidated(l, page[..i]).(rejected := Revalidated(l, page[..i]).rejected + [page[i]])
  {
    assert page[..i + 1][..i] == page[..i];
    RevalidationIsOnePass(l, page[..i]);
    ApplyAllSnoc(l.accounts, Revalidated(l, page[..i]).accepted, page[i], l.NextHeight(), l.working);
  }

  /** Accepted and rejected share the page between them: nothing lost, nothing invented, nothing counted twice. */
  lemma {:induction false} SplitPartitions(l: Ledger, page: seq<Transaction>)
    ensures var s := Revalidated(l, page);
            && multiset(s.accepted) + multiset(s.rejected) == multiset(page)
            && |s.accepted| + |s.rejected| == |page|
    decreases |page|
  {
    if page != [] {
      var front, tx := page[..|page| - 1], page[|page| - 1];
      var before := Revalidated(l, front);
      SplitPartitions(l, front);
      assert page == front + [tx];
      ShareOneMore(before.accepted, before.rejected, front, tx);
    }
  }

  lemma ShareOneMore<T>(a: seq<T>, b: seq<T>, whole: seq<T>, x: T)
    requires multiset(a) + multiset(b) == multiset(whole)
    ensures multiset(a + [x]) + multiset(b) == multiset(whole + [x])
    ensures multiset(a) + multiset(b + [x]) == multiset(whole + [x])
  {
    MultisetSnoc(a, x);
    MultisetSnoc(b, x);
    MultisetSnoc(whole, x);
  }

  lemma MultisetSnoc<T>(s: seq<T>, x: T)
    ensures multiset(s + [x]) == multiset(s) + multiset{x}
  {
  }

  lemma {:induction false} OneMoreAccepts(l: Ledger, front: seq<Transaction>, tx: Transaction)
    ensures Revalidated(l, front + [tx]).accepted != [] <==> Revalidated(l, front).accepted != [] || l.DryRun([tx]).Ok?
  {
    assert (front + [tx])[..|front|] == front;
    assert [] + [tx] == [tx];
  }

  /** Something is accepted exactly when some transaction of the page is valid on its own. */
  lemma {:induction false} AcceptsSomethingIff(l: Ledger, page: seq<Transaction>)
    ensures Revalidated(l, page).accepted != [] <==> exists tx :: tx in page && l.DryRun([tx]).Ok?
    decreases |page|
  {
    if page != [] {
      var front, tx := page[..|page| - 1], page[|page| - 1];
      AcceptsSomethingIff(l, front);
      OneMoreAccepts(l, front, tx);
      assert page == front + [tx];
    }
  }

  /**
    The selected batch always becomes a block: the leader's build succeeds, verification accepts it
    and application cannot fail, so the branch that rejects a whole built block is unreachable.
   */
  lemma {:induction false} SelectedBatchFinalizes(l: Ledger, page: seq<Transaction>, e: Engine, crypto: Crypto, validator: ValidatorId, now: int)
    requires e.Configured() && HashNonEmpty(crypto)
    requires e.LeaderForHeight(l.NextHeight()) == Ok(validator)
    requires Revalidated(l, page).accepted != []
    ensures var built := BuildBlockForValidator(l, Revalidated(l, page).accepted, e, crypto, validator, now);
            && built.Ok?
            && Endorsed(e, crypto, built.value)
            && VerifyBlock(l, built.value, e, crypto).Ok?
            && ApplyBlock(l, built.value).Ok?
            && ApplyBlock(l, built.value).value.working == Carried(l, page)
  {
    RevalidationIsOnePass(l, page);
    var accepted := Revalidated(l, page).accepted;
    BuildingCannotFail(l, accepted, e, crypto, validator, now);
    VerifyIffEndorsed(l, BuildBlockForValidator(l, accepted, e, crypto, validator, now).value, e, crypto);
  }

  /** The loop that grows `accepted`. */
  method SelectTransactions(ledger: IM.InMemoryLedger, pending: seq<Transaction>) returns (s: Split)
    ensures s == Split(Sift(ledger.Value(), pending, true), Sift(ledger.Value(), pending, false))
    ensures ledger.Value().DryRun(s.accepted).Ok?
  {
    var l := ledger.Value();
    var accepted, rejected := [], [];
    var i := 0;
    while i < |pending|
      invariant 0 <= i <= |pending|
      invariant Split(accepted, rejected) == Revalidated(l, pending[..i])
    {
      var tx := pending[i];
      assert pending[..i + 1][..i] == pending[..i];
      var candidate := accepted + [tx];
      var verdict := ledger.ValidateTransactionsForNextBlock(candidate);
      if verdict.Err? {
        rejected := rejected + [tx];
      } else {
        accepted := accepted + [tx];
      }
      i := i + 1;
    }
    assert pending[..i] == pending;
    RevalidationIsOnePass(l, pending);
    return Split(accepted, rejected);
  }
}

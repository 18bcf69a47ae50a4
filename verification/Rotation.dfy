/**
  Fairness of the round-robin leader and of the rotating vote window
  (crates/kani-consensus/src/lib.rs:255-321, 513-548): over any n consecutive heights every active
  validator leads exactly once and votes exactly threshold times.
 */
module Rotation {
  import opened Wrappers
  import opened Types
  import opened Consensus
  import opened Modular

  /** How many heights from `lo` up to but not including `hi` satisfy `p`. */
  ghost function CountHeights(p: int -> bool, lo: int, hi: int): nat
    decreases hi - lo
  {
    if hi <= lo then 0 else CountHeights(p, lo, hi - 1) + (if p(hi - 1) then 1 else 0)
  }

  lemma {:induction false} CountSplit(p: int -> bool, lo: int, mid: int, hi: int)
    requires lo <= mid <= hi
    ensures CountHeights(p, lo, hi) == CountHeights(p, lo, mid) + CountHeights(p, mid, hi)
    decreases hi - mid
  {
    if mid < hi {
      CountSplit(p, lo, mid, hi - 1);
    }
  }

  lemma {:induction false} CountConstant(p: int -> bool, lo: int, hi: int, value: bool)
    requires lo <= hi && forall h | lo <= h < hi :: p(h) == value
    ensures CountHeights(p, lo, hi) == if value then hi - lo else 0
    decreases hi - lo
  {
    if lo < hi {
      CountConstant(p, lo, hi - 1, value);
    }
  }

  ghost predicate Periodic(p: int -> bool, n: nat) {
    forall h | h >= 1 :: p(h) == p(h + n)
  }

  /** A window of one period can slide without changing its count. */
  lemma {:induction false} WindowSlides(p: int -> bool, n: nat, lo: int, hi: int)
    requires Periodic(p, n) && 1 <= lo <= hi
    ensures CountHeights(p, lo, lo + n) == CountHeights(p, hi, hi + n)
    decreases hi - lo
  {
    if lo < hi {
      WindowSlides(p, n, lo + 1, hi);
      CountSplit(p, lo, lo + 1, lo + n + 1);
      CountSplit(p, lo, lo + n, lo + n + 1);
      CountConstant(p, lo, lo + 1, p(lo));
      CountConstant(p, lo + n, lo + n + 1, p(lo + n));
    }
  }

  /** Over a whole number of periods the counts add up; the rest is at most one more window. */
  lemma {:induction false} CountPeriods(p: int -> bool, n: nat, k: nat, q: nat)
    requires Periodic(p, n) && CountHeights(p, 1, 1 + n) == k
    ensures CountHeights(p, 1, 1 + q * n) == q * k
    decreases q
  {
    if q > 0 {
      CountPeriods(p, n, k, q - 1);
      assert q * n == (q - 1) * n + n && q * k == (q - 1) * k + k;
      assert (q - 1) * n >= 0;
      WindowSlides(p, n, 1, 1 + (q - 1) * n);
      CountSplit(p, 1, 1 + (q - 1) * n, 1 + q * n);
    }
  }

  /** The count over m = q * n + r heights: q full periods and at most one more window. */
  lemma CountUpTo(p: int -> bool, n: nat, k: nat, m: nat, q: nat, r: nat)
    requires Periodic(p, n) && CountHeights(p, 1, 1 + n) == k && m == q * n + r && r < n
    ensures q * k <= CountHeights(p, 1, 1 + m) <= q * k + k
  {
    var full := 1 + q * n;
    CountPeriods(p, n, k, q);
    CountSplit(p, 1, full, 1 + m);
    CountSplit(p, full, 1 + m, full + n);
    WindowSlides(p, n, 1, full);
  }

  // ---- Leading and voting ----

  /** The validator at a place of the window that starts with the height's leader. */
  function Slot(ids: seq<ValidatorId>, height: int, offset: int): ValidatorId
    requires ids != []
  {
    ids[(height - 1 + offset) % |ids|]
  }

  /** The validator is one of the first `t` of that window. */
  ghost predicate InWindow(ids: seq<ValidatorId>, t: nat, v: ValidatorId, height: int)
    requires ids != []
  {
    height >= 1 && exists offset: nat :: offset < t && Slot(ids, height, offset) == v
  }

  ghost predicate LeadsAt(e: Engine, v: ValidatorId, height: int) {
    e.LeaderForHeight(height) == Ok(v)
  }

  ghost predicate VotesAt(e: Engine, v: ValidatorId, height: int) {
    e.FinalityVotesForBlock(height).Ok? && v in e.FinalityVotesForBlock(height).value
  }

  lemma LeadingIsWindowOne(e: Engine, v: ValidatorId, height: int)
    requires |e.Active()| >= 3
    ensures LeadsAt(e, v, height) <==> InWindow(e.Active(), 1, v, height)
  {
    if height >= 1 {
      assert Slot(e.Active(), height, 0) == e.Active()[(height - 1) % |e.Active()|];
    }
  }

  lemma VoteAtOffset(e: Engine, height: int, offset: nat)
    requires e.Configured() && height >= 1 && offset < e.Threshold()
    ensures e.FinalityVotesForBlock(height).Ok? && |e.FinalityVotesForBlock(height).value| == e.Threshold()
    ensures e.FinalityVotesForBlock(height).value[offset] == Slot(e.Active(), height, offset)
  {
    LeaderIsActive(e, height);
    ModReduce(height - 1, offset, |e.Active()|);
  }

  lemma VotingIsWindow(e: Engine, v: ValidatorId, height: int)
    requires e.Configured()
    ensures VotesAt(e, v, height) <==> InWindow(e.Active(), e.Threshold(), v, height)
  {
    if height >= 1 {
      ThresholdFits(e);
      forall offset: nat | offset < e.Threshold()
        ensures e.FinalityVotesForBlock(height).Ok? && |e.FinalityVotesForBlock(height).value| == e.Threshold()
        ensures e.FinalityVotesForBlock(height).value[offset] == Slot(e.Active(), height, offset)
      {
        VoteAtOffset(e, height, offset);
      }
      VoteAtOffset(e, height, 0);
    }
  }

  lemma SlotRepeats(ids: seq<ValidatorId>, height: int, offset: int)
    requires ids != []
    ensures Slot(ids, height + |ids|, offset) == Slot(ids, height, offset)
  {
    ModMultiple(height - 1 + offset, 1, |ids|);
    assert height - 1 + offset + 1 * |ids| == height + |ids| - 1 + offset;
  }

  lemma WindowRepeats(ids: seq<ValidatorId>, t: nat, v: ValidatorId, height: int)
    requires ids != [] && height >= 1
    ensures InWindow(ids, t, v, height + |ids|) <==> InWindow(ids, t, v, height)
  {
    var later := height + |ids|;
    if InWindow(ids, t, v, height) {
      var offset: nat :| offset < t && Slot(ids, height, offset) == v;
      SlotRepeats(ids, height, offset);
      assert Slot(ids, later, offset) == v;
    }
    if InWindow(ids, t, v, later) {
      var offset: nat :| offset < t && Slot(ids, later, offset) == v;
      SlotRepeats(ids, height, offset);
      assert Slot(ids, height, offset) == v;
    }
  }

  lemma WindowIsPeriodic(ids: seq<ValidatorId>, t: nat, v: ValidatorId)
    requires ids != []
    ensures Periodic(h => InWindow(ids, t, v, h), |ids|)
  {
    forall h | h >= 1 ensures InWindow(ids, t, v, h) == InWindow(ids, t, v, h + |ids|) {
      WindowRepeats(ids, t, v, h);
    }
  }

  /** The slot that holds id number `j`, in the n heights after `j` last led. */
  lemma SlotOf(ids: seq<ValidatorId>, j: nat, height: int, offset: nat)
    requires Distinct(ids) && j < |ids| && offset < |ids| && j + 2 <= height < j + |ids| + 2
    ensures Slot(ids, height, offset) == ids[j] <==> offset == j + |ids| + 1 - height
  {
    var n, d := |ids|, j + |ids| + 1 - height;
    ModMultiple(j, 1, n);
    DivModUnique(j, n, 0, j);
    assert (height - 1 + d) % n == j;
    if (height - 1 + offset) % n == j {
      ModReduce(height - 1, offset, n);
      ModReduce(height - 1, d, n);
      WindowWraps(n, (height - 1) % n, offset, d);
    }
  }

  /** In those heights the validator is in the window exactly at the last `t` of them. */
  lemma WindowTail(ids: seq<ValidatorId>, t: nat, j: nat, height: int)
    requires Distinct(ids) && j < |ids| && t <= |ids| && j + 2 <= height < j + |ids| + 2
    ensures InWindow(ids, t, ids[j], height) <==> height >= j + |ids| - t + 2
  {
    forall offset: nat | offset < |ids| ensures Slot(ids, height, offset) == ids[j] <==> offset == j + |ids| + 1 - height {
      SlotOf(ids, j, height, offset);
    }
    assert Slot(ids, height, j + |ids| + 1 - height) == ids[j];
  }

  /** A stretch of `n` heights of which exactly the last `t` satisfy `p`. */
  lemma TailCount(p: int -> bool, lo: int, n: nat, t: nat)
    requires t <= n && forall h | lo <= h < lo + n :: p(h) <==> h >= lo + n - t
    ensures CountHeights(p, lo, lo + n) == t
  {
    CountConstant(p, lo, lo + n - t, false);
    CountConstant(p, lo + n - t, lo + n, true);
    CountSplit(p, lo, lo + n - t, lo + n);
  }

  lemma WindowCount(ids: seq<ValidatorId>, t: nat, v: ValidatorId, start: int)
    requires Distinct(ids) && v in ids && t <= |ids| && start >= 1
    ensures CountHeights(h => InWindow(ids, t, v, h), start, start + |ids|) == t
  {
    var n, p := |ids|, h => InWindow(ids, t, v, h);
    var j: nat :| j < n && ids[j] == v;
    forall h | j + 2 <= h < j + 2 + n ensures p(h) <==> h >= j + 2 + n - t {
      WindowTail(ids, t, j, h);
    }
    TailCount(p, j + 2, n, t);
    WindowIsPeriodic(ids, t, v);
    WindowSlides(p, n, 1, j + 2);
    WindowSlides(p, n, 1, start);
  }

  lemma {:induction false} CountSame(p: int -> bool, q: int -> bool, lo: int, hi: int)
    requires forall h | lo <= h < hi :: p(h) == q(h)
    ensures CountHeights(p, lo, hi) == CountHeights(q, lo, hi)
    decreases hi - lo
  {
    if lo < hi {
      CountSame(p, q, lo, hi - 1);
    }
  }

  lemma LeadsAsWindow(e: Engine, v: ValidatorId, lo: int, hi: int)
    requires e.Configured()
    ensures CountHeights(h => LeadsAt(e, v, h), lo, hi) == CountHeights(h => InWindow(e.Active(), 1, v, h), lo, hi)
  {
    var p, w := h => LeadsAt(e, v, h), h => InWindow(e.Active(), 1, v, h);
    forall h ensures p(h) == w(h) {
      LeadingIsWindowOne(e, v, h);
    }
    CountSame(p, w, lo, hi);
  }

  lemma VotesAsWindow(e: Engine, v: ValidatorId, lo: int, hi: int)
    requires e.Configured()
    ensures CountHeights(h => VotesAt(e, v, h), lo, hi) == CountHeights(h => InWindow(e.Active(), e.Threshold(), v, h), lo, hi)
  {
    var p, w := h => VotesAt(e, v, h), h => InWindow(e.Active(), e.Threshold(), v, h);
    forall h ensures p(h) == w(h) {
      VotingIsWindow(e, v, h);
    }
    CountSame(p, w, lo, hi);
  }

  /** Over any n consecutive heights each active validator leads exactly once and votes exactly threshold times. */
  lemma EveryRoundIsFair(e: Engine, v: ValidatorId, start: int)
    requires e.Configured() && v in e.Active() && start >= 1
    ensures CountHeights(h => LeadsAt(e, v, h), start, start + |e.Active()|) == 1
    ensures CountHeights(h => VotesAt(e, v, h), start, start + |e.Active()|) == e.Threshold()
  {
    ThresholdFits(e);
    LeadsAsWindow(e, v, start, start + |e.Active()|);
    VotesAsWindow(e, v, start, start + |e.Active()|);
    WindowCount(e.Active(), 1, v, start);
    WindowCount(e.Active(), e.Threshold(), v, start);
  }

  lemma {:induction false} WindowShares(ids: seq<ValidatorId>, t: nat, v: ValidatorId, m: nat)
    requires Distinct(ids) && v in ids && t <= |ids|
    ensures var q := m / |ids|;
            q * t <= CountHeights(h => InWindow(ids, t, v, h), 1, 1 + m) <= q * t + t
  {
    WindowCount(ids, t, v, 1);
    WindowIsPeriodic(ids, t, v);
    CountUpTo(h => InWindow(ids, t, v, h), |ids|, t, m, m / |ids|, m % |ids|);
  }

  /** Over the first m heights, how often a validator leads and votes, to within one round. */
  lemma {:induction false} SharesUpTo(e: Engine, v: ValidatorId, m: nat)
    requires e.Configured() && v in e.Active()
    ensures var q := m / |e.Active()|;
            && q <= CountHeights(h => LeadsAt(e, v, h), 1, 1 + m) <= q + 1
            && q * e.Threshold() <= CountHeights(h => VotesAt(e, v, h), 1, 1 + m) <= q * e.Threshold() + e.Threshold()
  {
    ThresholdFits(e);
    LeadsAsWindow(e, v, 1, 1 + m);
    VotesAsWindow(e, v, 1, 1 + m);
    WindowShares(e.Active(), 1, v, m);
    WindowShares(e.Active(), e.Threshold(), v, m);
  }
}

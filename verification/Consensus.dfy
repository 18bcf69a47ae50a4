/**
  Leaders, vote windows, thresholds and quorum certificates (crates/kani-consensus/src/lib.rs).
  Both configured engines are one datatype: they differ only in the finality threshold.
 */
module Consensus {
  import opened Wrappers
  import opened Types
  import opened Modular
  import Text

  datatype Validator = Validator(id: ValidatorId, publicKey: string, active: bool)

  datatype Algorithm = Poa | Bft

  datatype ConsensusError =
    | NotEnoughValidators
    | InvalidHeight(height: int)
    | InactiveValidator(id: ValidatorId)
    | InvalidEpoch(expectedEpoch: int, actualEpoch: int)
    | InvalidValidatorSet(expectedSet: string, actualSet: string)
    | EmptyBlockHash
    | InvalidQuorum(got: nat, required: nat)
    | DuplicateVote(voter: ValidatorId)
    | FinalityProofBlockHashMismatch(expectedHash: string, actualHash: string)

  const SANDBOX_BFT_VALIDATOR_SET_ID := "sandbox-bft-v1"
  const SANDBOX_BFT_EPOCH := 1

  function ActiveIds(validators: seq<Validator>): (ids: seq<ValidatorId>)
    ensures |ids| <= |validators|
  {
    if validators == [] then []
    else (if validators[0].active then [validators[0].id] else []) + ActiveIds(validators[1..])
  }

  /** A validator of that id is configured and switched on. */
  ghost predicate IsActive(validators: seq<Validator>, id: ValidatorId) {
    exists i :: 0 <= i < |validators| && validators[i].id == id && validators[i].active
  }

  /** How many configured validators are switched on. */
  ghost function ActiveCount(validators: seq<Validator>): nat {
    |set i | 0 <= i < |validators| && validators[i].active|
  }

  /** The places of the entries that are switched on, in order and without a gap. */
  ghost predicate ArePlaces(validators: seq<Validator>, places: seq<nat>) {
    && (forall j, k | 0 <= j < k < |places| :: places[j] < places[k])
    && (forall k | 0 <= k < |places| :: places[k] < |validators| && validators[places[k]].active)
    && (forall i | 0 <= i < |validators| && validators[i].active :: i in places)
  }

  lemma {:induction false} ActiveIdsSnoc(validators: seq<Validator>, v: Validator)
    ensures ActiveIds(validators + [v]) == ActiveIds(validators) + (if v.active then [v.id] else [])
    decreases |validators|
  {
    if validators == [] {
      assert [] + [v] == [v] && [v][1..] == [];
    } else {
      ActiveIdsSnoc(validators[1..], v);
      assert (validators + [v])[1..] == validators[1..] + [v] && (validators + [v])[0] == validators[0];
    }
  }

  /** The ids at those places, in their order. */
  ghost predicate ArePicked(validators: seq<Validator>, places: seq<nat>, ids: seq<ValidatorId>) {
    && |ids| == |places|
    && forall k | 0 <= k < |places| :: places[k] < |validators| && ids[k] == validators[places[k]].id
  }

  lemma PlacesSnoc(validators: seq<Validator>, v: Validator, places: seq<nat>)
    requires ArePlaces(validators, places)
    ensures ArePlaces(validators + [v], if v.active then places + [|validators|] else places)
  {
    var all, more := validators + [v], places + [|validators|];
    assert more[|places|] == |validators|;
    forall i | 0 <= i < |all| && all[i].active ensures i in (if v.active then more else places) {
      if i < |validators| {
        assert validators[i].active;
      }
    }
  }

  lemma PickedSnoc(validators: seq<Validator>, v: Validator, places: seq<nat>, ids: seq<ValidatorId>)
    requires ArePicked(validators, places, ids)
    ensures ArePicked(validators + [v], places, ids)
    ensures ArePicked(validators + [v], places + [|validators|], ids + [v.id])
  {
  }

  lemma {:induction false} OneMoreEntry(validators: seq<Validator>, v: Validator, before: seq<nat>) returns (places: seq<nat>)
    requires ArePlaces(validators, before) && ArePicked(validators, before, ActiveIds(validators))
    ensures ArePlaces(validators + [v], places) && ArePicked(validators + [v], places, ActiveIds(validators + [v]))
  {
    ActiveIdsSnoc(validators, v);
    PlacesSnoc(validators, v, before);
    PickedSnoc(validators, v, before, ActiveIds(validators));
    if v.active {
      places := before + [|validators|];
    } else {
      places := before;
      assert ActiveIds(validators) + [] == ActiveIds(validators);
    }
  }

  /** The list of active ids is the configured list with the entries that are switched off left out. */
  lemma {:induction false} ActiveIdsAre(validators: seq<Validator>) returns (places: seq<nat>)
    ensures ArePlaces(validators, places) && ArePicked(validators, places, ActiveIds(validators))
    decreases |validators|
  {
    if validators == [] {
      places := [];
    } else {
      var front, v := validators[..|validators| - 1], validators[|validators| - 1];
      var before := ActiveIdsAre(front);
      places := OneMoreEntry(front, v, before);
      assert front + [v] == validators;
    }
  }

  lemma {:induction false} SizeOfPlaces(validators: seq<Validator>, places: seq<nat>)
    requires ArePlaces(validators, places)
    ensures |places| == ActiveCount(validators)
  {
    var all := set i | 0 <= i < |validators| && validators[i].active;
    var asInts := seq(|places|, k requires 0 <= k < |places| => places[k] as int);
    assert Distinct(asInts);
    assert SetOf(asInts) == all by {
      forall i ensures i in SetOf(asInts) <==> i in all {
        if i in all {
          var k :| 0 <= k < |places| && places[k] == i;
          assert asInts[k] == i;
        }
      }
    }
    SetOfSize(asInts);
  }

  /** Exactly the ids of validators that are switched on are in it, as many as there are. */
  lemma {:induction false} ActiveIdsIff(validators: seq<Validator>)
    ensures forall id :: id in ActiveIds(validators) <==> IsActive(validators, id)
    ensures |ActiveIds(validators)| == ActiveCount(validators)
  {
    var places := ActiveIdsAre(validators);
    SizeOfPlaces(validators, places);
    forall id ensures id in ActiveIds(validators) <==> IsActive(validators, id) {
      if id in ActiveIds(validators) {
        var k :| 0 <= k < |places| && ActiveIds(validators)[k] == id;
        assert validators[places[k]].id == id;
      }
      if IsActive(validators, id) {
        var i :| 0 <= i < |validators| && validators[i].id == id && validators[i].active;
        var k :| 0 <= k < |places| && places[k] == i;
        assert ActiveIds(validators)[k] == id;
      }
    }
  }

  /** The two thresholds: the least number that is at least, and the least that is more than, two thirds. */
  lemma ThresholdsAreLeast(n: nat)
    ensures forall t: nat :: t >= PoaThreshold(n) <==> 3 * t >= 2 * n
    ensures forall t: nat :: t >= BftThreshold(n) <==> 3 * t > 2 * n
  {
  }

  /** `(active * 2).div_ceil(3)` */
  function PoaThreshold(n: nat): nat {
    (n * 2 + 2) / 3
  }

  /** `(active * 2 / 3) + 1` */
  function BftThreshold(n: nat): nat {
    n * 2 / 3 + 1
  }

  /** The first position of an id, as `iter().position` finds it. */
  function Position(ids: seq<ValidatorId>, id: ValidatorId): (p: nat)
    ensures p <= |ids|
    ensures p < |ids| ==> ids[p] == id
    ensures forall i | 0 <= i < p :: ids[i] != id
    ensures p == |ids| <==> id !in ids
  {
    if ids == [] || ids[0] == id then 0 else 1 + Position(ids[1..], id)
  }

  ghost predicate Distinct<T>(s: seq<T>) {
    forall i, j | 0 <= i < j < |s| :: s[i] != s[j]
  }

  datatype Engine = Engine(algorithm: Algorithm, validators: seq<Validator>) {
    function Active(): seq<ValidatorId> {
      ActiveIds(validators)
    }

    function Threshold(): nat {
      match algorithm
      case Poa => PoaThreshold(|Active()|)
      case Bft => BftThreshold(|Active()|)
    }

    function LeaderForHeight(height: int): Result<ValidatorId, ConsensusError> {
      if height < 1 then Err(InvalidHeight(height))
      else if |Active()| < 3 then Err(NotEnoughValidators)
      else Ok(Active()[(height - 1) % |Active()|])
    }

    function FinalityVotesForBlock(height: int): Result<seq<ValidatorId>, ConsensusError> {
      if |Active()| < 3 then Err(NotEnoughValidators)
      else
        var leader :- LeaderForHeight(height);
        var index := Position(Active(), leader);
        if index == |Active()| then Err(InactiveValidator(leader))
        else Ok(seq(Threshold(), offset requires 0 <= offset < Threshold() => Active()[(index + offset) % |Active()|]))
    }

    /** What both constructors check, and what they leave to their callers. */
    ghost predicate Configured() {
      |Active()| >= 3 && Distinct(Active())
    }
  }

  datatype QuorumCertificate = QuorumCertificate(
    height: int, round: int, epoch: int, blockHash: string, voters: seq<ValidatorId>)

  datatype FinalityProof = FinalityProof(
    blockHeight: int, blockHash: string, validatorSetId: string, certificate: QuorumCertificate)

  // ---- Vote checking, shared by certificates and blocks ----

  datatype VoteFault = UnknownVoter(id: ValidatorId) | RepeatedVoter(id: ValidatorId)

  /** The duplicate-detecting loop: the set of voters seen, or the first fault. */
  function CheckVotes(active: set<ValidatorId>, votes: seq<ValidatorId>): Result<set<ValidatorId>, VoteFault> {
    if votes == [] then Ok({})
    else
      var seen :- CheckVotes(active, votes[..|votes| - 1]);
      var v := votes[|votes| - 1];
      if v !in active then Err(UnknownVoter(v))
      else if v in seen then Err(RepeatedVoter(v))
      else Ok(seen + {v})
  }

  function SetOf<T(==)>(s: seq<T>): set<T> {
    set x | x in s
  }

  /** Votes pass exactly when they are pairwise distinct active validators; the result is the set of voters. */
  lemma {:induction false} CheckVotesIff(active: set<ValidatorId>, votes: seq<ValidatorId>)
    ensures CheckVotes(active, votes).Ok? <==> Distinct(votes) && forall v | v in votes :: v in active
    ensures CheckVotes(active, votes).Ok? ==>
              CheckVotes(active, votes).value == SetOf(votes) && |SetOf(votes)| == |votes|
    decreases |votes|
  {
    if votes != [] {
      var front, v := votes[..|votes| - 1], votes[|votes| - 1];
      assert votes == front + [v];
      CheckVotesIff(active, front);
      assert SetOf(votes) == SetOf(front) + {v};
      if v in front {
        var i :| 0 <= i < |front| && front[i] == v;
        assert votes[i] == votes[|votes| - 1];
      }
      assert Distinct(votes) <==> Distinct(front) && v !in front;
    }
  }

  /** A fault found in a prefix is the fault of the whole list. */
  lemma {:induction false} CheckVotesPrefix(active: set<ValidatorId>, votes: seq<ValidatorId>, k: nat)
    requires k <= |votes|
    ensures CheckVotes(active, votes[..k]).Err? ==> CheckVotes(active, votes) == CheckVotes(active, votes[..k])
    decreases |votes|
  {
    if k == |votes| {
      assert votes[..k] == votes;
    } else {
      CheckVotesPrefix(active, votes[..|votes| - 1], k);
      assert votes[..|votes| - 1][..k] == votes[..k];
    }
  }

  /** The loop over votes, growing a mutable set. */
  method CheckVotesLoop(active: set<ValidatorId>, votes: seq<ValidatorId>) returns (r: Result<set<ValidatorId>, VoteFault>)
    ensures r == CheckVotes(active, votes)
    ensures r.Ok? <==> Distinct(votes) && forall v | v in votes :: v in active
  {
    CheckVotesIff(active, votes);
    var seen := {};
    var i := 0;
    while i < |votes|
      invariant 0 <= i <= |votes|
      invariant CheckVotes(active, votes[..i]) == Ok(seen)
    {
      var voter := votes[i];
      assert votes[..i + 1][..i] == votes[..i];
      CheckVotesPrefix(active, votes, i + 1);
      if voter !in active {
        return Err(UnknownVoter(voter));
      }
      if voter in seen {
        return Err(RepeatedVoter(voter));
      }
      seen := seen + {voter};
      i := i + 1;
    }
    assert votes[..i] == votes;
    return Ok(seen);
  }

  /** Acceptance of a certificate, as a condition on its contents. */
  ghost predicate CertificateHolds(e: Engine, c: QuorumCertificate) {
    && c.epoch == SANDBOX_BFT_EPOCH
    && !Text.IsBlank(c.blockHash)
    && |c.voters| >= BftThreshold(|e.Active()|)
    && Distinct(c.voters)
    && forall v | v in c.voters :: v in e.Active()
  }

  method VerifyQuorumCertificate(e: Engine, c: QuorumCertificate) returns (r: Result<Unit, ConsensusError>)
    ensures r.Ok? <==> CertificateHolds(e, c)
    ensures r.Ok? ==> (forall v | v in c.voters :: IsActive(e.validators, v)) && 3 * |c.voters| > 2 * ActiveCount(e.validators)
    ensures r.Err? && r.error.DuplicateVote? ==>
              exists i, j :: 0 <= i < j < |c.voters| && c.voters[i] == c.voters[j] == r.error.voter
    ensures r.Err? && r.error.InactiveValidator? ==> r.error.id in c.voters && r.error.id !in e.Active()
    ensures r.Err? && r.error.InvalidQuorum? ==> r.error.got < r.error.required == BftThreshold(|e.Active()|)
  {
    ActiveIdsIff(e.validators);
    if c.epoch != SANDBOX_BFT_EPOCH {
      return Err(InvalidEpoch(SANDBOX_BFT_EPOCH, c.epoch));
    }
    if Text.IsBlank(c.blockHash) {
      return Err(EmptyBlockHash);
    }
    var required := BftThreshold(|e.Active()|);
    if |c.voters| < required {
      return Err(InvalidQuorum(|c.voters|, required));
    }
    var active := SetOf(e.Active());
    var seen := {};
    var i := 0;
    while i < |c.voters|
      invariant 0 <= i <= |c.voters|
      invariant Distinct(c.voters[..i]) && seen == SetOf(c.voters[..i]) && seen <= active
    {
      var voter := c.voters[i];
      if voter !in active {
        return Err(InactiveValidator(voter));
      }
      if voter in seen {
        var j :| 0 <= j < i && c.voters[j] == voter;
        return Err(DuplicateVote(voter));
      }
      seen := seen + {voter};
      i := i + 1;
    }
    assert c.voters[..i] == c.voters;
    assert forall v | v in c.voters :: v in seen;
    return Ok(Unit);
  }

  ghost predicate ProofHolds(e: Engine, p: FinalityProof) {
    && p.validatorSetId == SANDBOX_BFT_VALIDATOR_SET_ID
    && p.blockHash == p.certificate.blockHash
    && CertificateHolds(e, p.certificate)
  }

  method VerifyFinalityProof(e: Engine, p: FinalityProof) returns (r: Result<Unit, ConsensusError>)
    ensures r.Ok? <==> ProofHolds(e, p)
  {
    if p.validatorSetId != SANDBOX_BFT_VALIDATOR_SET_ID {
      return Err(InvalidValidatorSet(SANDBOX_BFT_VALIDATOR_SET_ID, p.validatorSetId));
    }
    if p.blockHash != p.certificate.blockHash {
      return Err(FinalityProofBlockHashMismatch(p.blockHash, p.certificate.blockHash));
    }
    r := VerifyQuorumCertificate(e, p.certificate);
  }

  /** The proof's own height is not checked: any height at all can be written on an accepted proof. */
  lemma FinalityProofHeightIsFree(e: Engine, p: FinalityProof, height: int)
    requires ProofHolds(e, p)
    ensures ProofHolds(e, p.(blockHeight := height))
    ensures exists q :: ProofHolds(e, q) && q.certificate == p.certificate && q.blockHeight != q.certificate.height
  {
    assert ProofHolds(e, p.(blockHeight := p.certificate.height + 1));
  }

  // ---- The vote window ----

  lemma LeaderIsActive(e: Engine, height: int)
    requires |e.Active()| >= 3 && height >= 1
    ensures e.LeaderForHeight(height).Ok?
    ensures e.LeaderForHeight(height).value in e.Active()
    ensures Distinct(e.Active()) ==> Position(e.Active(), e.LeaderForHeight(height).value) == (height - 1) % |e.Active()|
  {
  }

  /** The place of each vote in the list of active validators. */
  lemma VotePlaces(e: Engine, height: int)
    requires e.Configured() && height >= 1
    ensures e.LeaderForHeight(height).Ok? && e.FinalityVotesForBlock(height).Ok?
    ensures var n, votes := |e.Active()|, e.FinalityVotesForBlock(height).value;
            |votes| == e.Threshold() && forall i | 0 <= i < |votes| :: votes[i] == e.Active()[((height - 1) % n + i) % n]
  {
    LeaderIsActive(e, height);
  }

  /** The first height is led by the first active validator, and each leader hands over to the next in the list, around. */
  lemma LeaderSchedule(e: Engine, height: int)
    requires |e.Active()| >= 3 && height >= 1
    ensures IsActive(e.validators, e.LeaderForHeight(height).value)
    ensures e.LeaderForHeight(1) == Ok(e.Active()[0])
    ensures forall i: nat | i < |e.Active()| && height % |e.Active()| == i :: e.LeaderForHeight(height + 1) == Ok(e.Active()[i])
  {
    ActiveIdsIff(e.validators);
  }

  lemma ThresholdFits(e: Engine)
    requires |e.Active()| >= 1
    ensures 1 <= e.Threshold() <= |e.Active()|
  {
  }

  /** Consecutive places, wrapping around, hold different ids when the ids are distinct. */
  lemma WindowIsDistinct(ids: seq<ValidatorId>, index: nat, votes: seq<ValidatorId>)
    requires Distinct(ids) && index < |ids| && |votes| <= |ids|
    requires forall i | 0 <= i < |votes| :: votes[i] == ids[(index + i) % |ids|]
    ensures Distinct(votes)
  {
    var n := |ids|;
    forall i, j | 0 <= i < j < |votes| ensures votes[i] != votes[j] {
      var x, y := (index + i) % n, (index + j) % n;
      assert x != y by {
        if x == y {
          WindowWraps(n, index, i, j);
        }
      }
    }
  }

  /** At every height the vote list is threshold-many distinct active validators, the leader first. */
  lemma VoteWindow(e: Engine, height: int)
    requires e.Configured() && height >= 1
    ensures e.FinalityVotesForBlock(height).Ok?
    ensures var votes := e.FinalityVotesForBlock(height).value;
            && |votes| == e.Threshold() <= |e.Active()|
            && Distinct(votes)
            && (forall v | v in votes :: v in e.Active() && IsActive(e.validators, v))
            && votes[0] == e.LeaderForHeight(height).value
  {
    ActiveIdsIff(e.validators);
    var index := (height - 1) % |e.Active()|;
    ThresholdFits(e);
    VotePlaces(e, height);
    WindowIsDistinct(e.Active(), index, e.FinalityVotesForBlock(height).value);
    WrapsTo(|e.Active()|, index);
  }

  // ---- simulate_finality_proof ----

  function SimulatedCertificate(e: Engine, height: int, blockHash: string): Result<QuorumCertificate, ConsensusError> {
    if Text.IsBlank(blockHash) then Err(EmptyBlockHash)
    else
      var _ :- e.LeaderForHeight(height);
      var voters :- e.FinalityVotesForBlock(height);
      Ok(QuorumCertificate(height, 0, SANDBOX_BFT_EPOCH, blockHash, voters))
  }

  /** Every simulated certificate and proof passes its own verification, at every height. */
  lemma SimulationVerifies(e: Engine, height: int, blockHash: string)
    requires e.Configured() && e.algorithm.Bft?
    ensures SimulatedCertificate(e, height, blockHash).Ok? <==> height >= 1 && !Text.IsBlank(blockHash)
    ensures SimulatedCertificate(e, height, blockHash).Ok? ==>
              var c := SimulatedCertificate(e, height, blockHash).value;
              c.height == height && c.round == 0 && c.epoch == 1 && c.blockHash == blockHash
              && e.FinalityVotesForBlock(height) == Ok(c.voters) &&
              CertificateHolds(e, c) && ProofHolds(e, FinalityProof(height, blockHash, SANDBOX_BFT_VALIDATOR_SET_ID, c))
  {
    if height >= 1 {
      VoteWindow(e, height);
    }
  }

  // ---- Quorum intersection ----

  lemma {:induction false} SetOfSize<T>(s: seq<T>)
    ensures |SetOf(s)| <= |s|
    ensures Distinct(s) ==> |SetOf(s)| == |s|
    decreases |s|
  {
    if s != [] {
      var front, v := s[..|s| - 1], s[|s| - 1];
      assert s == front + [v];
      SetOfSize(front);
      assert SetOf(s) == SetOf(front) + {v};
      if v in front {
        var i :| 0 <= i < |front| && front[i] == v;
        assert s[i] == s[|s| - 1];
      }
    }
  }

  /** Two distinct-voter lists over the active validators overlap in at least the excess of their sizes. */
  lemma VotersOverlap(active: seq<ValidatorId>, a: seq<ValidatorId>, b: seq<ValidatorId>)
    requires Distinct(a) && Distinct(b)
    requires (forall v | v in a :: v in active) && (forall v | v in b :: v in active)
    ensures |SetOf(a) * SetOf(b)| >= |a| + |b| - |active|
  {
    SetOfSize(a);
    SetOfSize(b);
    SetOfSize(active);
    var u := SetOf(a) + SetOf(b);
    assert u <= SetOf(active);
    SubsetSize(u, SetOf(active));
    assert |u| + |SetOf(a) * SetOf(b)| == |SetOf(a)| + |SetOf(b)|;
  }

  lemma {:induction false} SubsetSize<T>(a: set<T>, b: set<T>)
    requires a <= b
    ensures |a| <= |b|
    decreases |a|
  {
    if a != {} {
      var x :| x in a;
      SubsetSize(a - {x}, b - {x});
    }
  }

  /** Any two accepted certificates share more than a third of the active validators. */
  lemma CertificatesIntersect(e: Engine, c: QuorumCertificate, d: QuorumCertificate)
    requires CertificateHolds(e, c) && CertificateHolds(e, d)
    ensures 3 * |SetOf(c.voters) * SetOf(d.voters)| > |e.Active()|
  {
    VotersOverlap(e.Active(), c.voters, d.voters);
  }

  /** Any two accepted PoA finality lists share at least floor((n - 1) / 3) + 1 validators. */
  lemma PoaListsIntersect(active: seq<ValidatorId>, a: seq<ValidatorId>, b: seq<ValidatorId>)
    requires Distinct(a) && Distinct(b)
    requires (forall v | v in a :: v in active) && (forall v | v in b :: v in active)
    requires |a| >= PoaThreshold(|active|) && |b| >= PoaThreshold(|active|) && |active| >= 1
    ensures |SetOf(a) * SetOf(b)| >= (|active| - 1) / 3 + 1
  {
    VotersOverlap(active, a, b);
  }

  /** The two thresholds differ by one exactly when the validator count is a multiple of three. */
  lemma ThresholdsDiffer(n: nat)
    ensures BftThreshold(n) == PoaThreshold(n) + (if n % 3 == 0 then 1 else 0)
  {
  }
}

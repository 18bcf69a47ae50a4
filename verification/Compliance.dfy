/** Sandbox payment screening (crates/kani-compliance/src/lib.rs:46-175): the guard of every submission. */
module Compliance {
  import opened Wrappers
  import opened Types
  import Text

  datatype Decision = Allow | Review | Deny

  datatype ComplianceResult = ComplianceResult(decision: Decision, ruleId: string, reason: string)

  datatype Policy = Policy(
    allowedAccounts: seq<AccountId>,
    allowedAssetPrefixes: seq<string>,
    maxPaymentAmount: int,
    allowSelfTransfers: bool)

  predicate AccountAllowed(policy: Policy, account: AccountId) {
    exists i :: 0 <= i < |policy.allowedAccounts| && policy.allowedAccounts[i] == account
  }

  predicate AssetAllowed(policy: Policy, asset: Asset) {
    exists i :: 0 <= i < |policy.allowedAssetPrefixes| &&
                (asset == policy.allowedAssetPrefixes[i] || policy.allowedAssetPrefixes[i] + "_" <= asset)
  }

  /** The first rule that matches decides. */
  function Screen(policy: Policy, from: AccountId, to: AccountId, asset: Asset, amount: int): ComplianceResult {
    var f, t, a := Text.Trim(from), Text.Trim(to), Text.Trim(asset);
    if f == "" || t == "" || a == "" || amount <= 0 then
      ComplianceResult(Deny, "PAYMENT_SHAPE", "payment shape is invalid")
    else if !policy.allowSelfTransfers && f == t then
      ComplianceResult(Deny, "NO_SELF_TRANSFER", "self transfers are disabled in sandbox")
    else if !AccountAllowed(policy, f) || !AccountAllowed(policy, t) then
      ComplianceResult(Deny, "ACCOUNT_ALLOWLIST", "sandbox payments are limited to approved test institution accounts")
    else if !AssetAllowed(policy, a) then
      ComplianceResult(Deny, "ASSET_ALLOWLIST", "sandbox payment asset is not approved for this compliance profile")
    else if amount > policy.maxPaymentAmount then
      ComplianceResult(Review, "MAX_PAYMENT_AMOUNT", "payment amount exceeds the sandbox straight-through-processing limit")
    else
      ComplianceResult(Allow, "SANDBOX_STP", "sandbox-only payment allowed")
  }

  function ScreenTx(policy: Policy, tx: Transaction): Decision {
    Screen(policy, tx.from, tx.to, tx.asset, tx.amount).decision
  }

  /** A transfer the policy sends to review: every rule passes but the limit. */
  predicate NeedsReview(policy: Policy, tx: Transaction) {
    tx.kind.Transfer? && ScreenTx(policy, tx).Review?
  }

  // ---- The rules, said of the policy's lists and the trimmed fields ----

  /** The asset is an allowed code, or one followed by an underscore and anything. */
  ghost predicate Coded(policy: Policy, asset: string) {
    exists p :: p in policy.allowedAssetPrefixes &&
                (asset == p || (|p| < |asset| && asset[..|p|] == p && asset[|p|] == '_'))
  }

  lemma PrefixIff(p: string, asset: string)
    ensures p + "_" <= asset <==> |p| < |asset| && asset[..|p|] == p && asset[|p|] == '_'
  {
    assert |p| < |asset| ==> asset[..|p| + 1] == asset[..|p|] + [asset[|p|]];
    assert (p + "_")[..|p|] == p && (p + "_")[|p|] == '_';
  }

  lemma CodedIff(policy: Policy, asset: string)
    ensures AssetAllowed(policy, asset) <==> Coded(policy, asset)
  {
    var codes := policy.allowedAssetPrefixes;
    forall i | 0 <= i < |codes|
      ensures codes[i] + "_" <= asset <==> |codes[i]| < |asset| && asset[..|codes[i]|] == codes[i] && asset[|codes[i]|] == '_'
    {
      PrefixIff(codes[i], asset);
    }
    if AssetAllowed(policy, asset) {
      var i :| 0 <= i < |codes| && (asset == codes[i] || codes[i] + "_" <= asset);
      assert codes[i] in codes;
    }
  }

  /** The verdict of the rule list, from the verdict of each of its tests. */
  ghost predicate Decides(x: ComplianceResult, shape: bool, other: bool, listed: bool, coded: bool, above: bool) {
    && (x.decision.Deny? <==> !(shape && other && listed && coded))
    && (x.decision.Review? <==> shape && other && listed && coded && above)
    && (x.decision.Allow? <==> shape && other && listed && coded && !above)
    && (!shape ==> x.ruleId == "PAYMENT_SHAPE")
    && (shape && !other ==> x.ruleId == "NO_SELF_TRANSFER")
    && (shape && other && !listed ==> x.ruleId == "ACCOUNT_ALLOWLIST")
    && (shape && other && listed && !coded ==> x.ruleId == "ASSET_ALLOWLIST")
    && (x.decision.Review? ==> x.ruleId == "MAX_PAYMENT_AMOUNT")
    && (x.decision.Allow? ==> x.ruleId == "SANDBOX_STP")
  }

  lemma ScreenDecides(policy: Policy, from: AccountId, to: AccountId, asset: Asset, amount: int)
    ensures var f, t, a := Text.Trim(from), Text.Trim(to), Text.Trim(asset);
            Decides(Screen(policy, from, to, asset, amount), f != "" && t != "" && a != "" && amount > 0,
                    f == t ==> policy.allowSelfTransfers, AccountAllowed(policy, f) && AccountAllowed(policy, t),
                    AssetAllowed(policy, a), amount > policy.maxPaymentAmount)
  {
  }

  /**
    Screening by the policy alone, for fields that trim to `f`, `t` and `a`: the decision exactly, and with every
    refusal the first rule that is broken.
   */
  lemma ScreenIff(policy: Policy, from: AccountId, to: AccountId, asset: Asset, amount: int, f: string, t: string, a: string)
    requires Text.TrimsTo(from, f) && Text.TrimsTo(to, t) && Text.TrimsTo(asset, a)
    ensures Decides(Screen(policy, from, to, asset, amount), f != "" && t != "" && a != "" && amount > 0,
                    f == t ==> policy.allowSelfTransfers, f in policy.allowedAccounts && t in policy.allowedAccounts,
                    Coded(policy, a), amount > policy.maxPaymentAmount)
  {
    assert Text.Trim(from) == f && Text.Trim(to) == t && Text.Trim(asset) == a by {
      Text.TrimIff(from, f);
      Text.TrimIff(to, t);
      Text.TrimIff(asset, a);
    }
    ScreenDecides(policy, from, to, asset, amount);
    ListedIff(policy, f);
    ListedIff(policy, t);
    CodedIff(policy, a);
  }

  lemma ListedIff(policy: Policy, account: string)
    ensures AccountAllowed(policy, account) <==> account in policy.allowedAccounts
  {
  }

  /** What the rules before the limit ask of a payment, in any order. */
  predicate Admitted(policy: Policy, from: AccountId, to: AccountId, asset: Asset) {
    var f, t, a := Text.Trim(from), Text.Trim(to), Text.Trim(asset);
    && f != "" && t != "" && a != "" && (f == t ==> policy.allowSelfTransfers)
    && AccountAllowed(policy, f) && AccountAllowed(policy, t) && AssetAllowed(policy, a)
  }

  function ByLimit(policy: Policy, amount: int): Decision {
    if amount > policy.maxPaymentAmount then Review else Allow
  }

  /** A positive amount is refused exactly when some rule before the limit refuses it, and then whatever it is. */
  lemma AdmittedIff(policy: Policy, from: AccountId, to: AccountId, asset: Asset, amount: int)
    requires amount > 0
    ensures Admitted(policy, from, to, asset) ==> Screen(policy, from, to, asset, amount).decision == ByLimit(policy, amount)
    ensures !Admitted(policy, from, to, asset) ==>
              Screen(policy, from, to, asset, amount).decision.Deny?
              && Screen(policy, from, to, asset, amount) == Screen(policy, from, to, asset, 1)
  {
  }

  /**
    Only the amount separates payments that pass from payments held for review: between two positive
    amounts the rule list either refuses both or decides each by the limit alone.
   */
  lemma LimitAloneSeparates(policy: Policy, from: AccountId, to: AccountId, asset: Asset, a: int, b: int)
    requires a > 0 && b > 0
    ensures var x, y := Screen(policy, from, to, asset, a), Screen(policy, from, to, asset, b);
            if Admitted(policy, from, to, asset)
            then x.decision == ByLimit(policy, a) && y.decision == ByLimit(policy, b)
            else x.decision.Deny? && x == y
  {
    AdmittedIff(policy, from, to, asset, a);
    AdmittedIff(policy, from, to, asset, b);
  }
}

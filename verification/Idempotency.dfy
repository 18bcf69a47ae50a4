/**
  Request fingerprints and the idempotent retry check (crates/kani-node/src/lib.rs:754-772, 995-1026).
  Whether a retry counts as the same request rests on the fingerprint payload: the lemmas below say
  exactly which requests share theirs with another.
 */
module Idempotency {
  import opened Wrappers
  import opened Types
  import opened Blocks
  import Text

  datatype Request = Request(from: AccountId, to: AccountId, asset: Asset, amount: int, reference: Option<string>)

  function KindName(kind: TransactionKind): string {
    match kind
    case Mint => "MINT"
    case Burn => "BURN"
    case Transfer => "TRANSFER"
  }

  /** One `name=value` line in front of the rest of the payload. */
  function Line(name: string, value: string, rest: string): string {
    name + "=" + value + "\n" + rest
  }

  function Payload(kind: TransactionKind, from: AccountId, to: AccountId, asset: Asset, amount: int): string {
    Line("kind", KindName(kind), Line("from", from, Line("to", to, Line("asset", asset, Line("amount", Text.PrintInt(amount), "")))))
  }

  predicate OneLine(s: string) {
    '\n' !in s
  }

  /** A line ends at its first line break, so the value and the rest can be read back. */
  lemma LineSplits(name: string, a: string, x: string, b: string, y: string)
    requires OneLine(name) && OneLine(a) && OneLine(b) && Line(name, a, x) == Line(name, b, y)
    ensures a == b && x == y
  {
    var s, t := Line(name, a, x), Line(name, b, y);
    var m, n := |name| + 1 + |a|, |name| + 1 + |b|;
    assert forall k | |name| < k < m :: s[k] == a[k - |name| - 1] && s[k] != '\n';
    assert forall k | |name| < k < n :: t[k] == b[k - |name| - 1] && t[k] != '\n';
    assert s[m] == '\n' && t[n] == '\n';
    assert m == n;
    assert a == s[|name| + 1..m] && b == t[|name| + 1..n];
    assert x == s[m + 1..] && y == t[n + 1..];
  }

  lemma DigitsAreOneLine(n: int)
    ensures OneLine(Text.PrintInt(n))
  {
    assert forall m: nat :: Text.AllDigits(Text.PrintNat(m));
  }

  // ---- Where the payload can be cut ----

  const TO := "\nto="
  const ASSET := "\nasset="

  predicate CutAt(s: string, separator: string, i: int) {
    0 <= i <= i + |separator| <= |s| && s[i..i + |separator|] == separator
  }

  predicate Occurs(s: string, separator: string) {
    exists i :: 0 <= i <= |s| && CutAt(s, separator, i)
  }

  /** A line break, and no other in what follows it. */
  predicate IsSeparator(separator: string) {
    separator != "" && separator[0] == '\n' && OneLine(separator[1..])
  }

  /** A separator that starts inside a field ends inside it, when the field is followed by a line break. */
  lemma CutStaysInside(field: string, rest: string, separator: string, i: int)
    requires IsSeparator(separator) && (rest == "" || rest[0] == '\n') && i < |field|
    requires CutAt(field + rest, separator, i)
    ensures Occurs(field, separator)
  {
    var s, n := field + rest, |separator|;
    forall x | i < x < i + n ensures s[x] != '\n' {
      assert s[x] == s[i..i + n][x - i] == separator[1..][x - i - 1];
    }
    assert rest == "" || s[|field|] == '\n';
    assert i + n <= |field|;
    assert field[i..i + n] == s[i..i + n];
    assert CutAt(field, separator, i);
  }

  lemma CutInRest(field: string, rest: string, separator: string, i: int)
    requires |field| <= i && CutAt(field + rest, separator, i)
    ensures CutAt(rest, separator, i - |field|)
  {
    var s, n := field + rest, |separator|;
    assert rest[i - |field|..i - |field| + n] == s[i..i + n];
  }

  /** The first character of a separator occurs in it only once, and the two separators differ in their second. */
  lemma CutInSeparator(separator: string, other: string, rest: string, i: int)
    requires separator in {TO, ASSET} && other in {TO, ASSET} && 0 <= i < |other|
    requires CutAt(other + rest, separator, i)
    ensures i == 0 && separator == other
  {
    var s := other + rest;
    assert s[i] == s[i..i + |separator|][0] == '\n' && s[i + 1] == s[i..i + |separator|][1];
  }

  /** No separator occurs where it would be read too early or too late. */
  predicate Unambiguous(from: AccountId, to: AccountId, asset: Asset) {
    && !Occurs(from, TO) && !Occurs(to, TO)
    && !Occurs(to, ASSET) && !Occurs(asset, ASSET)
  }

  function Body(from: AccountId, to: AccountId, asset: Asset): string {
    from + (TO + (to + (ASSET + asset)))
  }

  lemma AssetCut(from: AccountId, to: AccountId, asset: Asset, p: int, q: int)
    requires Unambiguous(from, to, asset) && CutAt(Body(from, to, asset), TO, p) && CutAt(Body(from, to, asset), ASSET, q) && p + |TO| <= q
    ensures p >= |from| && q == |from| + |TO| + |to|
  {
    var tail := ASSET + asset;
    var middle := TO + (to + tail);
    if p < |from| {
      CutStaysInside(from, middle, TO, p);
    }
    CutInRest(from, middle, ASSET, q);
    if q < |from| + |TO| {
      CutInSeparator(ASSET, TO, to + tail, q - |from|);
    }
    CutInRest(TO, to + tail, ASSET, q - |from|);
    var r := q - |from| - |TO|;
    if r < |to| {
      CutStaysInside(to, tail, ASSET, r);
    }
    CutInRest(to, tail, ASSET, r);
    var u := r - |to|;
    if 0 < u < |ASSET| {
      CutInSeparator(ASSET, ASSET, asset, u);
    }
    if |ASSET| <= u {
      CutInRest(ASSET, asset, ASSET, u);
      assert Occurs(asset, ASSET);
    }
  }

  lemma ToCut(from: AccountId, to: AccountId, asset: Asset, p: int)
    requires !Occurs(to, TO) && CutAt(Body(from, to, asset), TO, p) && |from| <= p && p + |TO| <= |from| + |TO| + |to|
    ensures p == |from|
  {
    var tail := ASSET + asset;
    CutInRest(from, TO + (to + tail), TO, p);
    if p < |from| + |TO| {
      CutInSeparator(TO, TO, to + tail, p - |from|);
    } else {
      CutInRest(TO, to + tail, TO, p - |from|);
      CutStaysInside(to, tail, TO, p - |from| - |TO|);
    }
  }

  lemma BodyCuts(from: AccountId, to: AccountId, asset: Asset)
    ensures CutAt(Body(from, to, asset), TO, |from|)
    ensures CutAt(Body(from, to, asset), ASSET, |from| + |TO| + |to|)
  {
    var s := Body(from, to, asset);
    assert s[|from|..|from| + |TO|] == TO;
    var q := |from| + |TO| + |to|;
    assert s[q..q + |ASSET|] == ASSET;
  }

  lemma BodyParts(from: AccountId, to: AccountId, asset: Asset)
    ensures var s, q := Body(from, to, asset), |from| + |TO| + |to|;
            from == s[..|from|] && to == s[|from| + |TO|..q] && asset == s[q + |ASSET|..]
  {
  }

  lemma BodySplits(from: AccountId, to: AccountId, asset: Asset, f: AccountId, t: AccountId, a: Asset)
    requires Unambiguous(from, to, asset) && Body(from, to, asset) == Body(f, t, a)
    ensures from == f && to == t && asset == a
  {
    BodyCuts(f, t, a);
    AssetCut(from, to, asset, |f|, |f| + |TO| + |t|);
    ToCut(from, to, asset, |f|);
    BodyParts(from, to, asset);
    BodyParts(f, t, a);
  }

  lemma SplitAt(s: string, separator: string, i: int)
    requires CutAt(s, separator, i)
    ensures s == s[..i] + separator + s[i + |separator|..]
  {
  }

  lemma MoveTo(x: string, y: string, to: AccountId, asset: Asset)
    ensures Body(x + TO + y, to, asset) == Body(x, y + TO + to, asset)
  {
    var z := ASSET + asset;
    assert (x + TO + y) + (TO + (to + z)) == x + (TO + ((y + TO + to) + z));
  }

  lemma MoveAsset(from: AccountId, x: string, y: string, asset: Asset)
    ensures Body(from, x + ASSET + y, asset) == Body(from, x, y + ASSET + asset)
  {
    assert (x + ASSET + y) + (ASSET + asset) == x + (ASSET + (y + ASSET + asset));
  }

  /** Any of the four occurrences gives another request with the same body. */
  lemma BodyCollides(from: AccountId, to: AccountId, asset: Asset) returns (f: AccountId, t: AccountId, a: Asset)
    requires !Unambiguous(from, to, asset)
    ensures Body(f, t, a) == Body(from, to, asset) && (f, t, a) != (from, to, asset)
  {
    if Occurs(from, TO) {
      var i :| 0 <= i <= |from| && CutAt(from, TO, i);
      SplitAt(from, TO, i);
      MoveTo(from[..i], from[i + |TO|..], to, asset);
      f, t, a := from[..i], from[i + |TO|..] + TO + to, asset;
    } else if Occurs(to, TO) {
      var i :| 0 <= i <= |to| && CutAt(to, TO, i);
      SplitAt(to, TO, i);
      MoveTo(from, to[..i], to[i + |TO|..], asset);
      f, t, a := from + TO + to[..i], to[i + |TO|..], asset;
    } else if Occurs(to, ASSET) {
      var i :| 0 <= i <= |to| && CutAt(to, ASSET, i);
      SplitAt(to, ASSET, i);
      MoveAsset(from, to[..i], to[i + |ASSET|..], asset);
      f, t, a := from, to[..i], to[i + |ASSET|..] + ASSET + asset;
    } else {
      var i :| 0 <= i <= |asset| && CutAt(asset, ASSET, i);
      SplitAt(asset, ASSET, i);
      MoveAsset(from, to, asset[..i], asset[i + |ASSET|..]);
      f, t, a := from, to + ASSET + asset[..i], asset[i + |ASSET|..];
    }
  }

  /** A payload is its first line, the body, and its last line. */
  lemma PayloadShape(kind: TransactionKind, from: AccountId, to: AccountId, asset: Asset, amount: int)
    ensures Payload(kind, from, to, asset, amount)
            == Line("kind", KindName(kind), "from=" + Body(from, to, asset) + "\namount=" + Text.PrintInt(amount) + "\n")
  {
    FieldLines(from, to, asset, Line("amount", Text.PrintInt(amount), ""));
    AmountLine("from=" + Body(from, to, asset), Text.PrintInt(amount));
  }

  lemma FieldLines(from: AccountId, to: AccountId, asset: Asset, rest: string)
    ensures Line("from", from, Line("to", to, Line("asset", asset, rest))) == "from=" + Body(from, to, asset) + "\n" + rest
  {
    ToLines(to, asset, rest);
    var x := to + (ASSET + asset);
    assert "\n" + ("to=" + x + "\n" + rest) == (TO + x) + "\n" + rest;
  }

  lemma ToLines(to: AccountId, asset: Asset, rest: string)
    ensures Line("to", to, Line("asset", asset, rest)) == "to=" + (to + (ASSET + asset)) + "\n" + rest
  {
    assert "\n" + Line("asset", asset, rest) == (ASSET + asset) + "\n" + rest;
  }

  lemma AmountLine(x: string, digits: string)
    ensures x + "\n" + Line("amount", digits, "") == x + "\namount=" + digits + "\n"
  {
    assert "\n" + Line("amount", digits, "") == "\namount=" + digits + "\n";
  }

  /** The text that is hashed. */
  lemma PayloadText(from: AccountId, to: AccountId, asset: Asset, amount: int)
    ensures Payload(Transfer, from, to, asset, amount)
            == "kind=TRANSFER\nfrom=" + from + "\nto=" + to + "\nasset=" + asset + "\namount=" + Text.PrintInt(amount) + "\n"
  {
    PayloadShape(Transfer, from, to, asset, amount);
    var digits := Text.PrintInt(amount);
    assert "kind" + "=" + "TRANSFER" + "\n" == "kind=TRANSFER\n";
    assert "kind=TRANSFER\n" + ("from=" + (from + (TO + (to + (ASSET + asset)))) + "\namount=" + digits + "\n")
           == "kind=TRANSFER\nfrom=" + from + "\nto=" + to + "\nasset=" + asset + "\namount=" + digits + "\n";
  }

  /** The last line is found from the end, where the digits hold no line break. */
  lemma LastLineSplits(x: string, m: string, y: string, n: string)
    requires OneLine(m) && OneLine(n) && x + "\namount=" + m + "\n" == y + "\namount=" + n + "\n"
    ensures x == y && m == n
  {
    var start := "\namount=";
    var s, t := x + start + m + "\n", y + start + n + "\n";
    assert s[|x|] == '\n' && t[|y|] == '\n';
    assert OneLine(start[1..]);
    assert forall k | |x| < k < |s| - 1 :: s[k] == (start[1..] + m)[k - |x| - 1] && s[k] != '\n';
    assert forall k | |y| < k < |t| - 1 :: t[k] == (start[1..] + n)[k - |y| - 1] && t[k] != '\n';
    assert |x| == |y|;
    assert x == s[..|x|] && y == t[..|y|];
    assert m == s[|x| + |start|..|s| - 1] && n == t[|y| + |start|..|t| - 1];
  }

  lemma PayloadSplits(k1: TransactionKind, f1: AccountId, t1: AccountId, a1: Asset, n1: int,
                      k2: TransactionKind, f2: AccountId, t2: AccountId, a2: Asset, n2: int)
    requires Payload(k1, f1, t1, a1, n1) == Payload(k2, f2, t2, a2, n2)
    ensures k1 == k2 && Body(f1, t1, a1) == Body(f2, t2, a2) && n1 == n2
  {
    PayloadShape(k1, f1, t1, a1, n1);
    PayloadShape(k2, f2, t2, a2, n2);
    DigitsAreOneLine(n1);
    DigitsAreOneLine(n2);
    var x, y := "from=" + Body(f1, t1, a1), "from=" + Body(f2, t2, a2);
    LineSplits("kind", KindName(k1), x + "\namount=" + Text.PrintInt(n1) + "\n", KindName(k2), y + "\namount=" + Text.PrintInt(n2) + "\n");
    LastLineSplits(x, Text.PrintInt(n1), y, Text.PrintInt(n2));
    Text.PrintIntInjective(n1, n2);
    assert Body(f1, t1, a1) == x[5..] && Body(f2, t2, a2) == y[5..];
  }

  /** No other kind, accounts, asset or amount has this payload. */
  ghost predicate PayloadIsUnique(kind: TransactionKind, from: AccountId, to: AccountId, asset: Asset, amount: int) {
    forall k, f, t, a, n ::
      Payload(k, f, t, a, n) == Payload(kind, from, to, asset, amount) ==>
        k == kind && f == from && t == to && a == asset && n == amount
  }

  /** A payload is shared with no other request exactly when no separator line hides in its fields. */
  lemma PayloadUniqueIff(kind: TransactionKind, from: AccountId, to: AccountId, asset: Asset, amount: int)
    ensures PayloadIsUnique(kind, from, to, asset, amount) <==> Unambiguous(from, to, asset)
  {
    if Unambiguous(from, to, asset) {
      forall k, f, t, a, n | Payload(k, f, t, a, n) == Payload(kind, from, to, asset, amount)
        ensures k == kind && f == from && t == to && a == asset && n == amount
      {
        PayloadSplits(k, f, t, a, n, kind, from, to, asset, amount);
        BodySplits(from, to, asset, f, t, a);
      }
    } else {
      var f, t, a := BodyCollides(from, to, asset);
      PayloadShape(kind, f, t, a, amount);
      PayloadShape(kind, from, to, asset, amount);
    }
  }

  type Digest = string -> string

  function Fingerprint(digest: Digest, r: Request): string {
    digest(Payload(Transfer, r.from, r.to, r.asset, r.amount))
  }

  ghost predicate DigestInjective(digest: Digest) {
    forall a, b :: digest(a) == digest(b) ==> a == b
  }

  /** The transfer a record stores is the one a request asks for. */
  predicate SameTransfer(tx: Transaction, r: Request) {
    tx.kind.Transfer? && tx.from == r.from && tx.to == r.to && tx.asset == r.asset && tx.amount == r.amount
  }

  /** `ensure_idempotent_retry`: by fingerprint, or field by field for a record that has none. */
  function EnsureIdempotentRetry(p: PaymentRecord, r: Request, fingerprint: string, reference: string): Result<Unit, NodeError> {
    var matches := if p.requestFingerprint.Some? then p.requestFingerprint.value == fingerprint else SameTransfer(p.transaction, r);
    if matches then Ok(Unit) else Err(IdempotencyConflict(reference))
  }

  /** The request a stored transfer answers. */
  function RequestOf(tx: Transaction, reference: Option<string>): Request {
    Request(tx.from, tx.to, tx.asset, tx.amount, reference)
  }

  /** The fingerprint kept with a transfer, if there is one, is that of its own request. */
  predicate OwnFingerprint(digest: Digest, tx: Transaction, fingerprint: Option<string>) {
    tx.kind.Transfer? && (fingerprint.Some? ==> fingerprint.value == Fingerprint(digest, RequestOf(tx, None)))
  }

  /** The fields of the stored transfer, or those of the request, hide no separator of the fingerprint payload. */
  predicate ToldApart(tx: Transaction, r: Request) {
    Unambiguous(tx.from, tx.to, tx.asset) || Unambiguous(r.from, r.to, r.asset)
  }

  /** One fingerprint for two transfers means one transfer, if either can be told apart. */
  lemma SameFingerprint(digest: Digest, tx: Transaction, r: Request)
    requires DigestInjective(digest) && tx.kind.Transfer? && ToldApart(tx, r)
    ensures Fingerprint(digest, RequestOf(tx, None)) == Fingerprint(digest, r) <==> SameTransfer(tx, r)
  {
    if Fingerprint(digest, RequestOf(tx, None)) == Fingerprint(digest, r) {
      PayloadSplits(Transfer, tx.from, tx.to, tx.asset, tx.amount, Transfer, r.from, r.to, r.asset, r.amount);
      if Unambiguous(tx.from, tx.to, tx.asset) {
        BodySplits(tx.from, tx.to, tx.asset, r.from, r.to, r.asset);
      } else {
        BodySplits(r.from, r.to, r.asset, tx.from, tx.to, tx.asset);
      }
    }
  }

  /** A retry passes exactly when it asks for the same transfer. */
  lemma RetryIffSame(digest: Digest, p: PaymentRecord, r: Request, reference: string)
    requires DigestInjective(digest) && OwnFingerprint(digest, p.transaction, p.requestFingerprint)
    requires ToldApart(p.transaction, r)
    ensures EnsureIdempotentRetry(p, r, Fingerprint(digest, r), reference)
            == if SameTransfer(p.transaction, r) then Ok(Unit) else Err(IdempotencyConflict(reference))
  {
    SameFingerprint(digest, p.transaction, r);
  }

  /**
    The condition is exact: a fingerprinted record turns every other request away if and only if no separator
    line hides in the fields of its own transfer.
   */
  lemma OthersRefusedIff(digest: Digest, p: PaymentRecord, reference: string)
    requires DigestInjective(digest) && OwnFingerprint(digest, p.transaction, p.requestFingerprint) && p.requestFingerprint.Some?
    ensures (forall r :: EnsureIdempotentRetry(p, r, Fingerprint(digest, r), reference).Ok? ==> SameTransfer(p.transaction, r))
            <==> Unambiguous(p.transaction.from, p.transaction.to, p.transaction.asset)
  {
    var tx := p.transaction;
    if Unambiguous(tx.from, tx.to, tx.asset) {
      forall r | EnsureIdempotentRetry(p, r, Fingerprint(digest, r), reference).Ok? ensures SameTransfer(tx, r) {
        RetryIffSame(digest, p, r, reference);
      }
    } else {
      var f, t, a := BodyCollides(tx.from, tx.to, tx.asset);
      PayloadShape(Transfer, f, t, a, tx.amount);
      PayloadShape(Transfer, tx.from, tx.to, tx.asset, tx.amount);
      var other := Request(f, t, a, tx.amount, None);
      assert EnsureIdempotentRetry(p, other, Fingerprint(digest, other), reference).Ok? && !SameTransfer(tx, other);
    }
  }
}

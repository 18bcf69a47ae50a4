/** Trimming, decimal numerals and digit strings as the source's string routines treat them. */
module Text {
  import opened Wrappers

  /** The characters `str::trim` removes: the Unicode property White_Space. */
  predicate IsWhitespace(c: char) {
    var n := c as int;
    || 9 <= n <= 13 || n == 32 || n == 0x85 || n == 0xA0 || n == 0x1680
    || 0x2000 <= n <= 0x200A || n == 0x2028 || n == 0x2029 || n == 0x202F
    || n == 0x205F || n == 0x3000
  }

  function TrimStart(s: string): (r: string)
    ensures |r| <= |s|
    ensures r == "" || !IsWhitespace(r[0])
    ensures s == "" || !IsWhitespace(s[0]) ==> r == s
    ensures r != "" ==> r[|r| - 1] == s[|s| - 1]
  {
    if s != "" && IsWhitespace(s[0]) then TrimStart(s[1..]) else s
  }

  function TrimEnd(s: string): (r: string)
    ensures |r| <= |s|
    ensures r == "" || !IsWhitespace(r[|r| - 1])
    ensures s == "" || !IsWhitespace(s[|s| - 1]) ==> r == s
    ensures r <= s
  {
    if s != "" && IsWhitespace(s[|s| - 1]) then TrimEnd(s[..|s| - 1]) else s
  }

  function Trim(s: string): string {
    TrimEnd(TrimStart(s))
  }

  /** `s.trim().is_empty()` */
  predicate IsBlank(s: string) {
    Trim(s) == ""
  }

  /** A string is left alone by trimming exactly when neither end is white space. */
  predicate Trimmed(s: string) {
    s == "" || (!IsWhitespace(s[0]) && !IsWhitespace(s[|s| - 1]))
  }

  lemma TrimIsTrimmed(s: string)
    ensures Trimmed(Trim(s))
    ensures |Trim(s)| <= |s|
    ensures Trimmed(s) ==> Trim(s) == s
  {
    var a := TrimStart(s);
    var b := TrimEnd(a);
    if b != "" {
      assert b[0] == a[0];
    }
  }

  lemma TrimIsIdempotent(s: string)
    ensures Trim(Trim(s)) == Trim(s)
  {
    TrimIsTrimmed(s);
    TrimIsTrimmed(Trim(s));
  }

  lemma {:induction false} TrimStartAround(before: string, s: string)
    requires (forall c | c in before :: IsWhitespace(c)) && s != "" && !IsWhitespace(s[0])
    ensures TrimStart(before + s) == s
    decreases |before|
  {
    if before == "" {
      assert before + s == s;
    } else {
      assert (before + s)[0] == before[0] && (before + s)[1..] == before[1..] + s;
      assert before[0] in before;
      TrimStartAround(before[1..], s);
    }
  }

  lemma {:induction false} TrimEndAround(s: string, after: string)
    requires (forall c | c in after :: IsWhitespace(c)) && s != "" && !IsWhitespace(s[|s| - 1])
    ensures TrimEnd(s + after) == s
    decreases |after|
  {
    if after == "" {
      assert s + after == s;
    } else {
      var all := s + after;
      assert all[|all| - 1] == after[|after| - 1] && all[..|all| - 1] == s + after[..|after| - 1];
      assert after[|after| - 1] in after;
      TrimEndAround(s, after[..|after| - 1]);
    }
  }

  lemma TrimAround(before: string, s: string, after: string)
    requires (forall c | c in before :: IsWhitespace(c)) && (forall c | c in after :: IsWhitespace(c))
    requires s != "" && Trimmed(s)
    ensures Trim(before + s + after) == s
  {
    assert before + s + after == before + (s + after);
    TrimStartAround(before, s + after);
    TrimEndAround(s, after);
  }

  lemma {:induction false} TrimStartIsSuffix(s: string)
    ensures |TrimStart(s)| <= |s| && TrimStart(s) == s[|s| - |TrimStart(s)|..]
    decreases |s|
  {
    if s != "" && IsWhitespace(s[0]) {
      TrimStartIsSuffix(s[1..]);
    }
  }

  predicate AllWhite(s: string) {
    forall i | 0 <= i < |s| :: IsWhitespace(s[i])
  }

  /** `core` is what is left of `s` without the white space around it. */
  ghost predicate TrimsTo(s: string, core: string) {
    && Trimmed(core)
    && exists before, after :: AllWhite(before) && AllWhite(after) && s == before + core + after
  }

  lemma {:induction false} TrimStartDropsWhite(s: string, i: nat)
    requires i < |s| - |TrimStart(s)|
    ensures IsWhitespace(s[i])
    decreases |s|
  {
    if i > 0 {
      TrimStartDropsWhite(s[1..], i - 1);
    }
  }

  lemma {:induction false} TrimStartSplits(s: string)
    ensures AllWhite(s[..|s| - |TrimStart(s)|]) && s == s[..|s| - |TrimStart(s)|] + TrimStart(s)
  {
    TrimStartIsSuffix(s);
    forall i: nat | i < |s| - |TrimStart(s)| ensures IsWhitespace(s[i]) {
      TrimStartDropsWhite(s, i);
    }
  }

  lemma {:induction false} TrimEndSplits(s: string)
    ensures AllWhite(s[|TrimEnd(s)|..]) && s == TrimEnd(s) + s[|TrimEnd(s)|..]
    decreases |s|
  {
    if s != "" && IsWhitespace(s[|s| - 1]) {
      var front := s[..|s| - 1];
      TrimEndSplits(front);
      assert s[|TrimEnd(s)|..] == front[|TrimEnd(s)|..] + [s[|s| - 1]];
    }
  }

  lemma {:induction false} TrimOfWhite(s: string)
    requires AllWhite(s)
    ensures Trim(s) == ""
    decreases |s|
  {
    if s != "" {
      TrimOfWhite(s[1..]);
    }
  }

  /** Trimming takes away exactly the white space at both ends. */
  lemma TrimIff(s: string, core: string)
    ensures TrimsTo(s, core) <==> Trim(s) == core
  {
    TrimIsTrimmed(s);
    TrimStartSplits(s);
    var a := TrimStart(s);
    TrimEndSplits(a);
    var before, after := s[..|s| - |a|], a[|Trim(s)|..];
    assert s == before + Trim(s) + after;
    assert TrimsTo(s, Trim(s));
    if TrimsTo(s, core) {
      var x, y :| AllWhite(x) && AllWhite(y) && s == x + core + y;
      TrimOf(x, core, y);
    }
  }

  lemma TrimOf(before: string, core: string, after: string)
    requires AllWhite(before) && AllWhite(after) && Trimmed(core)
    ensures Trim(before + core + after) == core
  {
    if core == "" {
      assert AllWhite(before + core + after);
      TrimOfWhite(before + core + after);
    } else {
      TrimAround(before, core, after);
    }
  }

  /** Blank means white space only. */
  lemma {:induction false} BlankIff(s: string)
    ensures IsBlank(s) <==> forall i | 0 <= i < |s| :: IsWhitespace(s[i])
  {
    TrimIff(s, "");
    if AllWhite(s) {
      TrimOfWhite(s);
    }
    if IsBlank(s) {
      var x, y :| AllWhite(x) && AllWhite(y) && s == x + "" + y;
    }
  }

  // ---- Decimal numerals ----

  predicate IsDigit(c: char) {
    '0' <= c <= '9'
  }

  predicate AllDigits(s: string) {
    forall i | 0 <= i < |s| :: IsDigit(s[i])
  }

  function Digit(d: int): char
    requires 0 <= d < 10
  {
    (('0' as int) + d) as char
  }

  function DigitValue(c: char): int {
    (c as int) - ('0' as int)
  }

  /** `n.to_string()` */
  function PrintNat(n: nat): (s: string)
    ensures s != "" && AllDigits(s)
    ensures s[0] == '0' ==> s == "0"
    ensures n > 0 ==> s[0] != '0'
  {
    if n < 10 then [Digit(n)] else PrintNat(n / 10) + [Digit(n % 10)]
  }

  function PrintInt(n: int): string {
    if n < 0 then "-" + PrintNat(-n) else PrintNat(n)
  }

  /** The number a digit string denotes. */
  function DigitsValue(s: string): (n: nat)
    requires AllDigits(s)
  {
    if s == "" then 0 else 10 * DigitsValue(s[..|s| - 1]) + DigitValue(s[|s| - 1])
  }

  /** No sign, no blank, no superfluous leading zero. */
  predicate Canonical(s: string) {
    s != "" && AllDigits(s) && (s[0] == '0' ==> |s| == 1)
  }

  lemma {:induction false} ValueOfPrint(n: nat)
    ensures DigitsValue(PrintNat(n)) == n
    decreases n
  {
    var s := PrintNat(n);
    if n < 10 {
      assert s[..|s| - 1] == "";
    } else {
      ValueOfPrint(n / 10);
      assert s[..|s| - 1] == PrintNat(n / 10);
    }
  }

  lemma {:induction false} PrintOfValue(s: string)
    requires Canonical(s)
    ensures PrintNat(DigitsValue(s)) == s
    decreases |s|
  {
    var front, last := s[..|s| - 1], s[|s| - 1];
    assert s == front + [last];
    if front != "" {
      PrintOfValue(front);
      assert front[0] != '0';
      assert PrintNat(0) == "0";
      assert DigitsValue(front) > 0;
    } else {
      assert DigitsValue(s) == DigitValue(last);
    }
  }

  lemma PrintIntInjective(a: int, b: int)
    requires PrintInt(a) == PrintInt(b)
    ensures a == b
  {
    assert a >= 0 ==> IsDigit(PrintInt(a)[0]);
    assert b >= 0 ==> IsDigit(PrintInt(b)[0]);
    if a < 0 {
      assert PrintNat(-a) == PrintInt(a)[1..] == PrintInt(b)[1..] == PrintNat(-b);
      ValueOfPrint(-a);
      ValueOfPrint(-b);
    } else {
      ValueOfPrint(a);
      ValueOfPrint(b);
    }
  }

  // ---- Searching ----

  function IndexOf(s: string, c: char): (i: nat)
    ensures i <= |s|
    ensures i < |s| ==> s[i] == c
    ensures c !in s[..i]
    ensures i == |s| <==> c !in s
  {
    if s == "" then 0
    else if s[0] == c then 0
    else
      var r := IndexOf(s[1..], c);
      assert s[..r + 1] == [s[0]] + s[1..][..r];
      assert s == [s[0]] + s[1..];
      r + 1
  }

  /** `s.rsplit_once(c)`: the parts around the last occurrence. */
  function RSplitOnce(s: string, c: char): (r: Option<(string, string)>)
    ensures r.None? <==> c !in s
    ensures r.Some? ==> s == r.value.0 + [c] + r.value.1 && c !in r.value.1
  {
    if s == "" then None
    else if s[|s| - 1] == c then
      assert s == s[..|s| - 1] + [c] + "";
      Some((s[..|s| - 1], ""))
    else
      assert s == s[..|s| - 1] + [s[|s| - 1]];
      match RSplitOnce(s[..|s| - 1], c)
      case None => None
      case Some((a, b)) => Some((a, b + [s[|s| - 1]]))
  }

  lemma {:induction false} RSplitOnceUnique(a: string, b: string, c: char)
    requires c !in b
    ensures RSplitOnce(a + [c] + b, c) == Some((a, b))
  {
    var s := a + [c] + b;
    assert s[|a|] == c;
    var r := RSplitOnce(s, c).value;
    assert forall i | |a| < i < |s| :: s[i] == b[i - |a| - 1];
    assert forall i | |r.0| < i < |s| :: s[i] == r.1[i - |r.0| - 1];
    assert s[|r.0|] == c;
    assert |r.0| == |a|;
    assert r.0 == s[..|r.0|] && a == s[..|a|];
    assert r.1 == s[|r.0| + 1..] && b == s[|a| + 1..];
  }

}

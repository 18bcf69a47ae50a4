/**
  Escaping as the source does it (crates/kani-iso20022/src/lib.rs:430-441): its sequential replace passes
  equal one per-character map, which a reference unescape inverts (sections 2.4 and 4.6 of XML 1.0).
 */
module Xml {
  import opened Wrappers
  import opened Text

  // ---- Escaping ----

  /** `value.replace(c, with)` for a single character. */
  function Replace(s: string, c: char, with: string): string {
    if s == "" then "" else (if s[0] == c then with else [s[0]]) + Replace(s[1..], c, with)
  }

  function EscapeText(s: string): string {
    Replace(Replace(Replace(s, '&', "&amp;"), '<', "&lt;"), '>', "&gt;")
  }

  function EscapeAttribute(s: string): string {
    Replace(Replace(EscapeText(s), '"', "&quot;"), '\'', "&apos;")
  }

  /** The escape of one character on its own. */
  function TextEntity(c: char): string {
    if c == '&' then "&amp;" else if c == '<' then "&lt;" else if c == '>' then "&gt;" else [c]
  }

  function AttributeEntity(c: char): string {
    if c == '"' then "&quot;" else if c == '\'' then "&apos;" else TextEntity(c)
  }

  function MapChars(entity: char -> string, s: string): string {
    if s == "" then "" else entity(s[0]) + MapChars(entity, s[1..])
  }

  lemma {:induction false} ReplaceConcat(a: string, b: string, c: char, with: string)
    ensures Replace(a + b, c, with) == Replace(a, c, with) + Replace(b, c, with)
    decreases |a|
  {
    if a == "" {
      assert a + b == b;
    } else {
      assert (a + b)[1..] == a[1..] + b;
      ReplaceConcat(a[1..], b, c, with);
    }
  }

  lemma {:induction false} ReplaceAbsent(s: string, c: char, with: string)
    requires c !in s
    ensures Replace(s, c, with) == s
    decreases |s|
  {
    if s != "" {
      assert s == [s[0]] + s[1..];
      ReplaceAbsent(s[1..], c, with);
    }
  }

  lemma EscapeTextOfConcat(a: string, b: string)
    ensures EscapeText(a + b) == EscapeText(a) + EscapeText(b)
  {
    ReplaceConcat(a, b, '&', "&amp;");
    var a1, b1 := Replace(a, '&', "&amp;"), Replace(b, '&', "&amp;");
    ReplaceConcat(a1, b1, '<', "&lt;");
    ReplaceConcat(Replace(a1, '<', "&lt;"), Replace(b1, '<', "&lt;"), '>', "&gt;");
  }

  lemma EscapeAttributeOfConcat(a: string, b: string)
    ensures EscapeAttribute(a + b) == EscapeAttribute(a) + EscapeAttribute(b)
  {
    EscapeTextOfConcat(a, b);
    ReplaceConcat(EscapeText(a), EscapeText(b), '"', "&quot;");
    ReplaceConcat(Replace(EscapeText(a), '"', "&quot;"), Replace(EscapeText(b), '"', "&quot;"), '\'', "&apos;");
  }

  lemma {:induction false} ReplaceOne(x: char, c: char, with: string)
    ensures Replace([x], c, with) == if x == c then with else [x]
  {
    assert [x][1..] == "";
  }

  /** The later passes do not touch what the earlier ones inserted. */
  lemma EscapeTextOfOne(x: char)
    ensures EscapeText([x]) == TextEntity(x)
  {
    ReplaceOne(x, '&', "&amp;");
    ReplaceOne(x, '<', "&lt;");
    ReplaceOne(x, '>', "&gt;");
    ReplaceAbsent("&amp;", '<', "&lt;");
    ReplaceAbsent("&amp;", '>', "&gt;");
    ReplaceAbsent("&lt;", '>', "&gt;");
  }

  lemma {:induction false} QuotePassesKeep(e: string)
    requires '"' !in e && '\'' !in e
    ensures Replace(Replace(e, '"', "&quot;"), '\'', "&apos;") == e
  {
    ReplaceAbsent(e, '"', "&quot;");
    ReplaceAbsent(e, '\'', "&apos;");
  }

  lemma EscapeQuotes()
    ensures Replace(Replace("\"", '"', "&quot;"), '\'', "&apos;") == "&quot;"
    ensures Replace(Replace("'", '"', "&quot;"), '\'', "&apos;") == "&apos;"
  {
    ReplaceOne('"', '"', "&quot;");
    ReplaceAbsent("&quot;", '\'', "&apos;");
    ReplaceOne('\'', '"', "&quot;");
    ReplaceOne('\'', '\'', "&apos;");
  }

  lemma EscapeAttributeOfOne(x: char)
    ensures EscapeAttribute([x]) == AttributeEntity(x)
  {
    EscapeTextOfOne(x);
    if x == '"' || x == '\'' {
      assert TextEntity(x) == [x];
      EscapeQuotes();
    } else {
      QuotePassesKeep(TextEntity(x));
    }
  }

  /** The sequential replace passes equal one per-character map. */
  lemma {:induction false} EscapeTextIsMap(s: string)
    ensures EscapeText(s) == MapChars(TextEntity, s)
    decreases |s|
  {
    if s != "" {
      assert s == [s[0]] + s[1..];
      EscapeTextOfConcat([s[0]], s[1..]);
      EscapeTextOfOne(s[0]);
      EscapeTextIsMap(s[1..]);
    }
  }

  lemma {:induction false} EscapeAttributeIsMap(s: string)
    ensures EscapeAttribute(s) == MapChars(AttributeEntity, s)
    decreases |s|
  {
    if s != "" {
      assert s == [s[0]] + s[1..];
      EscapeAttributeOfConcat([s[0]], s[1..]);
      EscapeAttributeOfOne(s[0]);
      EscapeAttributeIsMap(s[1..]);
    }
  }

  /** The reference unescape: the five predefined entities, and no other use of an ampersand. */
  function Unescape(s: string): Option<string>
    decreases |s|
  {
    if s == "" then Some("")
    else
      var (c, n) :=
        if s[0] != '&' then (s[0], 1)
        else if "&amp;" <= s then ('&', 5)
        else if "&lt;" <= s then ('<', 4)
        else if "&gt;" <= s then ('>', 4)
        else if "&quot;" <= s then ('"', 6)
        else if "&apos;" <= s then ('\'', 6)
        else ('&', 0);
      if n == 0 || Unescape(s[n..]).None? then None else Some([c] + Unescape(s[n..]).value)
  }

  /** Some entity of a character, plain or predefined. */
  predicate Escapes(e: string, c: char) {
    e == AttributeEntity(c) || e == TextEntity(c)
  }

  /** An entity at the front is recognised, whatever follows. */
  lemma {:induction false} EntityFirst(e: string, c: char, rest: string)
    requires e in ["&amp;", "&lt;", "&gt;", "&quot;", "&apos;"]
    requires c == if e == "&amp;" then '&' else if e == "&lt;" then '<' else if e == "&gt;" then '>' else if e == "&quot;" then '"' else '\''
    ensures Unescape(e + rest) == if Unescape(rest).None? then None else Some([c] + Unescape(rest).value)
  {
    var s := e + rest;
    assert s[|e|..] == rest && s[..|e|] == e;
    assert s[0] == '&' && s[1] == e[1] && s[2] == e[2];
  }

  lemma {:induction false} UnescapeOne(e: string, c: char, rest: string)
    requires Escapes(e, c)
    ensures Unescape(e + rest) == if Unescape(rest).None? then None else Some([c] + Unescape(rest).value)
  {
    if e[0] == '&' {
      EntityFirst(e, c, rest);
    } else {
      assert e == [c] && (e + rest)[1..] == rest;
    }
  }

  lemma {:induction false} UnescapeMap(entity: char -> string, s: string)
    requires forall c :: Escapes(entity(c), c)
    ensures Unescape(MapChars(entity, s)) == Some(s)
    decreases |s|
  {
    if s != "" {
      assert s == [s[0]] + s[1..];
      UnescapeMap(entity, s[1..]);
      UnescapeOne(entity(s[0]), s[0], MapChars(entity, s[1..]));
    }
  }

  /** Unescaping undoes both escapes, on every string. */
  lemma UnescapeInverts(s: string)
    ensures Unescape(EscapeText(s)) == Some(s)
    ensures Unescape(EscapeAttribute(s)) == Some(s)
  {
    EscapeTextIsMap(s);
    EscapeAttributeIsMap(s);
    UnescapeMap(TextEntity, s);
    UnescapeMap(AttributeEntity, s);
  }

  lemma {:induction false} MapCharsAvoids(entity: char -> string, s: string, bad: char)
    requires forall c :: bad !in entity(c)
    ensures bad !in MapChars(entity, s)
    decreases |s|
  {
    if s != "" {
      MapCharsAvoids(entity, s[1..], bad);
    }
  }

  /** Escaped text holds no markup character. */
  lemma EscapedTextIsPlain(s: string)
    ensures '<' !in EscapeText(s) && '>' !in EscapeText(s)
    ensures s != "" ==> EscapeText(s) != ""
  {
    EscapeTextIsMap(s);
    MapCharsAvoids(TextEntity, s, '<');
    MapCharsAvoids(TextEntity, s, '>');
  }

  /** An escaped attribute holds no markup character and no quote. */
  lemma EscapedAttributeIsPlain(s: string)
    ensures '<' !in EscapeAttribute(s) && '>' !in EscapeAttribute(s) && '"' !in EscapeAttribute(s)
  {
    EscapeAttributeIsMap(s);
    MapCharsAvoids(AttributeEntity, s, '<');
    MapCharsAvoids(AttributeEntity, s, '>');
    MapCharsAvoids(AttributeEntity, s, '"');
  }
}

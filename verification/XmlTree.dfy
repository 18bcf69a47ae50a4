/**
  Elements, their printer, and a reference reader that recovers every well-formed tree from its print
  (sections 2.1, 3 and 3.1 of XML 1.0, for elements with at most one attribute).
 */
module XmlTree {
  import opened Wrappers
  import opened Text
  import opened Xml

  datatype Attribute = Attribute(key: string, value: string)

  datatype Element = Element(name: string, attribute: Option<Attribute>, content: Contents)

  /** Character data and child elements, in order. */
  datatype Contents = Done | TextNode(text: string, next: Contents) | ChildNode(child: Element, next: Contents)

  // ---- Printer ----

  function PrintTag(name: string, attribute: Option<Attribute>): string {
    match attribute
    case None => name
    case Some(a) => name + " " + (a.key + "=" + ("\"" + EscapeAttribute(a.value) + "\""))
  }

  function Close(name: string): string {
    "</" + name + ">"
  }

  function Print(e: Element): string {
    "<" + PrintTag(e.name, e.attribute) + ">" + PrintContents(e.content) + Close(e.name)
  }

  function PrintContents(c: Contents): string {
    match c
    case Done => ""
    case TextNode(t, next) => EscapeText(t) + PrintContents(next)
    case ChildNode(e, next) => Print(e) + PrintContents(next)
  }

  // ---- Reader ----

  function ReadAttribute(s: string): Option<Attribute> {
    var i := IndexOf(s, '=');
    if i == |s| then None
    else
      var quoted := s[i + 1..];
      if |quoted| < 2 || quoted[0] != '"' || quoted[|quoted| - 1] != '"' then None
      else match Unescape(quoted[1..|quoted| - 1])
        case None => None
        case Some(value) => Some(Attribute(s[..i], value))
  }

  function ReadTag(tag: string): Option<(string, Option<Attribute>)> {
    var i := IndexOf(tag, ' ');
    if i == |tag| then Some((tag, None))
    else match ReadAttribute(tag[i + 1..])
      case None => None
      case Some(a) => Some((tag[..i], Some(a)))
  }

  function ReadElement(s: string): (r: Option<(Element, string)>)
    ensures r.Some? ==> |r.value.1| < |s|
    decreases |s|, 0
  {
    var i := IndexOf(s, '>');
    if s == "" || s[0] != '<' || i == |s| || ReadTag(s[1..i]).None? then None
    else
      var (name, attribute) := ReadTag(s[1..i]).value;
      match ReadContents(s[i + 1..])
      case None => None
      case Some((content, rest)) =>
        if Close(name) <= rest then Some((Element(name, attribute, content), rest[|Close(name)|..])) else None
  }

  /** Reads up to the next closing tag or the end. */
  function ReadContents(s: string): (r: Option<(Contents, string)>)
    ensures r.Some? ==> |r.value.1| <= |s|
    decreases |s|, 1
  {
    if s == "" || "</" <= s then Some((Done, s))
    else if s[0] == '<' then
      (match ReadElement(s)
       case None => None
       case Some((e, rest)) =>
         match ReadContents(rest)
         case None => None
         case Some((next, out)) => Some((ChildNode(e, next), out)))
    else
      var i := IndexOf(s, '<');
      if Unescape(s[..i]).None? then None
      else match ReadContents(s[i..])
        case None => None
        case Some((next, out)) => Some((TextNode(Unescape(s[..i]).value, next), out))
  }

  // ---- Well-formed trees ----

  predicate GoodName(name: string) {
    name != "" && name[0] != '/' && ' ' !in name && '>' !in name && '=' !in name
  }

  predicate Good(e: Element) {
    && GoodName(e.name)
    && (e.attribute.Some? ==> GoodName(e.attribute.value.key))
    && GoodContents(e.content)
  }

  /** No empty character data, and never two stretches of it in a row. */
  predicate GoodContents(c: Contents) {
    match c
    case Done => true
    case TextNode(t, next) => t != "" && !next.TextNode? && GoodContents(next)
    case ChildNode(e, next) => Good(e) && GoodContents(next)
  }

  // ---- The reader inverts the printer ----

  lemma {:induction false} IndexAfter(a: string, c: char, b: string)
    requires c !in a
    ensures IndexOf(a + [c] + b, c) == |a|
  {
    var s := a + [c] + b;
    assert s[|a|] == c;
    assert forall k | 0 <= k < |a| :: s[k] == a[k] != c;
    var i := IndexOf(s, c);
    assert forall k | 0 <= k < i :: s[k] == s[..i][k] != c;
  }

  lemma AttributeRoundTrip(a: Attribute)
    requires GoodName(a.key)
    ensures ReadAttribute(a.key + "=" + ("\"" + EscapeAttribute(a.value) + "\"")) == Some(a)
  {
    var quoted := "\"" + EscapeAttribute(a.value) + "\"";
    var s := a.key + "=" + quoted;
    IndexAfter(a.key, '=', quoted);
    assert s[|a.key| + 1..] == quoted && s[..|a.key|] == a.key;
    assert quoted[1..|quoted| - 1] == EscapeAttribute(a.value);
    UnescapeInverts(a.value);
  }

  lemma TagRoundTrip(name: string, attribute: Option<Attribute>)
    requires GoodName(name) && (attribute.Some? ==> GoodName(attribute.value.key))
    ensures ReadTag(PrintTag(name, attribute)) == Some((name, attribute))
  {
    if attribute.Some? {
      var a := attribute.value;
      var tail := a.key + "=" + ("\"" + EscapeAttribute(a.value) + "\"");
      IndexAfter(name, ' ', tail);
      assert (name + " " + tail)[|name| + 1..] == tail && (name + " " + tail)[..|name|] == name;
      AttributeRoundTrip(a);
    }
  }

  lemma TagHasNoEnd(name: string, attribute: Option<Attribute>)
    requires GoodName(name) && (attribute.Some? ==> GoodName(attribute.value.key))
    ensures '>' !in PrintTag(name, attribute) && PrintTag(name, attribute) != "" && PrintTag(name, attribute)[0] == name[0]
  {
    if attribute.Some? {
      EscapedAttributeIsPlain(attribute.value.value);
    }
  }

  /** A print begins with an opening tag. */
  lemma {:induction false} PrintStarts(e: Element, rest: string)
    requires Good(e)
    ensures Print(e) + rest != "" && (Print(e) + rest)[0] == '<' && !("</" <= Print(e) + rest)
  {
    TagHasNoEnd(e.name, e.attribute);
    assert (Print(e) + rest)[1] == e.name[0];
  }

  /** What follows character data begins with markup. */
  lemma {:induction false} ContentsStart(c: Contents, rest: string)
    requires GoodContents(c) && !c.TextNode? && "</" <= rest
    ensures PrintContents(c) + rest != "" && (PrintContents(c) + rest)[0] == '<'
  {
    match c {
      case Done => assert PrintContents(c) + rest == rest;
      case ChildNode(e, next) =>
        PrintStarts(e, PrintContents(next) + rest);
        assert Print(e) + PrintContents(next) + rest == Print(e) + (PrintContents(next) + rest);
    }
  }

  lemma TextStep(t: string, tail: string)
    requires t != "" && tail != "" && tail[0] == '<'
    ensures var s := EscapeText(t) + tail;
            && s != "" && s[0] != '<' && !("</" <= s)
            && IndexOf(s, '<') == |EscapeText(t)| && s[..|EscapeText(t)|] == EscapeText(t) && s[|EscapeText(t)|..] == tail
            && Unescape(EscapeText(t)) == Some(t)
  {
    EscapedTextIsPlain(t);
    UnescapeInverts(t);
    var s := EscapeText(t) + tail;
    assert s == EscapeText(t) + ['<'] + tail[1..];
    IndexAfter(EscapeText(t), '<', tail[1..]);
    assert s[0] == EscapeText(t)[0];
  }

  lemma FirstTag(tag: string, body: string)
    requires '>' !in tag
    ensures var s, n := "<" + tag + ">" + body, |tag| + 1;
            s != "" && s[0] == '<' && n < |s| && IndexOf(s, '>') == n && s[1..n] == tag && s[n + 1..] == body
  {
    IndexAfter("<" + tag, '>', body);
  }

  /** The opening tag of a print is found and read back. */
  lemma TagStep(name: string, attribute: Option<Attribute>, body: string)
    requires GoodName(name) && (attribute.Some? ==> GoodName(attribute.value.key))
    ensures var s, n := "<" + PrintTag(name, attribute) + ">" + body, |PrintTag(name, attribute)| + 1;
            && s != "" && s[0] == '<' && IndexOf(s, '>') == n && n < |s|
            && ReadTag(s[1..n]) == Some((name, attribute)) && s[n + 1..] == body
  {
    TagHasNoEnd(name, attribute);
    FirstTag(PrintTag(name, attribute), body);
    TagRoundTrip(name, attribute);
  }

  lemma {:induction false} PrintIsTagAndBody(e: Element, rest: string)
    ensures Print(e) + rest == "<" + PrintTag(e.name, e.attribute) + ">" + (PrintContents(e.content) + (Close(e.name) + rest))
  {
  }

  /** Every well-formed element is recovered from its print, whatever follows it. */
  lemma {:induction false} ReaderInvertsPrinter(e: Element, rest: string)
    requires Good(e)
    ensures ReadElement(Print(e) + rest) == Some((e, rest))
    decreases e
  {
    var tail := Close(e.name) + rest;
    var body := PrintContents(e.content) + tail;
    PrintIsTagAndBody(e, rest);
    TagStep(e.name, e.attribute, body);
    ContentsRoundTrip(e.content, tail);
    assert Close(e.name) <= tail && tail[|Close(e.name)|..] == rest;
  }

  lemma {:induction false} ContentsRoundTrip(c: Contents, rest: string)
    requires GoodContents(c) && "</" <= rest
    ensures ReadContents(PrintContents(c) + rest) == Some((c, rest))
    decreases c
  {
    match c {
      case Done => assert PrintContents(c) + rest == rest;
      case TextNode(t, next) =>
        var tail := PrintContents(next) + rest;
        assert PrintContents(c) + rest == EscapeText(t) + tail;
        ContentsStart(next, rest);
        TextStep(t, tail);
        ContentsRoundTrip(next, rest);
      case ChildNode(e, next) =>
        var tail := PrintContents(next) + rest;
        assert PrintContents(c) + rest == Print(e) + tail;
        PrintStarts(e, tail);
        ReaderInvertsPrinter(e, tail);
        ContentsRoundTrip(next, rest);
    }
  }
}

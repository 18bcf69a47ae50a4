/**
  The indented documents the builders append line by line to one string buffer
  (crates/kani-iso20022/src/lib.rs:266-343, 406-428), and the proof that a balanced sequence of appends prints
  a well-nested tree.
 */
module XmlBuffer {
  import opened Wrappers
  import opened Text
  import opened Xml
  import opened XmlTree

  const PROLOG := "<?xml version=\"1.0\" encoding=\"UTF-8\"?>\n"

  // ---- Laid-out trees ----

  /** `" ".repeat(n)` */
  function Spaces(n: nat): (s: string)
    ensures |s| == n && forall c | c in s :: c == ' '
  {
    seq(n, i => ' ')
  }

  function Leaf(name: string, value: string): Element {
    Element(name, None, if value == "" then Done else TextNode(value, Done))
  }

  function AmountLeaf(name: string, asset: string, amount: int): Element {
    Element(name, Some(Attribute("Ccy", asset)), TextNode(PrintInt(amount), Done))
  }

  /** Children on lines of their own, one level deeper. */
  function Laid(depth: nat, kids: seq<Element>): Contents {
    if kids == [] then TextNode("\n" + Spaces(2 * depth), Done)
    else TextNode("\n" + Spaces(2 * depth + 2), ChildNode(kids[0], Laid(depth, kids[1..])))
  }

  function Branch(depth: nat, name: string, attribute: Option<Attribute>, kids: seq<Element>): Element {
    Element(name, attribute, Laid(depth, kids))
  }

  function Indented(depth: nat, e: Element): string {
    Spaces(2 * depth) + Print(e) + "\n"
  }

  function AllIndented(depth: nat, kids: seq<Element>): string {
    if kids == [] then "" else Indented(depth, kids[0]) + AllIndented(depth, kids[1..])
  }

  function OpenLine(depth: nat, name: string, attribute: Option<Attribute>): string {
    Spaces(2 * depth) + "<" + PrintTag(name, attribute) + ">" + "\n"
  }

  function CloseLine(depth: nat, name: string): string {
    Spaces(2 * depth) + Close(name) + "\n"
  }

  lemma {:induction false} IndentedSnoc(depth: nat, kids: seq<Element>, e: Element)
    ensures AllIndented(depth, kids + [e]) == AllIndented(depth, kids) + Indented(depth, e)
    decreases |kids|
  {
    if kids == [] {
      assert (kids + [e])[1..] == [];
    } else {
      assert (kids + [e])[1..] == kids[1..] + [e];
      IndentedSnoc(depth, kids[1..], e);
    }
  }

  /** White space is not escaped. */
  lemma IndentIsPlain(n: nat)
    ensures EscapeText("\n" + Spaces(n)) == "\n" + Spaces(n)
  {
    var s := "\n" + Spaces(n);
    ReplaceAbsent(s, '&', "&amp;");
    ReplaceAbsent(s, '<', "&lt;");
    ReplaceAbsent(s, '>', "&gt;");
  }

  lemma RegroupChild(n: string, indent: string, first: string, rest: string, last: string)
    ensures (n + indent) + (first + (n + rest + last)) == n + ((indent + first + n) + rest) + last
  {
  }

  lemma RegroupBranch(n: string, indent: string, head: string, body: string, close: string)
    ensures indent + (head + (n + body + indent) + close) + n == (indent + head + n) + body + (indent + close + n)
  {
  }

  lemma {:induction false} LaidPrint(depth: nat, kids: seq<Element>)
    ensures PrintContents(Laid(depth, kids)) == "\n" + AllIndented(depth + 1, kids) + Spaces(2 * depth)
    decreases |kids|
  {
    if kids == [] {
      IndentIsPlain(2 * depth);
    } else {
      IndentIsPlain(2 * depth + 2);
      LaidPrint(depth, kids[1..]);
      var indent, first, rest := Spaces(2 * (depth + 1)), Print(kids[0]), AllIndented(depth + 1, kids[1..]);
      RegroupChild("\n", indent, first, rest, Spaces(2 * depth));
      assert PrintContents(Laid(depth, kids)) == ("\n" + indent) + (first + ("\n" + rest + Spaces(2 * depth)));
    }
  }

  /** A laid-out element is its opening line, its children's lines and its closing line. */
  lemma {:induction false} BranchIsLines(depth: nat, name: string, attribute: Option<Attribute>, kids: seq<Element>)
    ensures Indented(depth, Branch(depth, name, attribute, kids))
            == OpenLine(depth, name, attribute) + AllIndented(depth + 1, kids) + CloseLine(depth, name)
  {
    LaidPrint(depth, kids);
    var indent, tag := Spaces(2 * depth), PrintTag(name, attribute);
    RegroupBranch("\n", indent, "<" + tag + ">", AllIndented(depth + 1, kids), Close(name));
    assert indent + "<" + tag + ">" + "\n" == indent + ("<" + tag + ">") + "\n";
  }

  // ---- Well-formedness ----

  predicate GoodKids(kids: seq<Element>) {
    forall i | 0 <= i < |kids| :: Good(kids[i])
  }

  lemma {:induction false} LaidIsGood(depth: nat, kids: seq<Element>)
    requires GoodKids(kids)
    ensures GoodContents(Laid(depth, kids))
    decreases |kids|
  {
    if kids != [] {
      assert GoodKids(kids[1..]);
      LaidIsGood(depth, kids[1..]);
    }
  }

  function Children(c: Contents): seq<Element> {
    match c
    case Done => []
    case TextNode(_, next) => Children(next)
    case ChildNode(e, next) => [e] + Children(next)
  }

  lemma {:induction false} ChildrenOfLaid(depth: nat, kids: seq<Element>)
    ensures Children(Laid(depth, kids)) == kids
    decreases |kids|
  {
    if kids == [] {
      assert Children(Done) == [];
    } else {
      ChildrenOfLaid(depth, kids[1..]);
      assert Laid(depth, kids).next == ChildNode(kids[0], Laid(depth, kids[1..]));
    }
  }

  // ---- The buffer ----

  /** The elements opened so far, innermost first, each with the children already written. */
  datatype Stack =
    | Bottom(kids: seq<Element>)
    | Frame(name: string, attribute: Option<Attribute>, kids: seq<Element>, below: Stack)

  function Depth(stack: Stack): nat {
    match stack
    case Bottom(_) => 0
    case Frame(_, _, _, below) => Depth(below) + 1
  }

  function Rendered(stack: Stack): string {
    match stack
    case Bottom(kids) => AllIndented(0, kids)
    case Frame(name, attribute, kids, below) =>
      Rendered(below) + OpenLine(Depth(below), name, attribute) + AllIndented(Depth(below) + 1, kids)
  }

  function Added(stack: Stack, e: Element): Stack {
    match stack
    case Bottom(kids) => Bottom(kids + [e])
    case Frame(name, attribute, kids, below) => Frame(name, attribute, kids + [e], below)
  }

  lemma {:induction false} RenderedAdded(stack: Stack, e: Element)
    ensures Rendered(Added(stack, e)) == Rendered(stack) + Indented(Depth(stack), e)
    ensures Depth(Added(stack, e)) == Depth(stack)
  {
    IndentedSnoc(Depth(stack), stack.kids, e);
    if stack.Frame? {
      var open := Rendered(stack.below) + OpenLine(Depth(stack.below), stack.name, stack.attribute);
      assert open + (AllIndented(Depth(stack), stack.kids) + Indented(Depth(stack), e))
             == (open + AllIndented(Depth(stack), stack.kids)) + Indented(Depth(stack), e);
    }
  }

  lemma RegroupClose(a: string, b: string, c: string, e: string)
    ensures a + (b + c + e) == (a + b + c) + e
  {
  }

  /** The innermost element becomes a child of the one around it. */
  function Closed(stack: Stack): Stack
    requires stack.Frame?
  {
    Added(stack.below, Branch(Depth(stack.below), stack.name, stack.attribute, stack.kids))
  }

  lemma {:induction false} RenderedClosed(stack: Stack)
    requires stack.Frame?
    ensures Rendered(Closed(stack)) == Rendered(stack) + CloseLine(Depth(stack.below), stack.name)
  {
    var d, below := Depth(stack.below), stack.below;
    RenderedAdded(below, Branch(d, stack.name, stack.attribute, stack.kids));
    BranchIsLines(d, stack.name, stack.attribute, stack.kids);
    RegroupClose(Rendered(below), OpenLine(d, stack.name, stack.attribute), AllIndented(d + 1, stack.kids), CloseLine(d, stack.name));
  }

  lemma Append(a: string, b: string, c: string)
    ensures (a + b) + c == a + (b + c)
  {
  }

  lemma {:induction false} RenderedOpened(stack: Stack, name: string, attribute: Option<Attribute>)
    ensures PROLOG + Rendered(Frame(name, attribute, [], stack)) == PROLOG + Rendered(stack) + OpenLine(Depth(stack), name, attribute)
  {
    var line := OpenLine(Depth(stack), name, attribute);
    assert Rendered(stack) + line + "" == Rendered(stack) + line;
    Append(PROLOG, Rendered(stack), line);
  }

  lemma {:induction false} TextClosed(text: string, line: string, stack: Stack)
    requires stack.Frame? && text == PROLOG + Rendered(stack) && line == CloseLine(Depth(stack.below), stack.name)
    ensures text + line == PROLOG + Rendered(Closed(stack))
  {
    RenderedClosed(stack);
    Append(PROLOG, Rendered(stack), line);
  }

  /** The growing `String`; the stack is what the text so far means. */
  class Buffer {
    var text: string
    ghost var stack: Stack

    ghost predicate Valid()
      reads this
    {
      text == PROLOG + Rendered(stack)
    }

    constructor ()
      ensures Valid() && stack == Bottom([])
    {
      text := PROLOG;
      stack := Bottom([]);
    }

    /** A literal opening line such as `"    <GrpHdr>\n"`. */
    method Open(indent: nat, name: string, attribute: Option<Attribute>)
      requires Valid() && indent == 2 * Depth(stack)
      modifies this
      ensures Valid() && stack == Frame(name, attribute, [], old(stack))
    {
      ghost var before := stack;
      assert indent / 2 == Depth(before);
      text := text + OpenLine(indent / 2, name, attribute);
      stack := Frame(name, attribute, [], before);
      RenderedOpened(before, name, attribute);
    }

    /** A literal closing line; it must close the innermost open element at that element's own indent. */
    method CloseTag(indent: nat, name: string)
      requires Valid() && stack.Frame? && stack.name == name && indent == 2 * Depth(stack.below)
      modifies this
      ensures Valid() && stack == Closed(old(stack))
    {
      var line := CloseLine(indent / 2, name);
      TextClosed(text, line, stack);
      text := text + line;
      stack := Closed(stack);
    }

    /** `push_element` */
    method PushElement(indent: nat, name: string, value: string)
      requires Valid() && indent == 2 * Depth(stack)
      modifies this
      ensures Valid() && stack == Added(old(stack), Leaf(name, value))
    {
      var line := Spaces(indent) + "<" + name + ">" + EscapeText(value) + "</" + name + ">\n";
      LeafLine(Depth(stack), name, value);
      RenderedAdded(stack, Leaf(name, value));
      Append(PROLOG, Rendered(stack), line);
      text := text + line;
      stack := Added(stack, Leaf(name, value));
    }

    /** `push_amount_element` */
    method PushAmountElement(indent: nat, name: string, asset: string, amount: int)
      requires Valid() && indent == 2 * Depth(stack)
      modifies this
      ensures Valid() && stack == Added(old(stack), AmountLeaf(name, asset, amount))
    {
      var line := Spaces(indent) + "<" + name + " Ccy=\"" + EscapeAttribute(asset) + "\">" + PrintInt(amount) + "</" + name + ">\n";
      AmountLine(Depth(stack), name, asset, amount);
      RenderedAdded(stack, AmountLeaf(name, asset, amount));
      Append(PROLOG, Rendered(stack), line);
      text := text + line;
      stack := Added(stack, AmountLeaf(name, asset, amount));
    }
  }

  lemma LeafLine(depth: nat, name: string, value: string)
    ensures Indented(depth, Leaf(name, value))
            == Spaces(2 * depth) + "<" + name + ">" + EscapeText(value) + "</" + name + ">\n"
  {
    var body := EscapeText(value);
    assert PrintContents(Leaf(name, value).content) == body by {
      if value == "" {
        EscapeTextIsMap("");
      } else {
        assert body + "" == body;
      }
    }
    assert Spaces(2 * depth) + ("<" + name + ">" + body + ("</" + name + ">")) + "\n"
           == Spaces(2 * depth) + "<" + name + ">" + body + "</" + name + ">\n";
  }

  lemma PlainDigits(amount: int)
    ensures EscapeText(PrintInt(amount)) == PrintInt(amount)
  {
    var s := PrintInt(amount);
    assert forall n: nat :: AllDigits(PrintNat(n));
    assert '&' !in s && '<' !in s && '>' !in s;
    ReplaceAbsent(s, '&', "&amp;");
    ReplaceAbsent(s, '<', "&lt;");
    ReplaceAbsent(s, '>', "&gt;");
  }

  lemma AmountLine(depth: nat, name: string, asset: string, amount: int)
    ensures Indented(depth, AmountLeaf(name, asset, amount))
            == Spaces(2 * depth) + "<" + name + " Ccy=\"" + EscapeAttribute(asset) + "\">" + PrintInt(amount) + "</" + name + ">\n"
  {
    PlainDigits(amount);
    var e := AmountLeaf(name, asset, amount);
    assert PrintContents(e.content) == PrintInt(amount);
    var value, digits := EscapeAttribute(asset), PrintInt(amount);
    CurrencyTag(name, value);
    AmountText(Spaces(2 * depth), name, value, digits);
  }

  lemma CurrencyTag(name: string, value: string)
    ensures name + " " + ("Ccy" + "=" + ("\"" + value + "\"")) == name + " Ccy=\"" + value + "\""
  {
  }

  lemma AmountText(indent: string, name: string, value: string, digits: string)
    ensures indent + ("<" + (name + " Ccy=\"" + value + "\"") + ">" + digits + ("</" + name + ">")) + "\n"
            == indent + "<" + name + " Ccy=\"" + value + "\">" + digits + "</" + name + ">\n"
  {
  }
}

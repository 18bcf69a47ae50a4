/**
  The camt.053.001.08 account statement (crates/kani-iso20022/src/lib.rs:266-343, 394-403): the builder
  that appends lines to a buffer, the tree it prints, and a reference reader that recovers the statement.
 */
module Camt053 {
  import opened Wrappers
  import opened Text
  import opened Xml
  import opened XmlTree
  import opened XmlBuffer
  import opened MachineArithmetic

  datatype Indicator = Credit | Debit

  datatype Entry = Entry(
    id: string, transactionId: string, asset: string, amount: int, direction: Indicator, blockHeight: int, bookedAt: string)

  datatype Statement = Statement(
    messageId: string, createdAt: string, statementId: string, accountId: string, asset: string, balance: int,
    entries: seq<Entry>)

  function Code(i: Indicator): string {
    match i
    case Credit => "CRDT"
    case Debit => "DBIT"
  }

  function BalanceIndicator(balance: int): Indicator {
    if balance < 0 then Debit else Credit
  }

  /** `amount.checked_abs().unwrap_or(i128::MAX)` */
  function PositiveAmount(amount: int): int {
    if amount == MIN_I128 then MAX_I128 else if amount < 0 then -amount else amount
  }

  function Note(e: Entry): string {
    "KANI block_height=" + PrintInt(e.blockHeight)
  }

  const NAMESPACE := Attribute("xmlns", "urn:iso:std:iso:20022:tech:xsd:camt.053.001.08")

  // ---- The tree a statement prints as ----

  function HeaderTree(s: Statement): Element {
    Branch(2, "GrpHdr", None, [Leaf("MsgId", s.messageId), Leaf("CreDtTm", s.createdAt)])
  }

  function Wrapped(depth: nat, name: string, leaf: string, value: string): Element {
    Branch(depth, name, None, [Leaf(leaf, value)])
  }

  function AccountTree(s: Statement): Element {
    Branch(3, "Acct", None, [Branch(4, "Id", None, [Wrapped(5, "Othr", "Id", s.accountId)]), Leaf("Ccy", s.asset)])
  }

  function TypeTree(): Element {
    Branch(4, "Tp", None, [Wrapped(5, "CdOrPrtry", "Cd", "CLBD")])
  }

  function BalanceKids(s: Statement): seq<Element> {
    [TypeTree(),
     AmountLeaf("Amt", s.asset, PositiveAmount(s.balance)),
     Leaf("CdtDbtInd", Code(BalanceIndicator(s.balance))),
     Wrapped(4, "Dt", "DtTm", s.createdAt)]
  }

  function BalanceTree(s: Statement): Element {
    Branch(3, "Bal", None, BalanceKids(s))
  }

  function EntryHead(e: Entry): seq<Element> {
    [Leaf("NtryRef", e.id), AmountLeaf("Amt", e.asset, PositiveAmount(e.amount)), Leaf("CdtDbtInd", Code(e.direction))]
  }

  function EntryTail(e: Entry): seq<Element> {
    [Wrapped(4, "Sts", "Cd", "BOOK"), Wrapped(4, "BookgDt", "DtTm", e.bookedAt),
     Leaf("AcctSvcrRef", e.transactionId), Leaf("AddtlNtryInf", Note(e))]
  }

  function EntryKids(e: Entry): seq<Element> {
    EntryHead(e) + EntryTail(e)
  }

  function EntryTree(e: Entry): Element {
    Branch(3, "Ntry", None, EntryKids(e))
  }

  function EntryTrees(entries: seq<Entry>): seq<Element> {
    seq(|entries|, i requires 0 <= i < |entries| => EntryTree(entries[i]))
  }

  function StatementKids(s: Statement): seq<Element> {
    [Leaf("Id", s.statementId), Leaf("ElctrncSeqNb", "1"), AccountTree(s), BalanceTree(s)]
  }

  function StatementTree(s: Statement): Element {
    Branch(2, "Stmt", None, StatementKids(s) + EntryTrees(s.entries))
  }

  function MessageTree(s: Statement): Element {
    Branch(1, "BkToCstmrStmt", None, [HeaderTree(s), StatementTree(s)])
  }

  function DocumentTree(s: Statement): Element {
    Branch(0, "Document", Some(NAMESPACE), [MessageTree(s)])
  }

  // ---- The builder ----

  method PushHeader(xml: Buffer, s: Statement)
    requires xml.Valid() && Depth(xml.stack) == 2
    modifies xml
    ensures xml.Valid() && xml.stack == Added(old(xml.stack), HeaderTree(s))
  {
    xml.Open(4, "GrpHdr", None);
    xml.PushElement(6, "MsgId", s.messageId);
    xml.PushElement(6, "CreDtTm", s.createdAt);
    ghost var id, time := Leaf("MsgId", s.messageId), Leaf("CreDtTm", s.createdAt);
    assert [] + [id] + [time] == [id, time];
    xml.CloseTag(4, "GrpHdr");
  }

  /** An element whose only child is a leaf. */
  method PushWrapped(xml: Buffer, indent: nat, name: string, leaf: string, value: string)
    requires xml.Valid() && indent == 2 * Depth(xml.stack)
    modifies xml
    ensures xml.Valid() && xml.stack == Added(old(xml.stack), Wrapped(indent / 2, name, leaf, value))
  {
    xml.Open(indent, name, None);
    xml.PushElement(indent + 2, leaf, value);
    assert [] + [Leaf(leaf, value)] == [Leaf(leaf, value)];
    xml.CloseTag(indent, name);
  }

  method PushAccount(xml: Buffer, s: Statement)
    requires xml.Valid() && Depth(xml.stack) == 3
    modifies xml
    ensures xml.Valid() && xml.stack == Added(old(xml.stack), AccountTree(s))
  {
    xml.Open(6, "Acct", None);
    xml.Open(8, "Id", None);
    PushWrapped(xml, 10, "Othr", "Id", s.accountId);
    ghost var othr := Wrapped(5, "Othr", "Id", s.accountId);
    assert [] + [othr] == [othr];
    xml.CloseTag(8, "Id");
    xml.PushElement(8, "Ccy", s.asset);
    ghost var ident, ccy := Branch(4, "Id", None, [othr]), Leaf("Ccy", s.asset);
    assert [] + [ident] + [ccy] == [ident, ccy];
    xml.CloseTag(6, "Acct");
  }

  method PushType(xml: Buffer)
    requires xml.Valid() && Depth(xml.stack) == 4
    modifies xml
    ensures xml.Valid() && xml.stack == Added(old(xml.stack), TypeTree())
  {
    xml.Open(8, "Tp", None);
    PushWrapped(xml, 10, "CdOrPrtry", "Cd", "CLBD");
    ghost var choice := Wrapped(5, "CdOrPrtry", "Cd", "CLBD");
    assert [] + [choice] == [choice];
    xml.CloseTag(8, "Tp");
  }

  method PushBalanceAmount(xml: Buffer, s: Statement)
    requires xml.Valid() && Depth(xml.stack) == 4 && xml.stack.Frame?
    modifies xml
    ensures xml.Valid()
    ensures var before := old(xml.stack);
            xml.stack == Frame(before.name, before.attribute, before.kids + BalanceKids(s)[1..], before.below)
  {
    ghost var tail := BalanceKids(s)[1..];
    ghost var before := xml.stack;
    xml.PushAmountElement(8, "Amt", s.asset, PositiveAmount(s.balance));
    assert xml.stack.kids == before.kids + tail[..1];
    xml.PushElement(8, "CdtDbtInd", Code(BalanceIndicator(s.balance)));
    assert xml.stack.kids == before.kids + tail[..2];
    PushWrapped(xml, 8, "Dt", "DtTm", s.createdAt);
    assert xml.stack.kids == before.kids + tail;
  }

  method PushBalance(xml: Buffer, s: Statement)
    requires xml.Valid() && Depth(xml.stack) == 3
    modifies xml
    ensures xml.Valid() && xml.stack == Added(old(xml.stack), BalanceTree(s))
  {
    ghost var kids := BalanceKids(s);
    xml.Open(6, "Bal", None);
    PushType(xml);
    assert xml.stack.kids == kids[..1];
    PushBalanceAmount(xml, s);
    assert kids[..1] + kids[1..] == kids;
    xml.CloseTag(6, "Bal");
  }

  method PushEntry(xml: Buffer, e: Entry)
    requires xml.Valid() && Depth(xml.stack) == 3
    modifies xml
    ensures xml.Valid() && xml.stack == Added(old(xml.stack), EntryTree(e))
  {
    ghost var below := xml.stack;
    ghost var head := EntryHead(e);
    xml.Open(6, "Ntry", None);
    xml.PushElement(8, "NtryRef", e.id);
    assert xml.stack == Frame("Ntry", None, head[..1], below);
    xml.PushAmountElement(8, "Amt", e.asset, PositiveAmount(e.amount));
    assert xml.stack == Frame("Ntry", None, head[..2], below);
    xml.PushElement(8, "CdtDbtInd", Code(e.direction));
    assert xml.stack == Frame("Ntry", None, head, below);
    PushEntryTail(xml, e);
    xml.CloseTag(6, "Ntry");
  }

  method PushEntryTail(xml: Buffer, e: Entry)
    requires xml.Valid() && Depth(xml.stack) == 4 && xml.stack.Frame?
    modifies xml
    ensures xml.Valid()
    ensures var before := old(xml.stack);
            xml.stack == Frame(before.name, before.attribute, before.kids + EntryTail(e), before.below)
  {
    ghost var tail := EntryTail(e);
    ghost var before := xml.stack;
    PushWrapped(xml, 8, "Sts", "Cd", "BOOK");
    assert xml.stack.kids == before.kids + tail[..1];
    PushWrapped(xml, 8, "BookgDt", "DtTm", e.bookedAt);
    assert xml.stack.kids == before.kids + tail[..2];
    xml.PushElement(8, "AcctSvcrRef", e.transactionId);
    assert xml.stack.kids == before.kids + tail[..3];
    xml.PushElement(8, "AddtlNtryInf", Note(e));
    assert xml.stack.kids == before.kids + tail;
  }

  method PushIds(xml: Buffer, s: Statement)
    requires xml.Valid() && Depth(xml.stack) == 3 && xml.stack.Frame? && xml.stack.kids == []
    modifies xml
    ensures xml.Valid()
    ensures var before := old(xml.stack); xml.stack == Frame(before.name, before.attribute, StatementKids(s)[..2], before.below)
  {
    xml.PushElement(6, "Id", s.statementId);
    xml.PushElement(6, "ElctrncSeqNb", "1");
    ghost var id, number := Leaf("Id", s.statementId), Leaf("ElctrncSeqNb", "1");
    assert [] + [id] + [number] == [id, number] == StatementKids(s)[..2];
  }

  /** The statement up to its entries. */
  method PushStatementHead(xml: Buffer, s: Statement)
    requires xml.Valid() && Depth(xml.stack) == 2
    modifies xml
    ensures xml.Valid() && xml.stack == Frame("Stmt", None, StatementKids(s), old(xml.stack))
  {
    ghost var below, kids := xml.stack, StatementKids(s);
    xml.Open(4, "Stmt", None);
    PushIds(xml, s);
    assert xml.stack == Frame("Stmt", None, kids[..2], below);
    PushAccount(xml, s);
    assert xml.stack == Frame("Stmt", None, kids[..3], below);
    PushBalance(xml, s);
    assert xml.stack == Frame("Stmt", None, kids, below);
  }

  lemma OneMoreEntry(kids: seq<Element>, entries: seq<Entry>, i: nat)
    requires i < |entries|
    ensures kids + EntryTrees(entries[..i]) + [EntryTree(entries[i])] == kids + EntryTrees(entries[..i + 1])
  {
    assert EntryTrees(entries[..i + 1]) == EntryTrees(entries[..i]) + [EntryTree(entries[i])];
  }

  method PushEntries(xml: Buffer, entries: seq<Entry>)
    requires xml.Valid() && xml.stack.Frame? && Depth(xml.stack) == 3
    modifies xml
    ensures xml.Valid()
    ensures var before := old(xml.stack);
            xml.stack == Frame(before.name, before.attribute, before.kids + EntryTrees(entries), before.below)
  {
    ghost var before := xml.stack;
    var i := 0;
    assert before.kids + EntryTrees(entries[..0]) == before.kids;
    while i < |entries|
      invariant 0 <= i <= |entries| && xml.Valid()
      invariant xml.stack == Frame(before.name, before.attribute, before.kids + EntryTrees(entries[..i]), before.below)
    {
      PushEntry(xml, entries[i]);
      OneMoreEntry(before.kids, entries, i);
      i := i + 1;
    }
    assert entries[..i] == entries;
  }

  method PushStatement(xml: Buffer, s: Statement)
    requires xml.Valid() && Depth(xml.stack) == 2
    modifies xml
    ensures xml.Valid() && xml.stack == Added(old(xml.stack), StatementTree(s))
  {
    PushStatementHead(xml, s);
    PushEntries(xml, s.entries);
    xml.CloseTag(4, "Stmt");
  }

  method PushMessage(xml: Buffer, s: Statement)
    requires xml.Valid() && Depth(xml.stack) == 1
    modifies xml
    ensures xml.Valid() && xml.stack == Added(old(xml.stack), MessageTree(s))
  {
    xml.Open(2, "BkToCstmrStmt", None);
    PushHeader(xml, s);
    PushStatement(xml, s);
    ghost var header, statement := HeaderTree(s), StatementTree(s);
    assert [] + [header] + [statement] == [header, statement];
    xml.CloseTag(2, "BkToCstmrStmt");
  }

  method PushDocument(xml: Buffer, s: Statement)
    requires xml.Valid() && Depth(xml.stack) == 0
    modifies xml
    ensures xml.Valid() && xml.stack == Added(old(xml.stack), DocumentTree(s))
  {
    xml.Open(0, "Document", Some(NAMESPACE));
    PushMessage(xml, s);
    ghost var message := MessageTree(s);
    assert [] + [message] == [message];
    xml.CloseTag(0, "Document");
  }

  lemma {:induction false} WholeText(stack: Stack, e: Element)
    requires stack == Added(Bottom([]), e)
    ensures PROLOG + Rendered(stack) == PROLOG + Indented(0, e)
  {
    RenderedAdded(Bottom([]), e);
    assert Rendered(Bottom([])) == "";
    assert "" + Indented(0, e) == Indented(0, e);
  }

  /** The printed statement is the print of one well-nested tree. */
  method BuildCamt053Statement(s: Statement) returns (text: string)
    ensures text == PROLOG + Indented(0, DocumentTree(s))
  {
    var xml := new Buffer();
    PushDocument(xml, s);
    WholeText(xml.stack, DocumentTree(s));
    text := xml.text;
  }
}

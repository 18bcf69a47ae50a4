/**
  A reference reader for printed camt.053.001.08 statements, and the round trip: whatever text the fields
  hold and however many entries there are, reading the printed document recovers the statement.
 */
module Camt053Reader {
  import opened Wrappers
  import opened Text
  import opened Xml
  import opened XmlTree
  import opened XmlBuffer
  import opened MachineArithmetic
  import opened Camt053

  /** One booked entry as a reader sees it. */
  datatype Posting = Posting(
    id: string, asset: string, amount: int, direction: Indicator, bookedAt: string, transactionId: string, note: string)

  /** The one balance of a statement: its type code, its currency, its signed amount and its time. */
  datatype ReadBalance = ReadBalance(code: string, asset: string, amount: int, at: string)

  datatype Reading = Reading(
    messageId: string, createdAt: string, statementId: string, number: string, accountId: string, asset: string, balance: ReadBalance,
    postings: seq<Posting>)

  // ---- Reading elements ----

  function KidsOf(e: Element): seq<Element> {
    Children(e.content)
  }

  function LeafText(e: Element, name: string): Option<string> {
    if e.name != name then None
    else match e.content
      case Done => Some("")
      case TextNode(t, Done) => Some(t)
      case _ => None
  }

  function WrappedText(e: Element, name: string, leaf: string): Option<string> {
    if e.name != name || |KidsOf(e)| != 1 then None else LeafText(KidsOf(e)[0], leaf)
  }

  function ReadAmount(e: Element): Option<(string, int)> {
    var digits := LeafText(e, "Amt");
    if digits.None? || e.attribute.None? || e.attribute.value.key != "Ccy" || !Canonical(digits.value) then None
    else Some((e.attribute.value.value, DigitsValue(digits.value)))
  }

  function ReadIndicator(e: Element): Option<Indicator> {
    var code := LeafText(e, "CdtDbtInd");
    if code == Some("CRDT") then Some(Credit) else if code == Some("DBIT") then Some(Debit) else None
  }

  function ReadEntry(e: Element): Option<Posting> {
    var kids := KidsOf(e);
    if e.name != "Ntry" || |kids| != 7 then None
    else
      var id, amount, direction := LeafText(kids[0], "NtryRef"), ReadAmount(kids[1]), ReadIndicator(kids[2]);
      var status, booked := WrappedText(kids[3], "Sts", "Cd"), WrappedText(kids[4], "BookgDt", "DtTm");
      var transaction, note := LeafText(kids[5], "AcctSvcrRef"), LeafText(kids[6], "AddtlNtryInf");
      if id.None? || amount.None? || direction.None? || status != Some("BOOK") || booked.None? || transaction.None? || note.None?
      then None
      else Some(Posting(id.value, amount.value.0, amount.value.1, direction.value, booked.value, transaction.value, note.value))
  }

  function ReadEntries(kids: seq<Element>): Option<seq<Posting>> {
    if kids == [] then Some([])
    else
      var first, rest := ReadEntry(kids[0]), ReadEntries(kids[1..]);
      if first.None? || rest.None? then None else Some([first.value] + rest.value)
  }

  /** The account id and currency. */
  function ReadAccount(e: Element): Option<(string, string)> {
    var kids := KidsOf(e);
    if e.name != "Acct" || |kids| != 2 || kids[0].name != "Id" || |KidsOf(kids[0])| != 1 then None
    else
      var id, currency := WrappedText(KidsOf(kids[0])[0], "Othr", "Id"), LeafText(kids[1], "Ccy");
      if id.None? || currency.None? then None else Some((id.value, currency.value))
  }

  function ReadType(e: Element): Option<string> {
    var kids := KidsOf(e);
    if e.name != "Tp" || |kids| != 1 then None else WrappedText(kids[0], "CdOrPrtry", "Cd")
  }

  /** A balance is signed: a credit counts up, a debit down. */
  function ReadBal(e: Element): Option<ReadBalance> {
    var kids := KidsOf(e);
    if e.name != "Bal" || |kids| != 4 then None
    else
      var code, amount, direction := ReadType(kids[0]), ReadAmount(kids[1]), ReadIndicator(kids[2]);
      var at := WrappedText(kids[3], "Dt", "DtTm");
      if code.None? || amount.None? || direction.None? || at.None? then None
      else Some(ReadBalance(code.value, amount.value.0, if direction.value.Credit? then amount.value.1 else -amount.value.1, at.value))
  }

  /** The message id and the creation time. */
  function ReadHeader(e: Element): Option<(string, string)> {
    var kids := KidsOf(e);
    if e.name != "GrpHdr" || |kids| != 2 then None
    else
      var message, created := LeafText(kids[0], "MsgId"), LeafText(kids[1], "CreDtTm");
      if message.None? || created.None? then None else Some((message.value, created.value))
  }

  function ReadKids(header: (string, string), kids: seq<Element>): Option<Reading> {
    if |kids| < 4 then None
    else
      var id, number, account, balance := LeafText(kids[0], "Id"), LeafText(kids[1], "ElctrncSeqNb"), ReadAccount(kids[2]), ReadBal(kids[3]);
      var postings := ReadEntries(kids[4..]);
      if id.None? || number.None? || account.None? || balance.None? || postings.None? then None
      else Some(Reading(header.0, header.1, id.value, number.value, account.value.0, account.value.1, balance.value, postings.value))
  }

  function ReadStatement(header: Element, e: Element): Option<Reading> {
    var top := ReadHeader(header);
    if top.None? || e.name != "Stmt" then None else ReadKids(top.value, KidsOf(e))
  }

  function ReadDocument(e: Element): Option<Reading> {
    var kids := KidsOf(e);
    if e.name != "Document" || e.attribute != Some(NAMESPACE) || |kids| != 1 then None
    else
      var parts := KidsOf(kids[0]);
      if kids[0].name != "BkToCstmrStmt" || |parts| != 2 then None else ReadStatement(parts[0], parts[1])
  }

  function ReadCamt053(text: string): Option<Reading> {
    if !(PROLOG <= text) then None
    else match ReadElement(text[|PROLOG|..])
      case None => None
      case Some((e, rest)) => if rest == "\n" then ReadDocument(e) else None
  }

  // ---- What the reader finds ----

  /** An entry as posted: its amount without a sign, saturated at the ends of the 128-bit range, and the height of its block. */
  function PostingOf(e: Entry): Posting {
    Posting(e.id, e.asset, if e.amount >= 0 then e.amount else if e.amount == MIN_I128 then MAX_I128 else -e.amount,
            e.direction, e.bookedAt, e.transactionId, "KANI block_height=" + PrintInt(e.blockHeight))
  }

  function PostingsOf(entries: seq<Entry>): seq<Posting> {
    seq(|entries|, i requires 0 <= i < |entries| => PostingOf(entries[i]))
  }

  function SignedAmount(balance: int): int {
    if balance == MIN_I128 then -MAX_I128 else balance
  }

  function ReadingOf(s: Statement): Reading {
    Reading(s.messageId, s.createdAt, s.statementId, "1", s.accountId, s.asset,
            ReadBalance("CLBD", s.asset, SignedAmount(s.balance), s.createdAt), PostingsOf(s.entries))
  }

  lemma KidsOfBranch(depth: nat, name: string, attribute: Option<Attribute>, kids: seq<Element>)
    ensures KidsOf(Branch(depth, name, attribute, kids)) == kids
  {
    ChildrenOfLaid(depth, kids);
  }

  lemma WrappedRead(depth: nat, name: string, leaf: string, value: string)
    ensures WrappedText(Wrapped(depth, name, leaf, value), name, leaf) == Some(value)
  {
    KidsOfBranch(depth, name, None, [Leaf(leaf, value)]);
  }

  lemma AmountRead(asset: string, amount: nat)
    ensures ReadAmount(AmountLeaf("Amt", asset, amount)) == Some((asset, amount))
  {
    ValueOfPrint(amount);
  }

  lemma IndicatorRead(i: Indicator)
    ensures ReadIndicator(Leaf("CdtDbtInd", Code(i))) == Some(i)
  {
    assert "DBIT"[0] != "CRDT"[0];
  }

  lemma PositiveAmountIsNat(amount: int)
    ensures PositiveAmount(amount) >= 0
  {
  }

  lemma EntryRead(e: Entry)
    ensures ReadEntry(EntryTree(e)) == Some(PostingOf(e))
  {
    KidsOfBranch(3, "Ntry", None, EntryKids(e));
    PositiveAmountIsNat(e.amount);
    AmountRead(e.asset, PositiveAmount(e.amount));
    IndicatorRead(e.direction);
    WrappedRead(4, "Sts", "Cd", "BOOK");
    WrappedRead(4, "BookgDt", "DtTm", e.bookedAt);
  }

  lemma OneTreeFirst(entries: seq<Entry>)
    requires entries != []
    ensures EntryTrees(entries) == [EntryTree(entries[0])] + EntryTrees(entries[1..])
  {
    var trees := EntryTrees(entries);
    assert trees[0] == EntryTree(entries[0]);
    assert trees[1..] == EntryTrees(entries[1..]);
    HeadThenTail(trees);
  }

  lemma HeadThenTail(kids: seq<Element>)
    requires kids != []
    ensures kids == [kids[0]] + kids[1..]
  {
  }

  lemma OnePostingFirst(entries: seq<Entry>)
    requires entries != []
    ensures PostingsOf(entries) == [PostingOf(entries[0])] + PostingsOf(entries[1..])
  {
    assert PostingsOf(entries)[1..] == PostingsOf(entries[1..]);
  }

  lemma {:induction false} OneElementFirst(e: Element, rest: seq<Element>)
    ensures ReadEntries([e] + rest)
            == if ReadEntry(e).None? || ReadEntries(rest).None? then None else Some([ReadEntry(e).value] + ReadEntries(rest).value)
  {
    assert ([e] + rest)[1..] == rest;
  }

  lemma {:induction false} EntriesRead(entries: seq<Entry>)
    ensures ReadEntries(EntryTrees(entries)) == Some(PostingsOf(entries))
    decreases |entries|
  {
    if entries == [] {
      assert PostingsOf(entries) == [];
    } else {
      OneTreeFirst(entries);
      OnePostingFirst(entries);
      OneElementFirst(EntryTree(entries[0]), EntryTrees(entries[1..]));
      EntryRead(entries[0]);
      EntriesRead(entries[1..]);
    }
  }

  lemma AccountRead(s: Statement)
    ensures ReadAccount(AccountTree(s)) == Some((s.accountId, s.asset))
  {
    var inner := Wrapped(5, "Othr", "Id", s.accountId);
    KidsOfBranch(4, "Id", None, [inner]);
    KidsOfBranch(3, "Acct", None, [Branch(4, "Id", None, [inner]), Leaf("Ccy", s.asset)]);
    WrappedRead(5, "Othr", "Id", s.accountId);
  }

  lemma TypeRead()
    ensures ReadType(TypeTree()) == Some("CLBD")
  {
    KidsOfBranch(4, "Tp", None, [Wrapped(5, "CdOrPrtry", "Cd", "CLBD")]);
    WrappedRead(5, "CdOrPrtry", "Cd", "CLBD");
  }

  lemma BalanceRead(s: Statement)
    ensures ReadBal(BalanceTree(s)) == Some(ReadBalance("CLBD", s.asset, SignedAmount(s.balance), s.createdAt))
  {
    KidsOfBranch(3, "Bal", None, BalanceKids(s));
    TypeRead();
    WrappedRead(4, "Dt", "DtTm", s.createdAt);
    PositiveAmountIsNat(s.balance);
    AmountRead(s.asset, PositiveAmount(s.balance));
    IndicatorRead(BalanceIndicator(s.balance));
  }

  lemma HeaderRead(s: Statement)
    ensures ReadHeader(HeaderTree(s)) == Some((s.messageId, s.createdAt))
  {
    KidsOfBranch(2, "GrpHdr", None, [Leaf("MsgId", s.messageId), Leaf("CreDtTm", s.createdAt)]);
  }

  lemma StatementKidsAre(s: Statement, kids: seq<Element>)
    requires kids == StatementKids(s) + EntryTrees(s.entries)
    ensures |kids| >= 4 && kids[4..] == EntryTrees(s.entries)
    ensures LeafText(kids[0], "Id") == Some(s.statementId) && LeafText(kids[1], "ElctrncSeqNb") == Some("1")
    ensures kids[2] == AccountTree(s) && kids[3] == BalanceTree(s)
  {
  }

  lemma StatementRead(s: Statement)
    ensures ReadStatement(HeaderTree(s), StatementTree(s)) == Some(ReadingOf(s))
  {
    var kids := StatementKids(s) + EntryTrees(s.entries);
    HeaderRead(s);
    KidsOfBranch(2, "Stmt", None, kids);
    assert ReadKids((s.messageId, s.createdAt), kids) == Some(ReadingOf(s)) by {
      StatementKidsAre(s, kids);
      AccountRead(s);
      BalanceRead(s);
      EntriesRead(s.entries);
    }
  }

  lemma DocumentRead(s: Statement)
    ensures ReadDocument(DocumentTree(s)) == Some(ReadingOf(s))
  {
    KidsOfBranch(0, "Document", Some(NAMESPACE), [MessageTree(s)]);
    KidsOfBranch(1, "BkToCstmrStmt", None, [HeaderTree(s), StatementTree(s)]);
    StatementRead(s);
  }

  // ---- The printed tree is well formed ----

  lemma BranchIsGood(depth: nat, name: string, attribute: Option<Attribute>, kids: seq<Element>)
    requires GoodName(name) && (attribute.Some? ==> GoodName(attribute.value.key)) && GoodKids(kids)
    ensures Good(Branch(depth, name, attribute, kids))
  {
    LaidIsGood(depth, kids);
  }

  lemma {:induction false} TwoAreGood(a: Element, b: Element)
    requires Good(a) && Good(b)
    ensures GoodKids([a, b])
  {
  }

  lemma JoinedAreGood(a: seq<Element>, b: seq<Element>)
    requires GoodKids(a) && GoodKids(b)
    ensures GoodKids(a + b)
  {
  }

  lemma LeafIsGood(name: string, value: string)
    requires GoodName(name)
    ensures Good(Leaf(name, value))
  {
    assert GoodContents(Done);
  }

  lemma AmountIsGood(asset: string, amount: int)
    ensures Good(AmountLeaf("Amt", asset, amount))
  {
    assert PrintInt(amount) != "" && GoodContents(Done);
  }

  lemma WrappedIsGood(depth: nat, name: string, leaf: string, value: string)
    requires GoodName(name) && GoodName(leaf)
    ensures Good(Wrapped(depth, name, leaf, value))
  {
    LeafIsGood(leaf, value);
    BranchIsGood(depth, name, None, [Leaf(leaf, value)]);
  }

  lemma EntryHeadIsGood(e: Entry)
    ensures GoodKids(EntryHead(e))
  {
    var id, amount, indicator := Leaf("NtryRef", e.id), AmountLeaf("Amt", e.asset, PositiveAmount(e.amount)), Leaf("CdtDbtInd", Code(e.direction));
    LeafIsGood("NtryRef", e.id);
    AmountIsGood(e.asset, PositiveAmount(e.amount));
    LeafIsGood("CdtDbtInd", Code(e.direction));
    TwoAreGood(id, amount);
    TwoAreGood(indicator, indicator);
    JoinedAreGood([id, amount], [indicator, indicator]);
    assert EntryHead(e) == ([id, amount] + [indicator, indicator])[..3];
  }

  lemma StatusIsGood(e: Entry)
    ensures GoodKids([Wrapped(4, "Sts", "Cd", "BOOK"), Wrapped(4, "BookgDt", "DtTm", e.bookedAt)])
  {
    WrappedIsGood(4, "Sts", "Cd", "BOOK");
    WrappedIsGood(4, "BookgDt", "DtTm", e.bookedAt);
    TwoAreGood(Wrapped(4, "Sts", "Cd", "BOOK"), Wrapped(4, "BookgDt", "DtTm", e.bookedAt));
  }

  lemma NotesAreGood(e: Entry)
    ensures GoodKids([Leaf("AcctSvcrRef", e.transactionId), Leaf("AddtlNtryInf", Note(e))])
  {
    LeafIsGood("AcctSvcrRef", e.transactionId);
    LeafIsGood("AddtlNtryInf", Note(e));
    TwoAreGood(Leaf("AcctSvcrRef", e.transactionId), Leaf("AddtlNtryInf", Note(e)));
  }

  lemma EntryTailIsGood(e: Entry)
    ensures GoodKids(EntryTail(e))
  {
    StatusIsGood(e);
    NotesAreGood(e);
    JoinedAreGood([Wrapped(4, "Sts", "Cd", "BOOK"), Wrapped(4, "BookgDt", "DtTm", e.bookedAt)],
                  [Leaf("AcctSvcrRef", e.transactionId), Leaf("AddtlNtryInf", Note(e))]);
    assert EntryTail(e) == [Wrapped(4, "Sts", "Cd", "BOOK"), Wrapped(4, "BookgDt", "DtTm", e.bookedAt)]
                           + [Leaf("AcctSvcrRef", e.transactionId), Leaf("AddtlNtryInf", Note(e))];
  }

  lemma EntryIsGood(e: Entry)
    ensures Good(EntryTree(e))
  {
    EntryHeadIsGood(e);
    EntryTailIsGood(e);
    JoinedAreGood(EntryHead(e), EntryTail(e));
    BranchIsGood(3, "Ntry", None, EntryKids(e));
  }

  lemma AccountIsGood(s: Statement)
    ensures Good(AccountTree(s))
  {
    var inner := Wrapped(5, "Othr", "Id", s.accountId);
    WrappedIsGood(5, "Othr", "Id", s.accountId);
    BranchIsGood(4, "Id", None, [inner]);
    LeafIsGood("Ccy", s.asset);
    BranchIsGood(3, "Acct", None, [Branch(4, "Id", None, [inner]), Leaf("Ccy", s.asset)]);
  }

  lemma TypeIsGood()
    ensures Good(TypeTree())
  {
    WrappedIsGood(5, "CdOrPrtry", "Cd", "CLBD");
    BranchIsGood(4, "Tp", None, [Wrapped(5, "CdOrPrtry", "Cd", "CLBD")]);
  }

  lemma BalanceIsGood(s: Statement)
    ensures Good(BalanceTree(s))
  {
    var kind, amount := TypeTree(), AmountLeaf("Amt", s.asset, PositiveAmount(s.balance));
    var indicator, date := Leaf("CdtDbtInd", Code(BalanceIndicator(s.balance))), Wrapped(4, "Dt", "DtTm", s.createdAt);
    TypeIsGood();
    AmountIsGood(s.asset, PositiveAmount(s.balance));
    LeafIsGood("CdtDbtInd", Code(BalanceIndicator(s.balance)));
    WrappedIsGood(4, "Dt", "DtTm", s.createdAt);
    TwoAreGood(kind, amount);
    TwoAreGood(indicator, date);
    JoinedAreGood([kind, amount], [indicator, date]);
    assert BalanceKids(s) == [kind, amount] + [indicator, date];
    BranchIsGood(3, "Bal", None, BalanceKids(s));
  }

  lemma EntriesAreGood(entries: seq<Entry>)
    ensures GoodKids(EntryTrees(entries))
  {
    forall i | 0 <= i < |entries| ensures Good(EntryTree(entries[i])) {
      EntryIsGood(entries[i]);
    }
  }

  lemma StatementKidsAreGood(s: Statement)
    ensures GoodKids(StatementKids(s))
  {
    var id, number, account, balance := Leaf("Id", s.statementId), Leaf("ElctrncSeqNb", "1"), AccountTree(s), BalanceTree(s);
    LeafIsGood("Id", s.statementId);
    LeafIsGood("ElctrncSeqNb", "1");
    AccountIsGood(s);
    BalanceIsGood(s);
    TwoAreGood(id, number);
    TwoAreGood(account, balance);
    JoinedAreGood([id, number], [account, balance]);
    assert StatementKids(s) == [id, number] + [account, balance];
  }

  lemma StatementIsGood(s: Statement)
    ensures Good(StatementTree(s))
  {
    StatementKidsAreGood(s);
    EntriesAreGood(s.entries);
    JoinedAreGood(StatementKids(s), EntryTrees(s.entries));
    BranchIsGood(2, "Stmt", None, StatementKids(s) + EntryTrees(s.entries));
  }

  lemma HeaderIsGood(s: Statement)
    ensures Good(HeaderTree(s))
  {
    var id, created := Leaf("MsgId", s.messageId), Leaf("CreDtTm", s.createdAt);
    LeafIsGood("MsgId", s.messageId);
    LeafIsGood("CreDtTm", s.createdAt);
    TwoAreGood(id, created);
    BranchIsGood(2, "GrpHdr", None, [id, created]);
  }

  lemma MessageIsGood(s: Statement)
    ensures Good(MessageTree(s))
  {
    var header, statement := HeaderTree(s), StatementTree(s);
    HeaderIsGood(s);
    StatementIsGood(s);
    TwoAreGood(header, statement);
    BranchIsGood(1, "BkToCstmrStmt", None, [header, statement]);
  }

  lemma DocumentIsGood(s: Statement)
    ensures Good(DocumentTree(s))
  {
    var message := MessageTree(s);
    MessageIsGood(s);
    TwoAreGood(message, message);
    assert [message] == [message, message][..1];
    BranchIsGood(0, "Document", Some(NAMESPACE), [message]);
  }

  // ---- Round trip ----

  lemma {:induction false} TextIsRead(e: Element, text: string)
    requires Good(e) && text == PROLOG + Indented(0, e)
    ensures ReadCamt053(text) == ReadDocument(e)
  {
    assert Spaces(0) == "";
    assert Indented(0, e) == Print(e) + "\n";
    assert text[|PROLOG|..] == Print(e) + "\n";
    ReaderInvertsPrinter(e, "\n");
  }

  /**
    For every statement - any number of entries, any text in any field - the printed document reads back as
    that statement: its ids, its number, account and currency, its closing balance with sign, currency and time,
    and its entries in order, each with amount, indicator, time, transaction and the height of its block.
   */
  lemma PrintedStatementIsRead(s: Statement, text: string)
    requires text == PROLOG + Indented(0, DocumentTree(s))
    ensures ReadCamt053(text) == Some(ReadingOf(s))
  {
    DocumentIsGood(s);
    TextIsRead(DocumentTree(s), text);
    DocumentRead(s);
  }

  /** The signed balance survives exactly when it is not the least 128-bit integer. */
  lemma BalanceSurvivesIff(s: Statement, text: string)
    requires Fits(s.balance) && text == PROLOG + Indented(0, DocumentTree(s))
    ensures ReadCamt053(text).Some? && (ReadCamt053(text).value.balance.amount == s.balance <==> s.balance != MIN_I128)
  {
    PrintedStatementIsRead(s, text);
  }
}

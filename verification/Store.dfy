/**
  The PostgreSQL store as tables of values (crates/kani-ledger/src/lib.rs:1109-1174, 1286-1395,
  1486-1672, 1901-2356): what loading scans, what saving merges, and the row updates in between.
  The transaction table is kept in the order every query asks for, (created_at, id); the block
  table in height order; the journal in insertion order.
 */
module Store {
  import opened Wrappers
  import opened Types
  import opened Ledgers
  import opened LedgerCore

  datatype Row = Row(
    tx: Transaction,
    status: TransactionStatus,
    blockHeight: Option<int>,
    failureReason: Option<string>,
    clientReferenceId: Option<string>,
    requestFingerprint: Option<string>)

  datatype Tables = Tables(
    accounts: Accounts,
    balances: Balances,
    headers: seq<Block>,
    rows: seq<Row>,
    cases: map<Uuid, ComplianceCase>,
    journal: seq<JournalEntry>)

  /** `ORDER BY created_at, id` */
  predicate Before(a: Transaction, b: Transaction) {
    a.createdAt < b.createdAt || (a.createdAt == b.createdAt && a.id < b.id)
  }

  ghost predicate Ordered(txs: seq<Transaction>) {
    forall i, j | 0 <= i < j < |txs| :: Before(txs[i], txs[j])
  }

  ghost predicate OrderedRows(rows: seq<Row>) {
    forall i, j | 0 <= i < j < |rows| :: Before(rows[i].tx, rows[j].tx)
  }

  ghost predicate UniqueIds(rows: seq<Row>) {
    forall i, j | 0 <= i < j < |rows| :: rows[i].tx.id != rows[j].tx.id
  }

  /** The position of the row with an id, or the length of the table. */
  function RowIndex(rows: seq<Row>, id: Uuid): (p: nat)
    ensures p <= |rows|
    ensures p < |rows| ==> rows[p].tx.id == id
    ensures forall i | 0 <= i < p :: rows[i].tx.id != id
  {
    if rows == [] || rows[0].tx.id == id then 0 else 1 + RowIndex(rows[1..], id)
  }

  // ---- Loading ----

  /** The transactions a height collects while the table is scanned. */
  function TxsAtHeight(rows: seq<Row>, height: int): seq<Transaction> {
    if rows == [] then []
    else
      var r := rows[|rows| - 1];
      TxsAtHeight(rows[..|rows| - 1], height) + (if r.blockHeight == Some(height) then [r.tx] else [])
  }

  function Max(a: int, b: int): int {
    if a < b then b else a
  }

  function ScanNonces(rows: seq<Row>): map<AccountId, int> {
    if rows == [] then map[]
    else
      var r, m := rows[|rows| - 1], ScanNonces(rows[..|rows| - 1]);
      if r.status.Finalized? then m[r.tx.from := Max(Get(m, r.tx.from), r.tx.nonce)] else m
  }

  function ScanIssued(rows: seq<Row>): map<Asset, int> {
    if rows == [] then map[]
    else
      var r, m := rows[|rows| - 1], ScanIssued(rows[..|rows| - 1]);
      if !r.status.Finalized? then m
      else match r.tx.kind
        case Mint => Add(m, r.tx.asset, r.tx.amount)
        case Burn => Add(m, r.tx.asset, -r.tx.amount)
        case Transfer => m
  }

  /** `LEFT JOIN blocks b ON b.height = t.block_height` */
  function HashAt(headers: seq<Block>, height: Option<int>): Option<string> {
    if height.None? || headers == [] then None
    else if headers[0].height == height.value then Some(headers[0].hash)
    else HashAt(headers[1..], height)
  }

  function PaymentOf(r: Row, headers: seq<Block>): PaymentRecord {
    PaymentRecord(r.tx, r.status, r.blockHeight, HashAt(headers, r.blockHeight), r.failureReason,
                  r.clientReferenceId, r.requestFingerprint)
  }

  function PaymentsOf(rows: seq<Row>, headers: seq<Block>): map<Uuid, PaymentRecord> {
    if rows == [] then map[]
    else
      var r := rows[|rows| - 1];
      PaymentsOf(rows[..|rows| - 1], headers)[r.tx.id := PaymentOf(r, headers)]
  }

  function Chain(t: Tables): seq<Block> {
    seq(|t.headers|, i requires 0 <= i < |t.headers| => t.headers[i].(txs := TxsAtHeight(t.rows, t.headers[i].height)))
  }

  /** `InMemoryLedger::from_snapshot(load_snapshot())` */
  function Load(t: Tables): Ledger {
    Ledger(t.accounts, Working(t.balances, ScanNonces(t.rows), ScanIssued(t.rows), t.journal),
           PaymentsOf(t.rows, t.headers), t.cases, Chain(t))
  }

  // ---- Snapshots ----

  datatype Snapshot = Snapshot(
    accounts: seq<Account>,
    balances: seq<((AccountId, Asset), int)>,
    payments: seq<PaymentRecord>,
    cases: seq<ComplianceCase>,
    blocks: seq<Block>,
    journal: seq<JournalEntry>,
    nonces: map<AccountId, int>,
    issued: map<Asset, int>)

  /** Collecting pairs into a map: a later pair of the same key wins. */
  function Collect<K, V>(pairs: seq<(K, V)>): map<K, V> {
    if pairs == [] then map[]
    else
      var p := pairs[|pairs| - 1];
      Collect(pairs[..|pairs| - 1])[p.0 := p.1]
  }

  function AccountPairs(accounts: seq<Account>): seq<(AccountId, Account)> {
    seq(|accounts|, i requires 0 <= i < |accounts| => (accounts[i].id, accounts[i]))
  }

  function PaymentPairs(payments: seq<PaymentRecord>): seq<(Uuid, PaymentRecord)> {
    seq(|payments|, i requires 0 <= i < |payments| => (payments[i].transaction.id, payments[i]))
  }

  function CasePairs(cases: seq<ComplianceCase>): seq<(Uuid, ComplianceCase)> {
    seq(|cases|, i requires 0 <= i < |cases| => (cases[i].id, cases[i]))
  }

  function FromSnapshot(s: Snapshot): Ledger {
    Ledger(Collect(AccountPairs(s.accounts)), Working(Collect(s.balances), s.nonces, s.issued, s.journal),
           Collect(PaymentPairs(s.payments)), Collect(CasePairs(s.cases)), s.blocks)
  }

  /** The pairs list each entry of the map once, in any order: what iterating a hash map yields. */
  ghost predicate Lists<K, V>(pairs: seq<(K, V)>, m: map<K, V>) {
    && (forall i, j | 0 <= i < j < |pairs| :: pairs[i].0 != pairs[j].0)
    && (forall i | 0 <= i < |pairs| :: pairs[i].0 in m && m[pairs[i].0] == pairs[i].1)
    && (forall k | k in m :: exists i :: 0 <= i < |pairs| && pairs[i].0 == k)
  }

  /** What `snapshot()` may return for a ledger. */
  ghost predicate IsSnapshot(s: Snapshot, l: Ledger) {
    && Lists(AccountPairs(s.accounts), l.accounts)
    && Lists(s.balances, l.working.balances)
    && Lists(PaymentPairs(s.payments), l.payments)
    && Lists(CasePairs(s.cases), l.cases)
    && s.blocks == l.blocks && s.journal == l.working.journal
    && s.nonces == l.working.nonces && s.issued == l.working.issued
  }

  // ---- Saving: an upsert merge ----

  function OverwriteRow(r: Row, p: PaymentRecord): Row {
    r.(status := p.status, blockHeight := p.blockHeight, failureReason := p.failureReason)
  }

  function InsertRow(rows: seq<Row>, r: Row): seq<Row> {
    if rows == [] then [r]
    else if Before(r.tx, rows[0].tx) then [r] + rows
    else [rows[0]] + InsertRow(rows[1..], r)
  }

  /** `INSERT ... ON CONFLICT (id) DO UPDATE SET block_height, status, failure_reason` */
  function UpsertRow(rows: seq<Row>, p: PaymentRecord): seq<Row> {
    var i := RowIndex(rows, p.transaction.id);
    if i < |rows| then rows[i := OverwriteRow(rows[i], p)]
    else InsertRow(rows, Row(p.transaction, p.status, p.blockHeight, p.failureReason, p.clientReferenceId, p.requestFingerprint))
  }

  function UpsertRows(rows: seq<Row>, payments: seq<PaymentRecord>): seq<Row> {
    if payments == [] then rows
    else UpsertRow(UpsertRows(rows, payments[..|payments| - 1]), payments[|payments| - 1])
  }

  /** `INSERT INTO blocks ... ON CONFLICT (height) DO NOTHING`; transactions live in their own table. */
  function InsertHeader(headers: seq<Block>, b: Block): seq<Block> {
    if headers == [] then [b.(txs := [])]
    else if b.height == headers[0].height then headers
    else if b.height < headers[0].height then [b.(txs := [])] + headers
    else [headers[0]] + InsertHeader(headers[1..], b)
  }

  function InsertHeaders(headers: seq<Block>, blocks: seq<Block>): seq<Block> {
    if blocks == [] then headers
    else InsertHeader(InsertHeaders(headers, blocks[..|blocks| - 1]), blocks[|blocks| - 1])
  }

  predicate HasKey(journal: seq<JournalEntry>, e: JournalEntry) {
    exists i :: 0 <= i < |journal| && journal[i].Key() == e.Key()
  }

  /** `INSERT INTO journal_entries ... ON CONFLICT (id) DO NOTHING` */
  function AppendMissing(journal: seq<JournalEntry>, entries: seq<JournalEntry>): seq<JournalEntry> {
    if entries == [] then journal
    else
      var before, e := AppendMissing(journal, entries[..|entries| - 1]), entries[|entries| - 1];
      if HasKey(before, e) then before else before + [e]
  }

  /** `save_snapshot`, one database transaction. */
  function Save(t: Tables, s: Snapshot): Tables {
    Tables(
      t.accounts + Collect(AccountPairs(s.accounts)),
      t.balances + Collect(s.balances),
      InsertHeaders(t.headers, s.blocks),
      UpsertRows(t.rows, s.payments),
      t.cases + Collect(CasePairs(s.cases)),
      AppendMissing(t.journal, s.journal))
  }

  // ---- Row updates ----

  /** The first `limit` PENDING transactions in (created_at, id) order. */
  function PendingTxs(rows: seq<Row>): seq<Transaction> {
    if rows == [] then []
    else
      var r := rows[|rows| - 1];
      PendingTxs(rows[..|rows| - 1]) + (if r.status.Pending? then [r.tx] else [])
  }

  function PendingPage(rows: seq<Row>, limit: nat): seq<Transaction> {
    var pending := PendingTxs(rows);
    if |pending| <= limit then pending else pending[..limit]
  }

  /** `UPDATE transactions SET status, failure_reason WHERE id = $1 AND status = $from` */
  function MoveRow(rows: seq<Row>, id: Uuid, from: TransactionStatus, to: TransactionStatus, reason: Option<string>): seq<Row> {
    seq(|rows|, i requires 0 <= i < |rows| =>
          if rows[i].tx.id == id && rows[i].status == from then rows[i].(status := to, failureReason := reason) else rows[i])
  }

  /** `reject_transaction` */
  function RejectRow(rows: seq<Row>, id: Uuid, reason: string): seq<Row> {
    MoveRow(rows, id, Pending, Rejected, Some(reason))
  }

  /** `approve_compliance_case` and `reject_compliance_case` on the store, each one database transaction. */
  function ResolveStored(t: Tables, caseId: Uuid, resolution: Resolution, reviewer: Option<string>, reason: Option<string>):
      Result<Tables, LedgerError> {
    if caseId !in t.cases then Err(UnknownComplianceCase(caseId))
    else
      var c := t.cases[caseId];
      if c.Terminal() then Err(TerminalComplianceCase(c.id, c.status))
      else if resolution.Approval? then
        Ok(t.(cases := t.cases[caseId := c.Approve(reviewer, reason)],
              rows := MoveRow(t.rows, c.paymentId, Held, Pending, None)))
      else
        Ok(t.(cases := t.cases[caseId := c.Reject(reviewer, reason)],
              rows := MoveRow(t.rows, c.paymentId, Held, Rejected, Some(resolution.reason))))
  }

  /**
    What a resolution writes: the case, with reviewer and reason, and its payment's row if it is HELD, which
    becomes PENDING without a reason or REJECTED with the one given. Everything else stays.
   */
  lemma StoredResolution(t: Tables, caseId: Uuid, resolution: Resolution, reviewer: Option<string>, reason: Option<string>)
    ensures ResolveStored(t, caseId, resolution, reviewer, reason).Ok?
            <==> caseId in t.cases && t.cases[caseId].status !in {CaseApproved, CaseRejected, Closed}
    ensures ResolveStored(t, caseId, resolution, reviewer, reason).Ok? ==>
              var after := ResolveStored(t, caseId, resolution, reviewer, reason).value;
              var c, approved := t.cases[caseId], resolution.Approval?;
              && after == t.(rows := after.rows, cases := after.cases) && |after.rows| == |t.rows|
              && after.cases == t.cases[caseId := ComplianceCase(c.id, c.paymentId, if approved then CaseApproved else CaseRejected, c.reason,
                                                                 reviewer, reason)]
              && forall i | 0 <= i < |t.rows| ::
                   after.rows[i]
                   == if t.rows[i].tx.id == c.paymentId && t.rows[i].status.Held?
                      then Row(t.rows[i].tx, if approved then Pending else Rejected, t.rows[i].blockHeight,
                               if approved then None else Some(resolution.reason), t.rows[i].clientReferenceId, t.rows[i].requestFingerprint)
                      else t.rows[i]
  {
  }

  /** The constraints of the transaction table an insert must meet. */
  predicate Insertable(t: Tables, r: Row) {
    && r.blockHeight == None
    && r.tx.from in t.accounts && r.tx.to in t.accounts && r.tx.amount > 0
    && (forall i | 0 <= i < |t.rows| ::
          && t.rows[i].tx.id != r.tx.id
          && (t.rows[i].tx.from, t.rows[i].tx.nonce) != (r.tx.from, r.tx.nonce)
          && (r.clientReferenceId.Some? ==> t.rows[i].clientReferenceId != r.clientReferenceId))
  }

  // ---- What every reachable store looks like ----

  ghost predicate WellFormed(t: Tables) {
    && OrderedRows(t.rows)
    && UniqueIds(t.rows)
    && (forall i | 0 <= i < |t.headers| :: t.headers[i].height == i + 1 && t.headers[i].txs == [])
    && (forall i | 0 <= i < |t.rows| ::
          && (t.rows[i].status.Finalized? <==> t.rows[i].blockHeight.Some?)
          && (t.rows[i].blockHeight.Some? ==> 1 <= t.rows[i].blockHeight.value <= |t.headers|))
  }
}

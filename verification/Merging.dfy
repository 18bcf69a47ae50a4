/**
  What `save_snapshot` does to the store when the ledger being saved extends the store's own chain by
  one block (crates/kani-ledger/src/lib.rs:1901-2174): the chain grows by exactly that block, whatever
  rows were inserted, held or resolved since the ledger was loaded.
 */
module Merging {
  import opened Wrappers
  import opened Types
  import opened Ledgers
  import opened LedgerCore
  import opened Books
  import opened Store
  import opened Reload
  import opened Consensus
  import opened Blocks

  // ---- Rows ----

  /** The upsert of a whole snapshot, seen row by row. */
  function MergeRows(rows: seq<Row>, payments: map<Uuid, PaymentRecord>): seq<Row> {
    seq(|rows|, i requires 0 <= i < |rows| =>
          if rows[i].tx.id in payments then OverwriteRow(rows[i], payments[rows[i].tx.id]) else rows[i])
  }

  predicate HasRow(rows: seq<Row>, id: Uuid) {
    exists i :: 0 <= i < |rows| && rows[i].tx.id == id
  }

  lemma {:induction false} RowIndexOf(rows: seq<Row>, i: nat)
    requires UniqueIds(rows) && i < |rows|
    ensures RowIndex(rows, rows[i].tx.id) == i
  {
  }

  lemma UpsertOne(rows: seq<Row>, m: map<Uuid, PaymentRecord>, p: PaymentRecord)
    requires UniqueIds(rows) && HasRow(rows, p.transaction.id) && p.transaction.id !in m
    ensures UpsertRow(MergeRows(rows, m), p) == MergeRows(rows, m[p.transaction.id := p])
  {
    var merged := MergeRows(rows, m);
    var i: nat :| i < |rows| && rows[i].tx.id == p.transaction.id;
    forall k | 0 <= k < |rows| ensures merged[k].tx == rows[k].tx {
    }
    RowIndexOf(merged, i);
    assert merged[i] == rows[i];
  }

  lemma CollectSnoc(payments: seq<PaymentRecord>, p: PaymentRecord)
    ensures Collect(PaymentPairs(payments + [p])) == Collect(PaymentPairs(payments))[p.transaction.id := p]
  {
    assert PaymentPairs(payments + [p])[..|payments|] == PaymentPairs(payments);
  }

  /** Upserting records one after another, in any order, overwrites each row that has a record and adds none. */
  lemma {:induction false} UpsertIsMerge(rows: seq<Row>, payments: seq<PaymentRecord>)
    requires UniqueIds(rows)
    requires forall k | 0 <= k < |payments| :: HasRow(rows, payments[k].transaction.id)
    requires forall j, k | 0 <= j < k < |payments| :: payments[j].transaction.id != payments[k].transaction.id
    ensures UpsertRows(rows, payments) == MergeRows(rows, Collect(PaymentPairs(payments)))
    decreases |payments|
  {
    if payments == [] {
      assert MergeRows(rows, map[]) == rows;
    } else {
      var front, p := payments[..|payments| - 1], payments[|payments| - 1];
      assert payments == front + [p];
      UpsertIsMerge(rows, front);
      CollectSnoc(front, p);
      CollectLookup(PaymentPairs(front));
      UpsertOne(rows, Collect(PaymentPairs(front)), p);
    }
  }

  // ---- Headers ----

  ghost predicate HeadersFrom(headers: seq<Block>, base: int) {
    forall i | 0 <= i < |headers| :: headers[i].height == base + i
  }

  lemma {:induction false} InsertHeaderEffect(headers: seq<Block>, b: Block, base: int)
    requires HeadersFrom(headers, base) && base <= b.height <= base + |headers|
    ensures InsertHeader(headers, b) == if b.height < base + |headers| then headers else headers + [b.(txs := [])]
    decreases |headers|
  {
    if headers != [] && b.height != base {
      InsertHeaderEffect(headers[1..], b, base + 1);
    }
  }

  /** Heights already stored are never rewritten; the next height is appended. */
  lemma {:induction false} InsertHeadersEffect(headers: seq<Block>, blocks: seq<Block>)
    requires HeadersFrom(headers, 1) && Linked(blocks) && |blocks| <= |headers| + 1
    ensures InsertHeaders(headers, blocks)
            == if |blocks| <= |headers| then headers else headers + [blocks[|headers|].(txs := [])]
    decreases |blocks|
  {
    if blocks != [] {
      LinkedPrefix(blocks, |blocks| - 1);
      InsertHeadersEffect(headers, blocks[..|blocks| - 1]);
      assert LinkAt(blocks, |blocks| - 1);
      InsertHeaderEffect(headers, blocks[|blocks| - 1], 1);
    }
  }

  // ---- Journal ----

  ghost predicate DistinctKeys(journal: seq<JournalEntry>) {
    forall i, j | 0 <= i < j < |journal| :: journal[i].Key() != journal[j].Key()
  }

  lemma {:induction false} AppendMissingEffect(journal: seq<JournalEntry>, entries: seq<JournalEntry>, k: nat)
    requires |journal| <= |entries| && entries[..|journal|] == journal
    requires DistinctKeys(entries) && k <= |entries|
    ensures AppendMissing(journal, entries[..k]) == if k <= |journal| then journal else entries[..k]
    decreases k
  {
    if k > 0 {
      AppendMissingEffect(journal, entries, k - 1);
      var e := entries[k - 1];
      assert entries[..k][..k - 1] == entries[..k - 1];
      if k <= |journal| {
        assert journal[k - 1] == e;
      } else {
        assert !HasKey(entries[..k - 1], e);
        assert entries[..k] == entries[..k - 1] + [e];
      }
    }
  }

  /** The journal's keys are distinct and each belongs to a FINALIZED row. */
  ghost predicate JournalKeyed(t: Tables) {
    && DistinctKeys(t.journal)
    && forall e | e in t.journal :: FinalId(t.rows, e.transactionId)
  }

  predicate FinalId(rows: seq<Row>, id: Uuid) {
    exists i :: 0 <= i < |rows| && rows[i].tx.id == id && rows[i].status.Finalized?
  }

  lemma AppendLines(journal: seq<JournalEntry>, tx: Transaction, height: int)
    requires DistinctKeys(journal) && forall e | e in journal :: e.transactionId != tx.id
    ensures DistinctKeys(journal + Lines(tx, height))
    ensures forall e | e in journal + Lines(tx, height) :: e in journal || e.transactionId == tx.id
  {
    var lines := Lines(tx, height);
    assert forall k | 0 <= k < |lines| :: lines[k].transactionId == tx.id;
    assert forall k | 0 <= k < |journal| :: journal[k] in journal;
  }

  /** A batch of transactions with new, distinct ids adds journal entries with new, distinct keys. */
  lemma {:induction false} BatchJournal(accounts: Accounts, txs: seq<Transaction>, height: int, w: Working)
    requires ApplyAll(accounts, txs, height, w).Ok? && DistinctKeys(w.journal)
    requires forall i, j | 0 <= i < j < |txs| :: txs[i].id != txs[j].id
    requires forall e, tx | e in w.journal && tx in txs :: e.transactionId != tx.id
    ensures var after := ApplyAll(accounts, txs, height, w).value.journal;
            && |w.journal| <= |after| && after[..|w.journal|] == w.journal
            && DistinctKeys(after)
            && forall e | e in after :: e in w.journal || exists tx :: tx in txs && tx.id == e.transactionId
    decreases |txs|
  {
    if txs != [] {
      var front, tx := txs[..|txs| - 1], txs[|txs| - 1];
      assert txs == front + [tx];
      assert forall x | x in front :: x in txs && x.id != tx.id;
      BatchJournal(accounts, front, height, w);
      var v := ApplyAll(accounts, front, height, w).value;
      assert ApplyAll(accounts, txs, height, w).value.journal == v.journal + Lines(tx, height);
      forall e | e in v.journal ensures e.transactionId != tx.id {
        assert e !in w.journal ==> exists other :: other in front && other.id == e.transactionId;
      }
      AppendLines(v.journal, tx, height);
      FromBatch(w.journal, v.journal, front, tx, height);
    }
  }

  lemma FromBatch(before: seq<JournalEntry>, journal: seq<JournalEntry>, txs: seq<Transaction>, tx: Transaction, height: int)
    requires forall e | e in journal :: e in before || exists x :: x in txs && x.id == e.transactionId
    ensures forall e | e in journal + Lines(tx, height) :: e in before || exists x :: x in txs + [tx] && x.id == e.transactionId
  {
    forall e | e in journal + Lines(tx, height)
      ensures e in before || exists x :: x in txs + [tx] && x.id == e.transactionId
    {
      if e in journal {
        if e !in before {
          var x :| x in txs && x.id == e.transactionId;
          assert x in txs + [tx];
        }
      } else {
        assert tx in txs + [tx] && e.transactionId == tx.id;
      }
    }
  }

  // ---- Order ----

  lemma {:induction false} TxsAtHeightOrdered(rows: seq<Row>, h: int)
    requires OrderedRows(rows)
    ensures Ordered(TxsAtHeight(rows, h))
    decreases |rows|
  {
    if rows != [] {
      var front := rows[..|rows| - 1];
      TxsAtHeightOrdered(front, h);
      forall k | 0 <= k < |TxsAtHeight(front, h)| ensures Before(TxsAtHeight(front, h)[k], rows[|rows| - 1].tx) {
        TxsAtHeightMember(front, h, TxsAtHeight(front, h)[k]);
      }
    }
  }

  /** Two ordered lists with the same members are the same list. */
  lemma {:induction false} OrderedListsAgree(a: seq<Transaction>, b: seq<Transaction>)
    requires Ordered(a) && Ordered(b)
    requires forall x :: x in a <==> x in b
    ensures a == b
    decreases |a|
  {
    assert a != [] ==> a[|a| - 1] in b;
    assert b != [] ==> b[|b| - 1] in a;
    if a != [] {
      var x, y := a[|a| - 1], b[|b| - 1];
      assert x == y;
      var c, d := a[..|a| - 1], b[..|b| - 1];
      assert a == c + [x] && b == d + [y];
      forall z ensures z in c <==> z in d {
        assert z in a <==> z in b;
        assert x !in c && x !in d;
      }
      OrderedListsAgree(c, d);
    }
  }

  lemma {:induction false} TxsAtHeightFrame(rows: seq<Row>, after: seq<Row>, h: int)
    requires |rows| == |after|
    requires forall i | 0 <= i < |rows| ::
               after[i].tx == rows[i].tx && (after[i].blockHeight == Some(h) <==> rows[i].blockHeight == Some(h))
    ensures TxsAtHeight(after, h) == TxsAtHeight(rows, h)
    decreases |rows|
  {
    if rows != [] {
      TxsAtHeightFrame(rows[..|rows| - 1], after[..|rows| - 1], h);
    }
  }

  // ---- A loaded ledger against the store ----

  lemma {:induction false} PaymentsOfLookup(rows: seq<Row>, headers: seq<Block>)
    requires UniqueIds(rows)
    ensures forall i | 0 <= i < |rows| ::
              rows[i].tx.id in PaymentsOf(rows, headers) && PaymentsOf(rows, headers)[rows[i].tx.id] == PaymentOf(rows[i], headers)
    ensures forall id | id in PaymentsOf(rows, headers) :: HasRow(rows, id)
    decreases |rows|
  {
    if rows != [] {
      var front := rows[..|rows| - 1];
      PaymentsOfLookup(front, headers);
      forall id | id in PaymentsOf(rows, headers) ensures HasRow(rows, id) {
        if id in PaymentsOf(front, headers) {
          var i :| 0 <= i < |front| && front[i].tx.id == id;
          assert rows[i] == front[i];
        } else {
          assert rows[|rows| - 1].tx.id == id;
        }
      }
      forall i | 0 <= i < |rows|
        ensures rows[i].tx.id in PaymentsOf(rows, headers) && PaymentsOf(rows, headers)[rows[i].tx.id] == PaymentOf(rows[i], headers)
      {
        if i < |front| {
          assert front[i] == rows[i];
        }
      }
    }
  }

  lemma {:induction false} HashOfHeight(headers: seq<Block>, base: int, h: int)
    requires HeadersFrom(headers, base) && base <= h < base + |headers|
    ensures HashAt(headers, Some(h)) == Some(headers[h - base].hash)
    decreases |headers|
  {
    if h != base {
      HashOfHeight(headers[1..], base + 1, h);
    }
  }

  /** A loaded payment is its row, field by field, with the hash of the block at its height. */
  lemma LoadedRecord(t: Tables, i: nat)
    requires WellFormed(t) && i < |t.rows|
    ensures var r := t.rows[i];
            && r.tx.id in Load(t).payments
            && Load(t).payments[r.tx.id]
               == PaymentRecord(r.tx, r.status, r.blockHeight,
                                if r.blockHeight.None? then None else Some(t.headers[r.blockHeight.value - 1].hash),
                                r.failureReason, r.clientReferenceId, r.requestFingerprint)
  {
    PaymentsOfLookup(t.rows, t.headers);
    if t.rows[i].blockHeight.Some? {
      HashOfHeight(t.headers, 1, t.rows[i].blockHeight.value);
    }
  }

  /** A row and a loaded record agree on what a block decides. */
  predicate Matches(r: Row, p: PaymentRecord) {
    r.tx == p.transaction && r.blockHeight == p.blockHeight && (r.status.Finalized? <==> p.status.Finalized?)
  }

  /** The finalized part of a ledger loaded earlier is still the finalized part of the store. */
  ghost predicate Current(t: Tables, l: Ledger) {
    && l.accounts == t.accounts
    && l.working == Load(t).working
    && l.blocks == Chain(t)
    && (forall id | id in l.payments :: HasRow(t.rows, id))
    && (forall i | 0 <= i < |t.rows| && t.rows[i].tx.id in l.payments :: Matches(t.rows[i], l.payments[t.rows[i].tx.id]))
    && (forall i | 0 <= i < |t.rows| && t.rows[i].status.Finalized? :: t.rows[i].tx.id in l.payments)
  }

  lemma LoadIsCurrent(t: Tables)
    requires WellFormed(t)
    ensures Current(t, Load(t))
  {
    PaymentsOfLookup(t.rows, t.headers);
  }

  /** A transaction waiting in the queue. */
  predicate Queued(rows: seq<Row>, tx: Transaction) {
    exists i :: 0 <= i < |rows| && rows[i].tx == tx && rows[i].status.Pending?
  }

  // ---- The store's invariant ----

  /** The stored chain is good and the whole stored state is the replay of it. */
  ghost predicate StoreInv(e: Engine, crypto: Crypto, genesis: Ledger, t: Tables) {
    && WellFormed(t)
    && JournalKeyed(t)
    && GoodChain(e, crypto, Chain(t))
    && Sound(genesis, Load(t))
  }

  /** A block ready to be saved on top of a ledger loaded under the lock. */
  ghost predicate Ready(e: Engine, crypto: Crypto, t: Tables, l: Ledger, b: Block) {
    && Current(t, l)
    && Endorsed(e, crypto, b)
    && ApplyBlock(l, b).Ok?
    && Ordered(b.txs)
    && forall tx | tx in b.txs :: Queued(t.rows, tx)
  }

  predicate InBlock(b: Block, id: Uuid) {
    exists k :: 0 <= k < |b.txs| && b.txs[k].id == id
  }

  /** The record that saving writes for an id. */
  lemma SavedRecord(l: Ledger, b: Block, id: Uuid)
    requires ApplyBlock(l, b).Ok?
    ensures var after := ApplyBlock(l, b).value.payments;
            && (id in after <==> id in l.payments || InBlock(b, id))
            && (InBlock(b, id) ==> after[id].status.Finalized? && after[id].blockHeight == Some(b.height) && after[id].failureReason == None
                                   && after[id].transaction in b.txs && after[id].transaction.id == id)
            && (id in after && !InBlock(b, id) ==> after[id] == l.payments[id])
  {
    var records := RecordsOf(b);
    InsertRecordsLookup(l.payments, records, id);
    var after := InsertRecords(l.payments, records);
    if InBlock(b, id) {
      var k :| 0 <= k < |b.txs| && b.txs[k].id == id;
      assert records[k].transaction.id == id;
      var j :| 0 <= j < |records| && records[j] == after[id];
      assert b.txs[j] == after[id].transaction;
    }
    forall i | 0 <= i < |records| && records[i].transaction.id == id ensures InBlock(b, id) {
      assert b.txs[i].id == id;
    }
  }

  /** Same contents as `Save`, with the row upserts taken together. */
  function Merge(t: Tables, l: Ledger): Tables {
    Tables(t.accounts + l.accounts, t.balances + l.working.balances, InsertHeaders(t.headers, l.blocks),
           MergeRows(t.rows, l.payments), t.cases + l.cases, AppendMissing(t.journal, l.working.journal))
  }

  /** A queued transaction has no block height, and its row is found by its id. */
  lemma QueuedRow(rows: seq<Row>, tx: Transaction, i: nat)
    requires UniqueIds(rows) && Queued(rows, tx) && i < |rows| && rows[i].tx.id == tx.id
    ensures rows[i].tx == tx && rows[i].status.Pending?
  {
  }

  /** Whatever order the snapshot lists its maps in, saving it is the merge. */
  lemma SaveIsMerge(e: Engine, crypto: Crypto, t: Tables, l: Ledger, b: Block, s: Snapshot)
    requires WellFormed(t) && Ready(e, crypto, t, l, b) && IsSnapshot(s, ApplyBlock(l, b).value)
    ensures Save(t, s) == Merge(t, ApplyBlock(l, b).value)
  {
    var w := ApplyBlock(l, b).value;
    CollectListing(AccountPairs(s.accounts), w.accounts);
    CollectListing(s.balances, w.working.balances);
    CollectListing(PaymentPairs(s.payments), w.payments);
    CollectListing(CasePairs(s.cases), w.cases);
    SnapshotHasRows(e, crypto, t, l, b, s);
    UpsertIsMerge(t.rows, s.payments);
  }

  /** Each payment of the snapshot belongs to a row of its own. */
  lemma {:induction false} SnapshotHasRows(e: Engine, crypto: Crypto, t: Tables, l: Ledger, b: Block, s: Snapshot)
    requires WellFormed(t) && Ready(e, crypto, t, l, b) && Lists(PaymentPairs(s.payments), ApplyBlock(l, b).value.payments)
    ensures forall k | 0 <= k < |s.payments| :: HasRow(t.rows, s.payments[k].transaction.id)
    ensures forall j, k | 0 <= j < k < |s.payments| :: s.payments[j].transaction.id != s.payments[k].transaction.id
  {
    forall k | 0 <= k < |s.payments| ensures HasRow(t.rows, s.payments[k].transaction.id) {
      assert PaymentPairs(s.payments)[k].0 in ApplyBlock(l, b).value.payments;
      SavedHasRow(e, crypto, t, l, b, s.payments[k].transaction.id);
    }
    forall j, k | 0 <= j < k < |s.payments| ensures s.payments[j].transaction.id != s.payments[k].transaction.id {
      assert PaymentPairs(s.payments)[j].0 != PaymentPairs(s.payments)[k].0;
    }
  }

  lemma {:induction false} SavedHasRow(e: Engine, crypto: Crypto, t: Tables, l: Ledger, b: Block, id: Uuid)
    requires Ready(e, crypto, t, l, b) && id in ApplyBlock(l, b).value.payments
    ensures HasRow(t.rows, id)
  {
    SavedRecord(l, b, id);
    if InBlock(b, id) {
      var j :| 0 <= j < |b.txs| && b.txs[j].id == id;
      assert Queued(t.rows, b.txs[j]);
    }
  }

  /** Row by row: the block's transactions become final at its height, every other row keeps its standing. */
  lemma MergedRow(e: Engine, crypto: Crypto, t: Tables, l: Ledger, b: Block, i: nat)
    requires WellFormed(t) && Ready(e, crypto, t, l, b) && i < |t.rows|
    ensures var r, after := t.rows[i], MergeRows(t.rows, ApplyBlock(l, b).value.payments)[i];
            && after.tx == r.tx && after.clientReferenceId == r.clientReferenceId && after.requestFingerprint == r.requestFingerprint
            && (InBlock(b, r.tx.id) <==> r.tx in b.txs)
            && (r.tx in b.txs ==> after.status.Finalized? && after.blockHeight == Some(b.height) && r.status.Pending? && after.failureReason == None)
            && (r.tx !in b.txs ==> after.blockHeight == r.blockHeight && (after.status.Finalized? <==> r.status.Finalized?))
            && (r.tx !in b.txs && r.tx.id !in l.payments ==> after == r)
            && (r.tx !in b.txs && r.tx.id in l.payments ==>
                  after.status == l.payments[r.tx.id].status && after.failureReason == l.payments[r.tx.id].failureReason)
  {
    var r := t.rows[i];
    SavedRecord(l, b, r.tx.id);
    if r.tx in b.txs {
      var k :| 0 <= k < |b.txs| && b.txs[k] == r.tx;
      assert InBlock(b, r.tx.id);
    }
    if InBlock(b, r.tx.id) {
      var k :| 0 <= k < |b.txs| && b.txs[k].id == r.tx.id;
      assert Queued(t.rows, b.txs[k]);
      QueuedRow(t.rows, b.txs[k], i);
    }
  }

  /** After the merge, the new height holds exactly the block's transactions, in the block's order. */
  lemma NewHeightHoldsBlock(e: Engine, crypto: Crypto, t: Tables, l: Ledger, b: Block)
    requires WellFormed(t) && Ready(e, crypto, t, l, b)
    ensures TxsAtHeight(MergeRows(t.rows, ApplyBlock(l, b).value.payments), b.height) == b.txs
  {
    var after := MergeRows(t.rows, ApplyBlock(l, b).value.payments);
    forall i: nat | i < |t.rows| ensures after[i].tx == t.rows[i].tx && (after[i].blockHeight == Some(b.height) <==> after[i].tx in b.txs) {
      MergedRow(e, crypto, t, l, b, i);
      assert l.NextHeight() == |t.headers| + 1;
    }
    assert OrderedRows(after);
    TxsAtHeightOrdered(after, b.height);
    forall x ensures x in TxsAtHeight(after, b.height) <==> x in b.txs {
      TxsAtHeightMember(after, b.height, x);
      if x in b.txs {
        var i :| 0 <= i < |t.rows| && t.rows[i].tx == x && t.rows[i].status.Pending?;
        assert after[i].tx == x;
      }
    }
    OrderedListsAgree(TxsAtHeight(after, b.height), b.txs);
  }

  lemma MergeHeaders(e: Engine, crypto: Crypto, t: Tables, l: Ledger, b: Block)
    requires WellFormed(t) && GoodChain(e, crypto, Chain(t)) && Ready(e, crypto, t, l, b)
    ensures Merge(t, ApplyBlock(l, b).value).headers == t.headers + [b.(txs := [])]
    ensures b.height == |t.headers| + 1
  {
    GoodChainExtends(e, crypto, l, b);
    InsertHeadersEffect(t.headers, ApplyBlock(l, b).value.blocks);
  }

  lemma MergeKeepsShape(e: Engine, crypto: Crypto, t: Tables, l: Ledger, b: Block)
    requires WellFormed(t) && GoodChain(e, crypto, Chain(t)) && Ready(e, crypto, t, l, b)
    ensures WellFormed(Merge(t, ApplyBlock(l, b).value))
  {
    var after := Merge(t, ApplyBlock(l, b).value);
    MergeHeaders(e, crypto, t, l, b);
    forall i: nat | i < |t.rows|
      ensures && after.rows[i].tx == t.rows[i].tx
              && (after.rows[i].status.Finalized? <==> after.rows[i].blockHeight.Some?)
              && (after.rows[i].blockHeight.Some? ==> 1 <= after.rows[i].blockHeight.value <= |after.headers|)
    {
      MergedRow(e, crypto, t, l, b, i);
    }
  }

  lemma {:induction false} OldHeightsKept(e: Engine, crypto: Crypto, t: Tables, l: Ledger, b: Block, h: int)
    requires WellFormed(t) && GoodChain(e, crypto, Chain(t)) && Ready(e, crypto, t, l, b) && h <= |t.headers|
    ensures TxsAtHeight(Merge(t, ApplyBlock(l, b).value).rows, h) == TxsAtHeight(t.rows, h)
  {
    var after := Merge(t, ApplyBlock(l, b).value).rows;
    MergeHeaders(e, crypto, t, l, b);
    forall i: nat | i < |t.rows|
      ensures after[i].tx == t.rows[i].tx && (after[i].blockHeight == Some(h) <==> t.rows[i].blockHeight == Some(h))
    {
      MergedRow(e, crypto, t, l, b, i);
    }
    TxsAtHeightFrame(t.rows, after, h);
  }

  /** Saving extends the stored chain by exactly the block, and leaves every earlier height as it was. */
  lemma MergeExtendsChain(e: Engine, crypto: Crypto, t: Tables, l: Ledger, b: Block)
    requires WellFormed(t) && GoodChain(e, crypto, Chain(t)) && Ready(e, crypto, t, l, b)
    ensures Chain(Merge(t, ApplyBlock(l, b).value)) == Chain(t) + [b]
  {
    var after := Merge(t, ApplyBlock(l, b).value);
    MergeHeaders(e, crypto, t, l, b);
    NewHeightHoldsBlock(e, crypto, t, l, b);
    forall k | 0 <= k < |t.headers| ensures Chain(after)[k] == Chain(t)[k] {
      OldHeightsKept(e, crypto, t, l, b, t.headers[k].height);
    }
  }

  lemma BlockIdsAreNew(e: Engine, crypto: Crypto, t: Tables, l: Ledger, b: Block)
    requires WellFormed(t) && JournalKeyed(t) && Ready(e, crypto, t, l, b)
    ensures forall i, j | 0 <= i < j < |b.txs| :: b.txs[i].id != b.txs[j].id
    ensures forall entry, tx | entry in t.journal && tx in b.txs :: entry.transactionId != tx.id
  {
    forall i, j | 0 <= i < j < |b.txs| ensures b.txs[i].id != b.txs[j].id {
      assert Queued(t.rows, b.txs[i]) && Queued(t.rows, b.txs[j]);
      assert Before(b.txs[i], b.txs[j]);
    }
    forall entry, tx | entry in t.journal && tx in b.txs ensures entry.transactionId != tx.id {
      assert Queued(t.rows, tx) && FinalId(t.rows, entry.transactionId);
    }
  }

  lemma MergedFinal(e: Engine, crypto: Crypto, t: Tables, l: Ledger, b: Block, id: Uuid)
    requires WellFormed(t) && Ready(e, crypto, t, l, b)
    requires FinalId(t.rows, id) || exists tx :: tx in b.txs && tx.id == id
    ensures FinalId(Merge(t, ApplyBlock(l, b).value).rows, id)
  {
    var i: nat;
    if FinalId(t.rows, id) {
      i :| i < |t.rows| && t.rows[i].tx.id == id && t.rows[i].status.Finalized?;
    } else {
      var tx :| tx in b.txs && tx.id == id;
      assert Queued(t.rows, tx);
      i :| i < |t.rows| && t.rows[i].tx == tx && t.rows[i].status.Pending?;
    }
    MergedRow(e, crypto, t, l, b, i);
    assert Merge(t, ApplyBlock(l, b).value).rows[i].tx.id == id;
  }

  lemma {:induction false} AppendAll(journal: seq<JournalEntry>, entries: seq<JournalEntry>)
    requires |journal| <= |entries| && entries[..|journal|] == journal && DistinctKeys(entries)
    ensures AppendMissing(journal, entries) == entries
  {
    AppendMissingEffect(journal, entries, |entries|);
    assert entries[..|entries|] == entries;
  }

  lemma MergeKeepsJournal(e: Engine, crypto: Crypto, genesis: Ledger, t: Tables, l: Ledger, b: Block)
    requires StoreInv(e, crypto, genesis, t) && Ready(e, crypto, t, l, b)
    ensures var after := Merge(t, ApplyBlock(l, b).value);
            after.journal == ApplyBlock(l, b).value.working.journal && JournalKeyed(after)
  {
    var w := ApplyBlock(l, b).value;
    var after := Merge(t, w);
    BlockIdsAreNew(e, crypto, t, l, b);
    BatchJournal(l.accounts, b.txs, b.height, l.working);
    AppendAll(t.journal, w.working.journal);
    forall entry | entry in after.journal ensures FinalId(after.rows, entry.transactionId) {
      MergedFinal(e, crypto, t, l, b, entry.transactionId);
    }
  }

  lemma {:induction false} BatchKeepsBalanceRows(accounts: Accounts, txs: seq<Transaction>, height: int, w: Working)
    requires ApplyAll(accounts, txs, height, w).Ok?
    ensures w.balances.Keys <= ApplyAll(accounts, txs, height, w).value.balances.Keys
    decreases |txs|
  {
    if txs != [] {
      BatchKeepsBalanceRows(accounts, txs[..|txs| - 1], height, w);
    }
  }

  /**
    Saving keeps the store's invariant, and what a later load finds is the ledger that was saved:
    its chain, balances, nonces, issued supply and journal.
   */
  lemma MergeKeepsStore(e: Engine, crypto: Crypto, genesis: Ledger, t: Tables, l: Ledger, b: Block)
    requires Zero(genesis.working)
    requires StoreInv(e, crypto, genesis, t) && Ready(e, crypto, t, l, b)
    ensures StoreInv(e, crypto, genesis, Merge(t, ApplyBlock(l, b).value))
    ensures Load(Merge(t, ApplyBlock(l, b).value)).working == ApplyBlock(l, b).value.working
    ensures Load(Merge(t, ApplyBlock(l, b).value)).blocks == ApplyBlock(l, b).value.blocks
  {
    var w := ApplyBlock(l, b).value;
    var after := Merge(t, w);
    MergeKeepsShape(e, crypto, t, l, b);
    MergeExtendsChain(e, crypto, t, l, b);
    MergeKeepsJournal(e, crypto, genesis, t, l, b);
    MergeKeepsBalances(t, l, b);
    assert GoodChain(e, crypto, Chain(after)) by {
      GoodChainExtends(e, crypto, l, b);
    }
    assert Replay(after.accounts, Chain(after), genesis.working) == Ok(w.working) by {
      ReplaySnoc(t.accounts, Chain(t), b, genesis.working);
    }
    ReloadAgrees(after, genesis.working);
  }

  lemma MergeKeepsBalances(t: Tables, l: Ledger, b: Block)
    requires ApplyBlock(l, b).Ok? && l.accounts == t.accounts && l.working.balances == t.balances
    ensures var after := Merge(t, ApplyBlock(l, b).value);
            after.accounts == t.accounts && after.balances == ApplyBlock(l, b).value.working.balances
  {
    BatchKeepsBalanceRows(l.accounts, b.txs, b.height, l.working);
    assert t.accounts + l.accounts == t.accounts;
  }

  lemma {:induction false} HashOfLast(headers: seq<Block>, b: Block, base: int)
    requires HeadersFrom(headers, base) && b.height == base + |headers|
    ensures HashAt(headers + [b.(txs := [])], Some(b.height)) == Some(b.hash)
    decreases |headers|
  {
    if headers != [] {
      assert (headers + [b.(txs := [])])[1..] == headers[1..] + [b.(txs := [])];
      HashOfLast(headers[1..], b, base + 1);
    }
  }

  /** After the save, a reload finds each of the block's payments FINALIZED at the block's height and hash. */
  lemma {:induction false} ReloadedRecord(e: Engine, crypto: Crypto, t: Tables, l: Ledger, b: Block, tx: Transaction)
    requires WellFormed(t) && GoodChain(e, crypto, Chain(t)) && Ready(e, crypto, t, l, b) && tx in b.txs
    ensures var payments := Load(Merge(t, ApplyBlock(l, b).value)).payments;
            && tx.id in payments
            && var p := payments[tx.id];
               p.transaction == tx && p.status.Finalized? && p.blockHeight == Some(b.height) && p.blockHash == Some(b.hash)
  {
    var after := Merge(t, ApplyBlock(l, b).value);
    MergeHeaders(e, crypto, t, l, b);
    HashOfLast(t.headers, b, 1);
    MergeKeepsShape(e, crypto, t, l, b);
    assert Queued(t.rows, tx);
    var i: nat :| i < |t.rows| && t.rows[i].tx == tx && t.rows[i].status.Pending?;
    MergedRow(e, crypto, t, l, b, i);
    PaymentsOfLookup(after.rows, after.headers);
    assert Load(after).payments[after.rows[i].tx.id] == PaymentOf(after.rows[i], after.headers);
  }
}

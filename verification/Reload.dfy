/**
  Reloading (crates/kani-ledger/src/lib.rs:241-350, 2282-2378): a snapshot taken and collected again
  is the same ledger, and the nonces and issued supply that `load_payments` rebuilds from FINALIZED
  rows, scanned in (created_at, id) order, are those of the replayed chain.
 */
module Reload {
  import opened Wrappers
  import opened Types
  import opened Ledgers
  import opened LedgerCore
  import opened Books
  import opened Store

  // ---- Snapshot round trip ----

  lemma {:induction false} CollectLookup<K, V>(pairs: seq<(K, V)>)
    requires forall i, j | 0 <= i < j < |pairs| :: pairs[i].0 != pairs[j].0
    ensures forall i | 0 <= i < |pairs| :: pairs[i].0 in Collect(pairs) && Collect(pairs)[pairs[i].0] == pairs[i].1
    ensures forall k | k in Collect(pairs) :: exists i :: 0 <= i < |pairs| && pairs[i].0 == k
    decreases |pairs|
  {
    if pairs != [] {
      var front, p := pairs[..|pairs| - 1], pairs[|pairs| - 1];
      CollectLookup(front);
      forall k | k in Collect(pairs) ensures exists i :: 0 <= i < |pairs| && pairs[i].0 == k {
        if k != p.0 {
          var i :| 0 <= i < |front| && front[i].0 == k;
          assert pairs[i].0 == k;
        }
      }
      forall i | 0 <= i < |pairs|
        ensures pairs[i].0 in Collect(pairs) && Collect(pairs)[pairs[i].0] == pairs[i].1
      {
        if i < |front| {
          assert front[i].0 in Collect(front);
        }
      }
    }
  }

  /** Collecting any listing of a map gives the map back. */
  lemma {:induction false} CollectListing<K, V>(pairs: seq<(K, V)>, m: map<K, V>)
    requires Lists(pairs, m)
    ensures Collect(pairs) == m
  {
    CollectLookup(pairs);
    assert Collect(pairs).Keys == m.Keys;
  }

  /** `from_snapshot(snapshot())` is the identity, whatever order the snapshot lists its maps in. */
  lemma SnapshotRoundTrip(s: Snapshot, l: Ledger)
    requires IsSnapshot(s, l)
    ensures FromSnapshot(s) == l
  {
    CollectListing(AccountPairs(s.accounts), l.accounts);
    CollectListing(s.balances, l.working.balances);
    CollectListing(PaymentPairs(s.payments), l.payments);
    CollectListing(CasePairs(s.cases), l.cases);
  }

  // ---- Which transactions the chain contains ----

  lemma {:induction false} TxsAtHeightMember(rows: seq<Row>, h: int, tx: Transaction)
    ensures tx in TxsAtHeight(rows, h) <==> exists i :: 0 <= i < |rows| && rows[i].tx == tx && rows[i].blockHeight == Some(h)
    decreases |rows|
  {
    if rows != [] {
      var front, r := rows[..|rows| - 1], rows[|rows| - 1];
      TxsAtHeightMember(front, h, tx);
      if tx in TxsAtHeight(front, h) {
        var i :| 0 <= i < |front| && front[i].tx == tx && front[i].blockHeight == Some(h);
        assert rows[i] == front[i];
      } else if r.tx == tx && r.blockHeight == Some(h) {
        assert rows[|rows| - 1].tx == tx;
      }
    }
  }

  lemma {:induction false} AllTxsMember(blocks: seq<Block>, tx: Transaction)
    ensures tx in AllTxs(blocks) <==> exists k :: 0 <= k < |blocks| && tx in blocks[k].txs
    decreases |blocks|
  {
    if blocks != [] {
      var front, b := blocks[..|blocks| - 1], blocks[|blocks| - 1];
      AllTxsMember(front, tx);
      if tx in AllTxs(front) {
        var k :| 0 <= k < |front| && tx in front[k].txs;
        assert blocks[k] == front[k];
      } else if tx in b.txs {
        assert tx in blocks[|blocks| - 1].txs;
      }
    }
  }

  ghost predicate IsFinal(rows: seq<Row>, tx: Transaction) {
    exists i :: 0 <= i < |rows| && rows[i].tx == tx && rows[i].status.Finalized?
  }

  /** The chain contains exactly the transactions of FINALIZED rows. */
  lemma ChainHoldsFinalizedRows(t: Tables, tx: Transaction)
    requires WellFormed(t)
    ensures tx in AllTxs(Chain(t)) <==> IsFinal(t.rows, tx)
  {
    AllTxsMember(Chain(t), tx);
    if tx in AllTxs(Chain(t)) {
      var k :| 0 <= k < |Chain(t)| && tx in Chain(t)[k].txs;
      TxsAtHeightMember(t.rows, t.headers[k].height, tx);
    }
    if IsFinal(t.rows, tx) {
      var i :| 0 <= i < |t.rows| && t.rows[i].tx == tx && t.rows[i].status.Finalized?;
      var h := t.rows[i].blockHeight.value;
      TxsAtHeightMember(t.rows, h, tx);
      assert Chain(t)[h - 1].txs == TxsAtHeight(t.rows, h);
    }
  }

  // ---- Nonces ----

  lemma {:induction false} ScanNoncesIsMaximum(rows: seq<Row>)
    requires forall i | 0 <= i < |rows| && rows[i].status.Finalized? :: rows[i].tx.nonce > 0
    ensures forall i | 0 <= i < |rows| && rows[i].status.Finalized? ::
              rows[i].tx.from in ScanNonces(rows) && rows[i].tx.nonce <= ScanNonces(rows)[rows[i].tx.from]
    ensures forall a | a in ScanNonces(rows) ::
              exists i :: 0 <= i < |rows| && rows[i].status.Finalized? && rows[i].tx.from == a && rows[i].tx.nonce == ScanNonces(rows)[a]
    decreases |rows|
  {
    if rows != [] {
      var front, r := rows[..|rows| - 1], rows[|rows| - 1];
      var m, after := ScanNonces(front), ScanNonces(rows);
      ScanNoncesIsMaximum(front);
      forall i | 0 <= i < |rows| && rows[i].status.Finalized?
        ensures rows[i].tx.from in after && rows[i].tx.nonce <= after[rows[i].tx.from]
      {
        if i < |front| {
          assert front[i] == rows[i];
        }
      }
      forall a | a in after
        ensures exists i :: 0 <= i < |rows| && rows[i].status.Finalized? && rows[i].tx.from == a && rows[i].tx.nonce == after[a]
      {
        if r.status.Finalized? && r.tx.from == a && r.tx.nonce == after[a] {
          assert rows[|rows| - 1] == r;
        } else {
          assert a in m && m[a] == after[a];
          var i :| 0 <= i < |front| && front[i].status.Finalized? && front[i].tx.from == a && front[i].tx.nonce == m[a];
          assert rows[i] == front[i];
        }
      }
    }
  }

  /** Each key holds the largest nonce its account has among the transactions. */
  ghost predicate Peaks(nonces: map<AccountId, int>, txs: set<Transaction>) {
    && (forall tx | tx in txs :: tx.from in nonces && tx.nonce <= nonces[tx.from])
    && (forall a | a in nonces :: exists tx :: tx in txs && tx.from == a && tx.nonce == nonces[a])
  }

  lemma PeaksAreUnique(m: map<AccountId, int>, n: map<AccountId, int>, txs: set<Transaction>)
    requires Peaks(m, txs) && Peaks(n, txs)
    ensures m == n
  {
    assert m.Keys == n.Keys;
  }

  function FinalSet(rows: seq<Row>): set<Transaction> {
    set i | 0 <= i < |rows| && rows[i].status.Finalized? :: rows[i].tx
  }

  lemma {:induction false} ScanPeaks(rows: seq<Row>)
    requires forall tx | tx in FinalSet(rows) :: tx.nonce > 0
    ensures Peaks(ScanNonces(rows), FinalSet(rows))
  {
    var scan := ScanNonces(rows);
    forall i | 0 <= i < |rows| && rows[i].status.Finalized? ensures rows[i].tx.nonce > 0 {
      assert rows[i].tx in FinalSet(rows);
    }
    ScanNoncesIsMaximum(rows);
    forall a | a in scan ensures exists tx :: tx in FinalSet(rows) && tx.from == a && tx.nonce == scan[a] {
      var i :| 0 <= i < |rows| && rows[i].status.Finalized? && rows[i].tx.from == a && rows[i].tx.nonce == scan[a];
      assert rows[i].tx in FinalSet(rows);
    }
  }

  lemma TrailPeaks(txs: seq<Transaction>, nonces: map<AccountId, int>)
    requires NonceTrail(txs, nonces)
    ensures Peaks(nonces, set tx | tx in txs)
    ensures forall tx | tx in txs :: tx.nonce > 0
  {
    var all := set tx | tx in txs;
    forall a | a in nonces ensures exists tx :: tx in all && tx.from == a && tx.nonce == nonces[a] {
      var i :| 0 <= i < |txs| && txs[i].from == a && txs[i].nonce == nonces[a];
      assert txs[i] in all;
    }
  }

  lemma ChainIsFinalSet(t: Tables)
    requires WellFormed(t)
    ensures (set tx | tx in AllTxs(Chain(t))) == FinalSet(t.rows)
  {
    var all := set tx | tx in AllTxs(Chain(t));
    forall tx ensures tx in all <==> tx in FinalSet(t.rows) {
      ChainHoldsFinalizedRows(t, tx);
    }
  }

  /** The maximum the scan finds is the last nonce the live ledger kept. */
  lemma ReloadedNonces(t: Tables, nonces: map<AccountId, int>)
    requires WellFormed(t) && NonceTrail(AllTxs(Chain(t)), nonces)
    ensures ScanNonces(t.rows) == nonces
  {
    ChainIsFinalSet(t);
    TrailPeaks(AllTxs(Chain(t)), nonces);
    ScanPeaks(t.rows);
    PeaksAreUnique(ScanNonces(t.rows), nonces, FinalSet(t.rows));
  }

  // ---- Issued supply ----

  function OneIf(b: bool, tx: Transaction): seq<Transaction> {
    if b then [tx] else []
  }

  function FinalTxs(rows: seq<Row>, upTo: int): seq<Transaction> {
    if rows == [] then []
    else
      var r := rows[|rows| - 1];
      FinalTxs(rows[..|rows| - 1], upTo) + OneIf(r.blockHeight.Some? && r.blockHeight.value <= upTo, r.tx)
  }

  /** Summing by height and summing along the table count the same transactions. */
  lemma {:induction false} SumByHeight(rows: seq<Row>, h: int, kind: TransactionKind, asset: Asset)
    ensures SumOfKind(FinalTxs(rows, h), kind, asset)
            == SumOfKind(FinalTxs(rows, h - 1), kind, asset) + SumOfKind(TxsAtHeight(rows, h), kind, asset)
    decreases |rows|
  {
    if rows != [] {
      var front, r := rows[..|rows| - 1], rows[|rows| - 1];
      SumByHeight(front, h, kind, asset);
      var upTo, below := r.blockHeight.Some? && r.blockHeight.value <= h, r.blockHeight.Some? && r.blockHeight.value <= h - 1;
      SumOfKindConcat(FinalTxs(front, h), OneIf(upTo, r.tx), kind, asset);
      SumOfKindConcat(FinalTxs(front, h - 1), OneIf(below, r.tx), kind, asset);
      SumOfKindConcat(TxsAtHeight(front, h), OneIf(r.blockHeight == Some(h), r.tx), kind, asset);
      assert SumOfKind([], kind, asset) == 0;
    }
  }

  lemma {:induction false} NothingBelowOne(rows: seq<Row>)
    requires forall i | 0 <= i < |rows| && rows[i].blockHeight.Some? :: rows[i].blockHeight.value >= 1
    ensures FinalTxs(rows, 0) == []
    decreases |rows|
  {
    if rows != [] {
      NothingBelowOne(rows[..|rows| - 1]);
    }
  }

  lemma ChainPrefix(t: Tables, n: nat)
    requires WellFormed(t) && 0 < n <= |t.headers|
    ensures Chain(t)[..n] == Chain(t)[..n - 1] + [Chain(t)[n - 1]]
    ensures Chain(t)[n - 1].txs == TxsAtHeight(t.rows, n)
  {
  }

  lemma {:induction false} SumAlongChain(t: Tables, n: nat, kind: TransactionKind, asset: Asset)
    requires WellFormed(t) && n <= |t.headers|
    ensures SumOfKind(AllTxs(Chain(t)[..n]), kind, asset) == SumOfKind(FinalTxs(t.rows, n), kind, asset)
    decreases n
  {
    if n == 0 {
      NothingBelowOne(t.rows);
    } else {
      SumAlongChain(t, n - 1, kind, asset);
      SumByHeight(t.rows, n, kind, asset);
      ChainPrefix(t, n);
      var front, b := Chain(t)[..n - 1], Chain(t)[n - 1];
      AllTxsSnoc(front, b);
      SumOfKindConcat(AllTxs(front), b.txs, kind, asset);
    }
  }

  ghost predicate StatusesAgree(rows: seq<Row>, top: int) {
    forall i | 0 <= i < |rows| ::
      && (rows[i].status.Finalized? <==> rows[i].blockHeight.Some?)
      && (rows[i].blockHeight.Some? ==> rows[i].blockHeight.value <= top)
  }

  function NoncesAfter(nonces: map<AccountId, int>, r: Row): map<AccountId, int> {
    if r.status.Finalized? then nonces[r.tx.from := Max(Get(nonces, r.tx.from), r.tx.nonce)] else nonces
  }

  function IssuedAfter(issued: map<Asset, int>, r: Row): map<Asset, int> {
    if !r.status.Finalized? || r.tx.kind.Transfer? then issued
    else Add(issued, r.tx.asset, if r.tx.kind.Mint? then r.tx.amount else -r.tx.amount)
  }

  lemma {:induction false} ScanSnoc(rows: seq<Row>, r: Row)
    ensures ScanNonces(rows + [r]) == NoncesAfter(ScanNonces(rows), r)
    ensures ScanIssued(rows + [r]) == IssuedAfter(ScanIssued(rows), r)
  {
    assert (rows + [r])[..|rows|] == rows;
  }

  lemma {:induction false} SumOfKindOneIf(txs: seq<Transaction>, b: bool, tx: Transaction, kind: TransactionKind, asset: Asset)
    ensures SumOfKind(txs + OneIf(b, tx), kind, asset)
            == SumOfKind(txs, kind, asset) + (if b && tx.kind == kind && tx.asset == asset then tx.amount else 0)
  {
    if b {
      SumOfKindSnoc(txs, tx, kind, asset);
    } else {
      assert txs + [] == txs;
    }
  }

  lemma {:induction false} ScanIssuedStep(front: seq<Row>, r: Row, txs: seq<Transaction>, asset: Asset)
    requires Get(ScanIssued(front), asset) == NetIssue(txs, asset)
    ensures Get(ScanIssued(front + [r]), asset) == NetIssue(txs + OneIf(r.status.Finalized?, r.tx), asset)
  {
    SumOfKindOneIf(txs, r.status.Finalized?, r.tx, Mint, asset);
    SumOfKindOneIf(txs, r.status.Finalized?, r.tx, Burn, asset);
    ScanSnoc(front, r);
  }

  lemma {:induction false} ScanIssuedIsNet(rows: seq<Row>, top: int, asset: Asset)
    requires StatusesAgree(rows, top)
    ensures Get(ScanIssued(rows), asset) == NetIssue(FinalTxs(rows, top), asset)
    decreases |rows|
  {
    if rows != [] {
      var front, r := rows[..|rows| - 1], rows[|rows| - 1];
      ScanIssuedIsNet(front, top, asset);
      assert FinalTxs(rows, top) == FinalTxs(front, top) + OneIf(r.status.Finalized?, r.tx);
      assert rows == front + [r];
      ScanIssuedStep(front, r, FinalTxs(front, top), asset);
    }
  }

  lemma {:induction false} ScanIssuedKeys(rows: seq<Row>, asset: Asset)
    ensures asset in ScanIssued(rows) <==>
              exists i :: 0 <= i < |rows| && rows[i].status.Finalized? && rows[i].tx.asset == asset && !rows[i].tx.kind.Transfer?
    decreases |rows|
  {
    if rows != [] {
      var front, r := rows[..|rows| - 1], rows[|rows| - 1];
      ScanIssuedKeys(front, asset);
      if asset in ScanIssued(front) {
        var i :| 0 <= i < |front| && front[i].status.Finalized? && front[i].tx.asset == asset && !front[i].tx.kind.Transfer?;
        assert rows[i] == front[i];
      } else if asset in ScanIssued(rows) {
        assert rows[|rows| - 1] == r;
      }
    }
  }

  lemma ReloadedSupply(t: Tables, asset: Asset)
    requires WellFormed(t)
    ensures Get(ScanIssued(t.rows), asset) == NetIssue(AllTxs(Chain(t)), asset)
  {
    ScanIssuedIsNet(t.rows, |t.headers|, asset);
    SumAlongChain(t, |t.headers|, Mint, asset);
    SumAlongChain(t, |t.headers|, Burn, asset);
    assert Chain(t)[..|t.headers|] == Chain(t);
  }

  lemma ReloadedAssets(t: Tables, issued: map<Asset, int>, asset: Asset)
    requires WellFormed(t) && IssueAgrees(AllTxs(Chain(t)), issued)
    ensures asset in ScanIssued(t.rows) <==> asset in issued
  {
    var txs := AllTxs(Chain(t));
    ScanIssuedKeys(t.rows, asset);
    if asset in ScanIssued(t.rows) {
      var i :| 0 <= i < |t.rows| && t.rows[i].status.Finalized? && t.rows[i].tx.asset == asset && !t.rows[i].tx.kind.Transfer?;
      ChainHoldsFinalizedRows(t, t.rows[i].tx);
      var j :| 0 <= j < |txs| && txs[j] == t.rows[i].tx;
    }
    if asset in issued {
      var j :| 0 <= j < |txs| && txs[j].asset == asset && !txs[j].kind.Transfer?;
      ChainHoldsFinalizedRows(t, txs[j]);
      var i :| 0 <= i < |t.rows| && t.rows[i].tx == txs[j] && t.rows[i].status.Finalized?;
    }
  }

  lemma ReloadedIssued(t: Tables, issued: map<Asset, int>)
    requires WellFormed(t) && IssueAgrees(AllTxs(Chain(t)), issued)
    ensures ScanIssued(t.rows) == issued
  {
    var scan := ScanIssued(t.rows);
    forall asset ensures Get(scan, asset) == Get(issued, asset) && (asset in scan <==> asset in issued) {
      ReloadedSupply(t, asset);
      ReloadedAssets(t, issued, asset);
    }
    assert scan.Keys == issued.Keys;
  }

  /**
    Reload agreement: whenever the stored chain replays from a ledger without money, the nonce and
    issued maps rebuilt by scanning the transaction table are exactly those of the replay.
   */
  lemma {:induction false} ReloadAgrees(t: Tables, genesis: Working)
    requires WellFormed(t) && Zero(genesis)
    requires Replay(t.accounts, Chain(t), genesis).Ok?
    ensures var w := Replay(t.accounts, Chain(t), genesis).value;
            ScanNonces(t.rows) == w.nonces && ScanIssued(t.rows) == w.issued
  {
    ReplayIsBalanced(t.accounts, Chain(t), genesis);
    var w := Replay(t.accounts, Chain(t), genesis).value;
    ReloadedNonces(t, w.nonces);
    ReloadedIssued(t, w.issued);
  }

  // ---- The loop of load_payments ----

  /** What the scan collects per height, as the map the source builds. */
  ghost predicate GroupsByHeight(rows: seq<Row>, byHeight: map<int, seq<Transaction>>) {
    forall h :: (if h in byHeight then byHeight[h] else []) == TxsAtHeight(rows, h)
  }

  /** `entry(height).or_default().push(tx)` */
  function Grouped(byHeight: map<int, seq<Transaction>>, r: Row): map<int, seq<Transaction>> {
    if r.blockHeight.None? then byHeight
    else var h := r.blockHeight.value; byHeight[h := (if h in byHeight then byHeight[h] else []) + [r.tx]]
  }

  lemma GroupsSnoc(rows: seq<Row>, r: Row, before: map<int, seq<Transaction>>)
    requires GroupsByHeight(rows, before)
    ensures GroupsByHeight(rows + [r], Grouped(before, r))
  {
    assert (rows + [r])[..|rows|] == rows;
  }

  /** What one row does to the two maps. */
  method ScanRow(row: Row, nonces: map<AccountId, int>, issued: map<Asset, int>)
    returns (newNonces: map<AccountId, int>, newIssued: map<Asset, int>)
    ensures newNonces == NoncesAfter(nonces, row) && newIssued == IssuedAfter(issued, row)
  {
    newNonces, newIssued := nonces, issued;
    if row.status == Finalized {
      newNonces := nonces[row.tx.from := Max(Get(nonces, row.tx.from), row.tx.nonce)];
      match row.tx.kind {
        case Mint => newIssued := Add(issued, row.tx.asset, row.tx.amount);
        case Burn => newIssued := Add(issued, row.tx.asset, -row.tx.amount);
        case Transfer =>
      }
    }
  }

  function PaymentList(rows: seq<Row>, headers: seq<Block>): seq<PaymentRecord> {
    seq(|rows|, i requires 0 <= i < |rows| => PaymentOf(rows[i], headers))
  }

  lemma {:induction false} PaymentsOneMore(rows: seq<Row>, headers: seq<Block>, i: nat)
    requires i < |rows|
    ensures PaymentList(rows[..i + 1], headers) == PaymentList(rows[..i], headers) + [PaymentOf(rows[i], headers)]
  {
  }

  lemma {:induction false} ScannedOneMore(rows: seq<Row>, i: nat, byHeight: map<int, seq<Transaction>>)
    requires i < |rows| && GroupsByHeight(rows[..i], byHeight)
    ensures ScanNonces(rows[..i + 1]) == NoncesAfter(ScanNonces(rows[..i]), rows[i])
    ensures ScanIssued(rows[..i + 1]) == IssuedAfter(ScanIssued(rows[..i]), rows[i])
    ensures GroupsByHeight(rows[..i + 1], Grouped(byHeight, rows[i]))
  {
    assert rows[..i + 1] == rows[..i] + [rows[i]];
    GroupsSnoc(rows[..i], rows[i], byHeight);
    ScanSnoc(rows[..i], rows[i]);
  }

  method LoadPayments(rows: seq<Row>, headers: seq<Block>)
    returns (payments: seq<PaymentRecord>, nonces: map<AccountId, int>, issued: map<Asset, int>,
             byHeight: map<int, seq<Transaction>>)
    ensures |payments| == |rows| && forall i | 0 <= i < |rows| :: payments[i] == PaymentOf(rows[i], headers)
    ensures nonces == ScanNonces(rows)
    ensures issued == ScanIssued(rows)
    ensures GroupsByHeight(rows, byHeight)
  {
    payments, nonces, issued, byHeight := [], map[], map[], map[];
    for i := 0 to |rows|
      invariant payments == PaymentList(rows[..i], headers)
      invariant nonces == ScanNonces(rows[..i]) && issued == ScanIssued(rows[..i])
      invariant GroupsByHeight(rows[..i], byHeight)
    {
      var row := rows[i];
      ScannedOneMore(rows, i, byHeight);
      nonces, issued := ScanRow(row, nonces, issued);
      byHeight := Grouped(byHeight, row);
      PaymentsOneMore(rows, headers, i);
      payments := payments + [PaymentOf(row, headers)];
    }
    assert rows[..|rows|] == rows;
  }
}

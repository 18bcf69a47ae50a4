# A verified model of the Kani sandbox network

This project models the settlement core of the Kani network in Dafny 4.11 and proves what it promises. The network
keeps a hash-linked chain of blocks; each block holds mint, burn and transfer transactions of test assets between
accounts. Validators take turns to produce blocks from a queue of pending payments in a shared PostgreSQL store; an API
screens payments, holds those above a limit for review, and renders ISO 20022 messages.

Run `dafny verify dfyconfig.toml` to check everything.

## What is modelled

- **The ledger** (`Types`, `LedgerCore`, `Ledger`, `InMemoryLedger`, `Books`, `MachineArithmetic`): validation and
  application of transactions, all-or-nothing block application, holds and case resolutions, as value functions and as a
  class that updates its maps in place; conservation, agreement of all views of the money, replay protection, and the
  bound on unchecked 128-bit arithmetic.
  `ChainFacts` says what the transactions, the journal and the blocks of every reachable chain look like.
- **Consensus** (`Consensus`, `Rotation`, `Modular`, `Blocks`): round-robin leaders, rotating vote windows, both
  thresholds, certificates, block verification and building; quorum intersection, fairness, and chain identity by hash.
- **The validator pass** twice. As one atomic pass over a mutable store (`Store`, `Reload`, `Merging`, `Selection`,
  `Passes`, `Reasons`, `Drain`, `Runtime`): load, filter, build, verify, apply, save, with the queue-drain argument. And as steps
  (`Protocol`, `Safety`, `Locking`, `Approvals`, `CaseRuns`, `StoredKeys`, `FairRuns`): any number of validator processes - leader
  check, try-lock, reload and recheck, read the queue, filter one by one, build, save, release, abort at any point -
  interleaved in any order with API inserts, holds and resolutions. `Uninterrupted` ties the two together; `WriteBack`,
  `Rejections`, `StaleApproval`, `StaleRun` and `Seeding` give the runs that break what one might expect, with the exact conditions.
- **Requests to the store** (`StoredCases`, `StoredRequests`): screened submission and hold as the statements the store runs,
  at moments of their own; retries, their outcome and their cases over whole runs. `ScreenedChains` lifts screening to both chains.
- **The node without a store** (`Compliance`, `Idempotency`, `Node`, `NodeRuns`, `OverflowRun`): screened submission, hold, mint,
  burn, case resolution and idempotent retries over whole runs of calls.
- **Reports** (`Reports`) and **ISO 20022 text** (`Text`, `Xml`, `XmlTree`, `XmlBuffer`, `Camt053`, `Camt053Reader`,
  `Amounts`).

## Assumptions

- Ids of transactions, payments and cases are UUIDs, modelled as natural numbers; new ones are fresh. In the stored model
  freshness is the table's own constraint, in the in-memory node it is a precondition (`FreshCall`).
- Active validator ids are pairwise distinct and at least three (`Configured`); the constructors check only the count.
- Hash and signature are uninterpreted functions; the hash is never empty, and injective only where a lemma says so
  (`HashInjective`, `DigestInjective`).
- `load_snapshot` is one atomic read; saving, approving and rejecting are one database transaction each.
- A row is stored under a client reference only with the fingerprint of its own request (`Fingerprinted`), as both callers do.
- Seeding is complete before any process starts: runs begin with the sandbox's accounts in the store. Connecting does run
  `ensure_sandbox_seed`, a load followed by a save outside the lock; `LateSeedIff` says what a late one would do.
- Timestamps and ids are inputs.

## What the proofs found

- REJECTED is not terminal in the store: a pass that both rejects and finalizes saves the statuses it loaded, so its
  rejected payments become PENDING again (`RejectedComesBack`, and `RestoredRunExists` from the sandbox). `StaysRejectedIff`
  gives the exact condition over runs, and `QueueDrains` shows that the queue still empties.
- A case approved between a leader's load and its reading of the queue is opened again by the leader's save, with its
  payment already final (`ApprovalLost`, `StaleRunExists`, `OpenCasesHeldIff`). It can then be resolved a second time
  (`ResolvedTwice`), so in the stored model a resolution lasts exactly until such a save (`StaysResolvedIff`); in the
  in-memory node a case is resolved at most once, outright (`ResolvedAtMostOnce`).
- Retries are safe in every interleaving with the store (`StoredOnce`): the branches that would return a payment never
  stored, or a conflict with an unknown payment, cannot be taken (`EnqueueIsAtomic`, `HoldIsAtomic`).
- Two requests share a fingerprint when a field hides a separator line of the payload (`PayloadUniqueIff`).
- In the in-memory node an approved payment stays PENDING for ever: nothing there picks it up (`CasesAndPaymentsAgree`).
- `verify_finality_proof` does not compare the proof's height with the certificate's (`FinalityProofHeightIsFree`).
- The issuance test of a burn and the rejection of a whole built block are dead code (`IssuanceTestIsRedundant`,
  `SelectedBatchFinalizes`).
- Two mints take issued supply past 2^127 - 1 (`OverflowIsReached`). The sum then wraps around in a release build; a debug
  build stops with a panic. It needs the node without a store: the columns of the store are `NUMERIC(38, 0)`, below 2^127,
  so a save of such an amount fails.
- A seed whose save comes late puts balances back to zero (`LateSeedIff`, `LateSeedRun`).

## Model

| member | source | states |
|---|---|---|
| LedgerCore.ValidIff | crates/kani-ledger/src/lib.rs:756-811 | a transaction is accepted if and only if its amount is positive, its asset not blank, both accounts known, its nonce above the account's last, a mint starts at a treasury account, a burn ends at one, a transfer or burn is covered by the balance and a burn by the issued supply; said of the transaction and the state alone |
| LedgerCore.RefusedIff | crates/kani-ledger/src/lib.rs:756-811 | a refusal carries an error if and only if that error names the first broken requirement, in order, with its account, asset and figures |
| LedgerCore.TransactionEffect | crates/kani-ledger/src/lib.rs:2914-2971 | what an applied transaction changes, figure by figure: every balance, every asset's issued supply, the nonces, and the journal lines with account, amount and the height of the block |
| LedgerCore.BatchIff | crates/kani-ledger/src/lib.rs:679-700 | a batch passes if and only if each of its transactions is acceptable in the state its predecessors leave |
| Ledgers.ApplyBlockIff | crates/kani-ledger/src/lib.rs:652-700 | a block is applied if and only if it has a hash, the next height, the last block's hash, and such a batch |
| ChainFacts.MintsComeFromTreasury | crates/kani-ledger/src/lib.rs:788-798 | in every ledger reachable from the sandbox each minting transaction of the chain starts at the treasury account and each burning one ends at it, with a positive amount between known accounts |
| ChainFacts.StoredChainIsWellIssued | crates/kani-ledger/src/lib.rs:788-798 | the same of the stored chain, in every interleaving of the protocol |
| ChainFacts.JournalIsTheChains | crates/kani-ledger/src/lib.rs:2914-2971 | in every reachable ledger the journal holds exactly the lines of the chain's transactions, each with amount, asset and the height of the very block that holds the transaction |
| ChainFacts.StoredJournalIsTheChains | crates/kani-ledger/src/lib.rs:2129-2149 | the same of the stored journal, in every interleaving |
| ChainFacts.BlocksAreByActiveValidators | crates/kani-node/src/lib.rs:1058-1129 | in every interleaving each stored block names an active validator as its producer and at least two thirds of the active validators, distinct and the producer among them, as voters; its hash is that of its height, predecessor, transactions, producer and time |
| LedgerCore.ApplyAllPrefix | crates/kani-ledger/src/lib.rs:679-700 | once a prefix of a batch fails, the whole batch fails with that prefix's error |
| LedgerCore.HeightOnlyLabels | crates/kani-ledger/src/lib.rs:731-754 | verdict, error and money of a batch do not depend on the height, which only labels journal entries; so the dry run at the next height speaks for the block |
| InMemory.WorkingState.Debit | crates/kani-ledger/src/lib.rs:2973-2985 | in-place debit: succeeds with exactly the reduced balance, or reports insufficient funds and changes nothing |
| InMemory.WorkingState.Credit | crates/kani-ledger/src/lib.rs:2987-2997 | in-place credit: the named row rises by the amount, every other row reads as before, and of all asset totals only that asset's rises, by the same amount |
| InMemory.WorkingState.ApplyTransaction | crates/kani-ledger/src/lib.rs:2914-2971 | the in-place method and the value function agree on balances, nonces, issued supply and journal; a failure leaves all four untouched |
| InMemory.InMemoryLedger.ValidateTransactionsForNextBlock | crates/kani-ledger/src/lib.rs:731-754 | the dry run's own loop, at the next height, gives the verdict of validating and applying the batch in order, with the error of its first failing transaction and the ledger unchanged |
| InMemory.InMemoryLedger.ApplyBlock | crates/kani-ledger/src/lib.rs:652-729 | all or nothing: the whole new ledger value and the records on success, the unchanged old value on any error; its loop, written apart from the dry run's, computes the same fold at the block's height and one record per transaction (`WorkBlock`), so with matching header a block is applied exactly when the dry run passes |
| InMemory.InMemoryLedger.HoldPaymentForReview | crates/kani-ledger/src/lib.rs:560-571 | payment and case are found under their ids, every other payment and case is as it was, no money and no block moves; and an open case naming the payment can afterwards be resolved either way, which settles both |
| InMemory.InMemoryLedger.ApproveComplianceCase | crates/kani-ledger/src/lib.rs:606-626 | succeeds if and only if the case is known, neither resolved nor closed, and its payment known; then the case is approved with reviewer and reason in their own fields, the payment PENDING without a failure reason, and nothing else differs; otherwise the ledger is unchanged |
| InMemory.InMemoryLedger.RejectComplianceCase | crates/kani-ledger/src/lib.rs:628-650 | the same condition; then the case is rejected with reviewer and reason, the payment REJECTED with the given or default reason, and nothing else differs; otherwise the ledger is unchanged |
| Ledgers.InsertRecordsLookup | crates/kani-ledger/src/lib.rs:702-724 | after a block, an id has a record exactly when it had one or the block holds it, and only the block's own ids change |
| Ledgers.RunIsSound | crates/kani-ledger/src/lib.rs:652-729 | after any operations the chain is linked with heights counting from one, and balances, nonces, issued supply and journal are the replay of that chain |
| Ledgers.ReachableLedgersBalance | crates/kani-ledger/src/lib.rs:359-408 | in every ledger reachable from the sandbox by any operations: balances sum to issued supply and are never negative, the journal nets to every balance, issued is minted minus burned, nonces increase, and the state is the replay of the chain |
| Books.TotalHeldAdd | crates/kani-ledger/src/lib.rs:2973-2997 | changing one balance row changes the total of its own asset by the same amount and no other total |
| Books.BalanceWithinTotal | crates/kani-ledger/src/lib.rs:2999-3025 | with no negative row, a balance lies between zero and the asset's total |
| Books.LinesNetToBalanceChange | crates/kani-ledger/src/lib.rs:2922-2967 | the journal lines of a transaction net, for every account and asset, to exactly the change of that balance |
| Books.StepConserves | crates/kani-ledger/src/lib.rs:2914-2971 | one accepted transaction keeps: sum of balances equals issued for every asset, no balance negative |
| Books.StepKeepsJournal | crates/kani-ledger/src/lib.rs:2914-2971 | one accepted transaction keeps: every balance equals journal credits minus debits |
| Books.StepKeepsIssue | crates/kani-ledger/src/lib.rs:2914-2971 | one accepted transaction keeps: issued equals minted minus burned, and exactly the minted or burned assets have an entry |
| Books.NonceTrailSnoc | crates/kani-ledger/src/lib.rs:780-783 | an accepted nonce keeps each account's nonces positive and strictly increasing, the map holding the last one |
| Books.BatchKeepsBalance | crates/kani-ledger/src/lib.rs:679-700 | a whole batch keeps all views of the money in agreement |
| Books.ReplayIsBalanced | crates/kani-ledger/src/lib.rs:652-729 | every chain that replays from a start without money leaves balances, journal, issued supply and nonces in agreement |
| Books.IssuanceTestIsRedundant | crates/kani-ledger/src/lib.rs:799-806 | in every conserved state the ISSUANCE test of a burn changes no verdict: its branch can never be taken |
| Books.NoNonceTwice | crates/kani-ledger/src/lib.rs:780-783 | no (account, nonce) pair occurs twice along a replayable chain, within a block or across blocks |
| MachineArithmetic.StepIsExactIff | crates/kani-ledger/src/lib.rs:2914-2997 | in a conserved state within range, the unchecked 128-bit step equals the exact one if and only if it is not a mint that takes issued supply past 2^127 - 1 |
| MachineArithmetic.CreditAfterDebitFits | crates/kani-ledger/src/lib.rs:2922-2938 | the credit of a transfer after its debit stays in range, self-transfers included |
| MachineArithmetic.OverflowBreaksBooks | crates/kani-ledger/src/lib.rs:2940-2951 | a mint past the bound wraps issued supply to a negative number and conservation fails |
| OverflowRun.OverflowIsReached | crates/kani-node/src/lib.rs:374-395 | two mints from the sandbox reach it, with any engine and crypto: the first issues 2^127 - 1, held exactly; the node accepts one more, and in 128-bit words issued supply is -2^127 |
| MachineArithmetic.ReplayIsExact | crates/kani-ledger/src/lib.rs:652-729 | for every chain whose mints keep issued supply within 2^127 - 1, replay in 128-bit words equals replay in unbounded integers, errors included |
| Consensus.CheckVotesIff | crates/kani-consensus/src/lib.rs:366-381 | a vote list passes the duplicate-detecting loop exactly when its voters are pairwise distinct and active; the result is the set of voters |
| Consensus.CheckVotesLoop | crates/kani-node/src/lib.rs:1084-1098 | the loop over votes with a mutable set computes that verdict, or the first fault |
| Consensus.ActiveIdsAre | crates/kani-consensus/src/lib.rs:248-253 | the active list is the configured list with exactly the entries that are switched off left out: the places of the others, strictly increasing, none missing, each with its id |
| Consensus.ActiveIdsIff | crates/kani-consensus/src/lib.rs:506-511 | an id is in the active list if and only if a validator of that id is configured and switched on; the list is as long as there are such entries |
| Consensus.LeaderSchedule | crates/kani-consensus/src/lib.rs:518-530 | the first height is led by the first active validator, each leader hands over to the next of the list, around, and every leader is a configured validator that is switched on |
| Consensus.VerifyQuorumCertificate | crates/kani-consensus/src/lib.rs:344-384 | acceptance if and only if epoch, hash, quorum, distinctness and membership hold, and then every voter is a validator that is switched on and they are more than two thirds of those; each error names a true fault of the certificate |
| Consensus.VerifyFinalityProof | crates/kani-consensus/src/lib.rs:386-402 | acceptance if and only if validator set, block hash and certificate hold |
| Consensus.FinalityProofHeightIsFree | crates/kani-consensus/src/lib.rs:386-402 | an accepted proof stays accepted with any height written on it, so accepted proofs exist whose height is not the certificate's |
| Consensus.VoteWindow | crates/kani-consensus/src/lib.rs:532-549 | the vote list of every height is threshold-many distinct validators that are switched on, the leader first |
| Consensus.SimulationVerifies | crates/kani-consensus/src/lib.rs:292-342 | simulation succeeds exactly for heights from one on and non-blank hashes; its certificate carries that height and hash, round 0, epoch 1 and the height's vote list, and certificate and proof pass verification |
| Consensus.CertificatesIntersect | crates/kani-consensus/src/lib.rs:344-384 | any two accepted certificates share more than a third of the active validators |
| Consensus.PoaListsIntersect | crates/kani-node/src/lib.rs:1076-1098 | any two accepted PoA finality lists share at least floor((n - 1) / 3) + 1 validators |
| Rotation.EveryRoundIsFair | crates/kani-consensus/src/lib.rs:518-549 | over any n consecutive heights each active validator leads exactly once and votes exactly threshold times |
| Rotation.SharesUpTo | crates/kani-consensus/src/lib.rs:518-549 | over the first m heights each active validator's leads and votes are its share to within one round |
| Rotation.WindowSlides | crates/kani-consensus/src/lib.rs:532-549 | a count over one period does not change when its window slides |
| Blocks.VerifyIffEndorsed | crates/kani-node/src/lib.rs:1058-1129 | a block verifies if and only if it is endorsed (leader, quorum of distinct active voters with the producer, hash, signature) and its batch passes the dry run |
| Blocks.VerifyPhase1Block | crates/kani-node/src/lib.rs:1058-1129 | the imperative verification returns that verdict, with the error of the first failing check; producer and voters of an accepted block are validators that are switched on |
| Blocks.RewrittenBlockFails | crates/kani-node/src/lib.rs:1106-1116 | with an injective hash, a verified block with its height, predecessor, transactions, producer or time changed under the old hash verifies on no ledger |
| Blocks.ExchangedContentsAreNamed | crates/kani-node/src/lib.rs:1106-1116 | with its transactions, time or predecessor exchanged the error is exactly the hash mismatch, with both hashes |
| Blocks.BuildingCannotFail | crates/kani-node/src/lib.rs:1028-1056 | a leader with a non-empty batch that passes the dry run always gets its block: endorsed, next height, last hash, the same transactions, its own id and time, and applicable |
| Blocks.SameTipSameHistory | crates/kani-node/src/lib.rs:1106-1116 | with an injective hash, two good chains with the same tip hash have equal length and agree, field by field, on every block's height, previous hash, transactions, producer and time |
| Blocks.ProduceIffDryRun | crates/kani-node/src/lib.rs:690-731 | production on the in-memory ledger succeeds exactly when the dry run accepts the batch, and then appends one endorsed block with exactly that batch |
| Selection.RevalidationIsOnePass | crates/kani-node/src/lib.rs:873-883 | revalidating the whole candidate list for every transaction computes exactly the one-pass filter that carries a working state |
| Selection.EachVerdict | crates/kani-node/src/lib.rs:873-883 | each transaction is accepted exactly when it is valid after the accepted ones before it |
| Selection.SplitPartitions | crates/kani-node/src/lib.rs:873-883 | accepted and rejected partition the page: nothing lost, invented or counted twice |
| Selection.AcceptsSomethingIff | crates/kani-node/src/lib.rs:885-887 | the filter accepts something exactly when some transaction of the page is valid on its own |
| Selection.SelectedBatchFinalizes | crates/kani-node/src/lib.rs:889-906 | building, verifying and applying the selected batch cannot fail, so the branch that rejects a whole built block is unreachable |
| Selection.SelectTransactions | crates/kani-node/src/lib.rs:873-883 | the loop growing `accepted` returns exactly that split, with the ledger unchanged; its effect on the store is `FilterPending`'s |
| Reload.SnapshotRoundTrip | crates/kani-ledger/src/lib.rs:282-350 | `from_snapshot` after `snapshot` is the identity, whatever order the hash maps are listed in |
| Reload.ChainHoldsFinalizedRows | crates/kani-ledger/src/lib.rs:2361-2424 | the loaded chain holds exactly the transactions of FINALIZED rows |
| Reload.ReloadedNonces | crates/kani-ledger/src/lib.rs:2333-2335 | the maximum found by the scan in (created_at, id) order is the last nonce the live ledger kept |
| Reload.ReloadedIssued | crates/kani-ledger/src/lib.rs:2337-2345 | the issued map rebuilt by the scan is the live one, keys included |
| Reload.ReloadAgrees | crates/kani-ledger/src/lib.rs:2283-2359 | whenever the stored chain replays from a ledger without money, the rebuilt nonce and issued maps are exactly those of the replay |
| Reload.LoadPayments | crates/kani-ledger/src/lib.rs:2283-2359 | the loop returns the payments in order, both scanned maps, and each height's transactions in table order |
| Merging.UpsertIsMerge | crates/kani-ledger/src/lib.rs:2052-2090 | upserting a snapshot's payments in any order overwrites each row that has a record and adds none |
| Protocol.UpsertFields | crates/kani-ledger/src/lib.rs:2052-2090 | one upsert writes status, height and failure reason of the row with that id and leaves every other row alone, or adds one row with every field of the payment, in order |
| Merging.InsertHeadersEffect | crates/kani-ledger/src/lib.rs:2033-2050 | stored heights are never rewritten; only the next height is appended |
| Merging.SaveIsMerge | crates/kani-ledger/src/lib.rs:1901-2174 | whatever order the snapshot lists its maps in, `save_snapshot` is one merge |
| Merging.MergedRow | crates/kani-ledger/src/lib.rs:2052-2090 | row by row: the block's transactions become FINALIZED at its height without a failure reason, loaded rows get the status and the reason they were loaded with, rows inserted meanwhile stay exactly as they are |
| Merging.NewHeightHoldsBlock | crates/kani-ledger/src/lib.rs:2383-2424 | after the save the new height holds exactly the block's transactions in the block's order |
| Merging.MergeExtendsChain | crates/kani-ledger/src/lib.rs:1901-2174 | the stored chain after the save is the old chain followed by exactly the block |
| Merging.MergeKeepsJournal | crates/kani-ledger/src/lib.rs:2129-2149 | the stored journal after the save is the saved ledger's, with distinct keys |
| Merging.MergeKeepsStore | crates/kani-ledger/src/lib.rs:1901-2174 | the save keeps the store's invariant, and a later load finds the saved chain, balances, nonces, issued supply and journal |
| Merging.ReloadedRecord | crates/kani-ledger/src/lib.rs:2283-2359 | after the save a reload finds each of the block's payments FINALIZED at the block's height and hash |
| Merging.LoadedRecord | crates/kani-ledger/src/lib.rs:2283-2359 | a loaded payment is its row field by field - status, height, failure reason, reference, fingerprint - with the hash of the stored block at its height |
| Store.StoredResolution | crates/kani-ledger/src/lib.rs:1520-1616 | a stored case is resolved if and only if it is known and neither resolved nor closed; then it carries reviewer and reason, its payment's row, if HELD, becomes PENDING without a reason or REJECTED with the one given, and nothing else differs |
| Protocol.ExtendsKeepsStore | crates/kani-ledger/src/lib.rs:1146-1221 | inserting rows and moving unfinalized ones keeps the stored chain and every loaded view of the money |
| Protocol.ApiStepKeepsInv | crates/kani-ledger/src/lib.rs:1294-1417 | every API step between the steps of validators keeps the invariant and the chain |
| Protocol.BuiltIsReady | crates/kani-node/src/lib.rs:889-897 | a non-empty selection always leads to a block ready to be saved on the store as it now is |
| Protocol.SaveStepInv | crates/kani-node/src/lib.rs:908-910 | the save step keeps the invariant and its effect on the tables is the merge |
| Protocol.StepKeepsInv | crates/kani-node/src/lib.rs:819-946 | every step of every process and of the API keeps the invariant |
| Protocol.RunsKeepInv | crates/kani-node/src/lib.rs:819-946 | so does every run |
| Safety.StepIsSafe | crates/kani-node/src/lib.rs:819-946 | each step leaves the chain as it is or appends one endorsed block made by the lock holder as that height's leader; no row is lost, changes identity or leaves its final height |
| Safety.RunsOnlyGrow | crates/kani-node/src/lib.rs:819-946 | between any two moments of any run the earlier chain is a prefix of the later one and finalized payments stay finalized: no height is finalized twice |
| Safety.EveryRunIsSafe | crates/kani-node/src/lib.rs:819-915 | in every state of every interleaving: the stored chain is linked and endorsed, stored balances and journal equal its replay, all views of the money agree, and the chain holds exactly the FINALIZED rows |
| Safety.OneHolder | crates/kani-ledger/src/lib.rs:1109-1126 | at most one process is past the advisory lock |
| Locking.TakenIffInside | crates/kani-node/src/lib.rs:831-915 | in every state of every run the lock is taken by a process if and only if that process is inside the locked part of its pass: it is never left behind, and an abort at any point frees it |
| Locking.OnlyTheLeaderWrites | crates/kani-node/src/lib.rs:831-915 | in every run only the holder of the lock, and only as the leader of the next height, writes to the store, be it a block or a rejection |
| Seeding.LateSeedIff | crates/kani-ledger/src/lib.rs:875-888 | a seed whose save comes when the store is in use leaves it in order if and only if every balance the seed writes is still zero, and then changes nothing |
| Seeding.LateSeedRun | crates/kani-ledger/src/lib.rs:875-888 | from every start over the sandbox a run leads to a store in order that a late seed puts out of order |
| Safety.SaveWritesBack | crates/kani-ledger/src/lib.rs:2065-2069 | a row outside the block ends the save with the status and the failure reason it was loaded with; a row inserted since stays exactly as it is |
| Approvals.NoFinalityWithoutApproval | crates/kani-api/src/lib.rs:885-989 | in every interleaving a transfer above the limit is in the chain only if its case was approved, while open, at an earlier moment of the run |
| CaseRuns.StepCases | crates/kani-ledger/src/lib.rs:1520-1616 | each step keeps cases and rows in order; from a state where every open case's payment is HELD, it breaks that exactly when it saves a block holding a payment that was HELD when loaded |
| CaseRuns.OpenCasesHeldIff | crates/kani-node/src/lib.rs:857-910 | over a whole run, every open case's payment is HELD at every moment if and only if no save finalizes a payment its process had loaded as HELD |
| CaseRuns.ResolutionSurvivesIff | crates/kani-ledger/src/lib.rs:2092-2127 | a resolved case stays resolved through every step but a save whose process had loaded it open, which always opens it again |
| CaseRuns.StaysResolvedIff | crates/kani-ledger/src/lib.rs:2092-2127 | a case resolved at one moment of a run is resolved at every later one if and only if no save in between opens it again |
| CaseRuns.ResolvedOnceUnlessReopened | crates/kani-ledger/src/lib.rs:2653-2673 | whenever a run resolves one case twice, a save that opens it again lies in between; `ResolvedTwice` gives such a run |
| StoredKeys.OnePaymentPerKey | migrations/0003_payment_idempotency.sql:1-6 | in every interleaving at most one stored payment carries a given client reference id, and at most one a given account and nonce |
| ScreenedChains.StoredTransfersAreListed | crates/kani-compliance/src/lib.rs:97-146 | in every interleaving each transfer of the stored chain is between two accounts of the policy's list, in an allowed asset, of a positive amount, and not to its own account unless that is allowed (all on trimmed fields); above the limit its case was approved at an earlier moment |
| ScreenedChains.StoredPaymentsAreAdmissible | crates/kani-ledger/src/lib.rs:1146-1221 | in every interleaving every stored payment, whatever its status, has a positive amount between two known accounts, and every stored transfer is between listed accounts in an allowed asset |
| StoredCases.CaseIffOverLimit | crates/kani-ledger/src/lib.rs:1294-1417 | in every run a stored payment - held, approved, rejected or final - has a compliance case if and only if the policy sends its transfer to review; then it has exactly one, which is open as long as the payment is HELD |
| StoredRequests.EnqueueIsAtomic | crates/kani-ledger/src/lib.rs:1146-1221 | the three statements of an enqueue (lookup, insert, second lookup), whatever happens between them, answer as the whole call at one of those moments; a payment that was not stored is never returned |
| StoredRequests.HoldIsAtomic | crates/kani-ledger/src/lib.rs:1294-1417 | the same of a hold; it never ends in the conflict without a payment |
| StoredRequests.HoldRetryAcross | crates/kani-ledger/src/lib.rs:1294-1318 | a hold whose reference is taken, its case read at any later moment: the same transfer gets the payment and its case, which is always found; any other is a conflict |
| StoredRequests.StoredRetryOutcome | crates/kani-ledger/src/lib.rs:2608-2654 | the exact outcome of a request whose reference is taken in the store: refusal by screening; for the same transfer the stored payment with all tables unchanged; otherwise a conflict naming it |
| StoredRequests.SubmissionIsAStep | crates/kani-api/src/lib.rs:885-957 | a new screened request is exactly one insert of the protocol, of a row that carries its transfer, its reference and its own fingerprint |
| StoredRequests.NewRequestIff | crates/kani-api/src/lib.rs:885-957 | a request whose reference is free is stored if and only if screening does not refuse it, its ids are new, its accounts known and its account's nonce unused; the row is given field by field, and a held one opens exactly one case with the screening's reason |
| StoredRequests.StoredOnce | crates/kani-ledger/src/lib.rs:1146-1221 | idempotency with the store, over whole runs: once a request with a reference and a payload of its own is accepted, then after any steps of validators, officers and other requests a request under that reference is accepted if and only if it is the same request, and then changes nothing and returns the same transaction |
| StaleApproval.ApprovalLost | crates/kani-node/src/lib.rs:857-910 | the failing family: from every quiet store with a valid payment on hold, approving between a leader's load and its reading of the queue ends with the payment final and its case open again |
| StaleRun.StaleRunExists | crates/kani-node/src/lib.rs:857-910 | a concrete such run from every start over the sandbox whose policy sends the payment to review: funding, hold, load, approval, save |
| StaleRun.ResolvedTwice | crates/kani-ledger/src/lib.rs:1520-1553 | that run one step longer holds two approvals of one case, with a reopening save in between and the payment final before the second |
| WriteBack.RejectedComesBack | crates/kani-node/src/lib.rs:877-910 | on every page that holds something valid and something invalid, each refused transaction is REJECTED at one moment of the run and PENDING again at its end |
| Rejections.StaysRejectedStep | crates/kani-ledger/src/lib.rs:2052-2090 | a REJECTED payment stays REJECTED through every step of every process and of the API but a save whose process had loaded it with another status, which always changes it |
| Rejections.StaysRejectedIff | crates/kani-ledger/src/lib.rs:1651-1672 | a payment REJECTED at one moment of a run is REJECTED at every later one if and only if no such save lies in between |
| Rejections.MixedPageIsReached | crates/kani-node/src/lib.rs:868-887 | from every start over the sandbox two enqueued transactions make such a page: a mint, and a burn of what its account does not hold |
| Rejections.RestoredRunExists | crates/kani-node/src/lib.rs:877-910 | so from every such start some run rejects a payment and has it PENDING again later |
| Passes.FilterIsRevalidation | crates/kani-node/src/lib.rs:873-883 | the filtering loop on the store accepts exactly the revalidated selection |
| Passes.PassFilter | crates/kani-node/src/lib.rs:873-887 | the filter rejects in the store exactly the page's unselected transactions and keeps the chain |
| Reasons.FilterSaysWhy | crates/kani-node/src/lib.rs:873-883 | each transaction of a leader's page is judged in the state left by the accepted ones before it: an acceptable one keeps waiting, any other is REJECTED with the text of its first broken requirement, for a shortage the account, the asset, what it holds and what was asked |
| Passes.PassFinalizes | crates/kani-node/src/lib.rs:889-914 | a pass that selects something always ends in a saved block of exactly the selected transactions |
| Passes.PassKeepsStore | crates/kani-node/src/lib.rs:856-915 | every pass keeps the store's invariant and at most appends one block |
| Protocol.PageIsOldest | crates/kani-ledger/src/lib.rs:1618-1650 | the page of pending transactions is as long as the limit or the queue, whichever is less, oldest first, and no waiting transaction outside it is older than one inside |
| Passes.PassTakesOldest | crates/kani-node/src/lib.rs:865-868 | whatever still waits after a leader's filter and is not selected is younger than every transaction of the page, and the page was full: the oldest never starve |
| Drain.PassShortensQueue | crates/kani-node/src/lib.rs:856-915 | the exact number of pending transactions after a pass: a pass without selection removes its whole page, a mixed pass removes the accepted ones, because the rejected ones are written back as PENDING |
| Drain.SweepShortens | crates/kani-node/src/main.rs:78-94 | a sweep over all active validators shortens a non-empty queue by at least one |
| Drain.SweepFinalizes | crates/kani-node/src/main.rs:78-94 | a sweep over a queue whose first page holds a transaction valid on its own finalizes at least one block |
| Drain.QueueDrains | crates/kani-node/src/main.rs:78-94 | with no new submissions or approvals, as many sweeps as there are pending transactions empty the queue, whatever the sweep's order and clock |
| Uninterrupted.PassIsARun | crates/kani-node/src/lib.rs:819-915 | the atomic pass is a run of the stepwise protocol in which no one else moves |
| Uninterrupted.SnapshotExists | crates/kani-ledger/src/lib.rs:327-350 | every ledger keyed by its own ids has a snapshot |
| FairRuns.EveryRunIsFair | crates/kani-api/src/lib.rs:2612-2695 | in every interleaving the finality report over the stored chain shows each active validator's produced blocks to within one of its share, its votes to within one threshold, and no block below threshold |
| Runtime.TakeSnapshot | crates/kani-ledger/src/lib.rs:327-350 | the snapshot lists each entry of each map exactly once |
| Runtime.LedgerStore.LoadLedger | crates/kani-ledger/src/lib.rs:2176-2202 | loading scans the tables into exactly the loaded ledger |
| Runtime.LedgerStore.PendingTransactions | crates/kani-ledger/src/lib.rs:1618-1650 | reads the first `limit` waiting transactions by creation time and id: as many as there are up to the limit, each PENDING, none outside older than one inside |
| Runtime.LedgerStore.SaveSnapshot | crates/kani-ledger/src/lib.rs:1901-2174 | the loops of upserts compute the save |
| Runtime.LedgerStore.RejectTransaction | crates/kani-ledger/src/lib.rs:1651-1672 | row by row: exactly a PENDING row of that id becomes REJECTED with the reason, keeping its identity, and every other row and table is equal; so exactly that id leaves the queue |
| Runtime.ValidatorRuntime.BuildBlock | crates/kani-node/src/lib.rs:1028-1056 | the builder method computes the builder function |
| Runtime.ValidatorRuntime.FilterPending | crates/kani-node/src/lib.rs:873-883 | the loop that rejects in the store while growing `accepted` computes the filter |
| Runtime.ValidatorRuntime.RunOnce | crates/kani-node/src/lib.rs:819-915 | a whole pass over the mutable store computes the pass whose safety, progress and order (`PassTakesOldest`) are proved; its error branches after selection are dead |
| Runtime.RunSweep | crates/kani-node/src/main.rs:78-94 | the sweep loop computes the sweep, and returns exactly the number of blocks by which the chain grew |
| Compliance.ScreenIff | crates/kani-compliance/src/lib.rs:97-146 | for fields that trim to f, t and a: refused, held or allowed if and only if, of f, t in the list of accounts, a an allowed code or one followed by an underscore, the self-transfer flag, the shape and the limit, the rules say so; each refusal names the first rule broken |
| ScreenedChains.TransfersAreBetweenListed | crates/kani-api/src/lib.rs:885-957 | whatever callers ask of the node without a store, every transfer in its chain is between two listed accounts, in an allowed asset, of a positive amount within the limit, and to another account unless the policy allows otherwise |
| Idempotency.PayloadText | crates/kani-node/src/lib.rs:754-772 | the hashed text itself: kind, from, to, asset and amount, one line each |
| Idempotency.PayloadUniqueIff | crates/kani-node/src/lib.rs:754-772 | a request's fingerprint payload is shared by no other request if and only if a line break followed by `to=` occurs in neither account, and one followed by `asset=` in neither the receiving account nor the asset |
| Idempotency.RetryIffSame | crates/kani-node/src/lib.rs:995-1018 | a retry passes exactly when it asks for the transfer the record holds, by fingerprint or field by field, when either of the two can be told apart by its payload |
| Idempotency.OthersRefusedIff | crates/kani-node/src/lib.rs:995-1018 | a fingerprinted record turns away every request for another transfer if and only if that condition holds of its own fields |
| Node.KaniNode.FindByReference | crates/kani-ledger/src/lib.rs:550-558 | finds a record with the reference exactly when there is one, and the only one when references are unique |
| Node.KaniNode.ProduceAndApply | crates/kani-node/src/lib.rs:690-706 | the ledger is replaced by the working copy on success and is the same object, unchanged, on any error |
| Node.KaniNode.SubmitPayment | crates/kani-node/src/lib.rs:240-271 | whichever record the search finds under the reference: that record for a matching retry, a conflict for another, otherwise production; the ledger is the specified one |
| Node.KaniNode.HoldPaymentForReview | crates/kani-node/src/lib.rs:325-371 | the same for a hold, with whichever case the search finds for the record |
| Node.KaniNode.Submit | crates/kani-api/src/lib.rs:885-957 | screening (`ScreenIff`) decides between refusal, hold and submission, with the result and the ledger of each |
| Node.KaniNode.MintSandbox | crates/kani-node/src/lib.rs:374-395 | computes one minting production from the next nonce |
| Node.KaniNode.BurnSandbox | crates/kani-node/src/lib.rs:397-418 | computes one burning production from the next nonce |
| NodeRuns.RunsKeepNodeInv | crates/kani-node/src/lib.rs:203-418 | every run of calls on the sandbox keeps: one record per reference carrying its own fingerprint, one case per over-limit payment with matching standing, every block transaction recorded as final |
| NodeRuns.SubmissionFields | crates/kani-node/src/lib.rs:240-271 | the record a new submission returns, field by field: the request's transfer at the account's next nonce with its reference and fingerprint, final at the next height under the new block's hash |
| NodeRuns.HoldFields | crates/kani-node/src/lib.rs:325-371 | the record and the case a new hold stores, field by field, the reason in both, and that nothing else in the ledger changes |
| NodeRuns.IssuanceFields | crates/kani-node/src/lib.rs:374-418 | the record a mint or burn returns, field by field: source and target as given, the source's next nonce, no reference |
| NodeRuns.RetryOutcome | crates/kani-node/src/lib.rs:325-371 | the exact outcome of a request whose reference is taken: refusal by screening, the stored record with the ledger unchanged for the same transfer (a hold retry always finds its case), a conflict for any other |
| NodeRuns.AcceptedOnce | crates/kani-node/src/lib.rs:240-271 | over whole runs without a store: once a request with a reference and a payload of its own is accepted, then after any further calls a request under that reference succeeds if and only if it is the same request, and then changes nothing and returns the same transaction |
| NodeRuns.FailureLeavesKeyFree | crates/kani-node/src/lib.rs:240-271 | a failed first attempt changes nothing, and whatever is asked next under its reference is treated as new |
| NodeRuns.ResolvedAtMostOnce | crates/kani-ledger/src/lib.rs:2642-2673 | no case is resolved twice in any run of the in-memory node |
| NodeRuns.CasesAndPaymentsAgree | crates/kani-ledger/src/lib.rs:560-650 | an over-limit payment has exactly one case, open while HELD, approved while PENDING, rejected while REJECTED; and in the in-memory node it is never in a block |
| NodeRuns.NodeMoneyBalances | crates/kani-node/src/lib.rs:203-418 | whatever callers do, all views of the node's money agree |
| Reports.BuildSettlementSummary | crates/kani-api/src/lib.rs:2503-2549 | the report's maps hold, for exactly the assets moved, what mints, burns and transfers moved; counts are exact |
| Reports.SettlementAgreesWithLedger | crates/kani-api/src/lib.rs:2503-2549 | over the whole chain of any reachable ledger, in any order of blocks, minted minus burned equals issued supply and the sum of all balances |
| Reports.BuildValidatorFinality | crates/kani-api/src/lib.rs:2612-2695 | the report's rows hold each validator's exact produced and voted counts; blocks split into finalized and below threshold |
| Reports.ProductionIsFair | crates/kani-api/src/lib.rs:2612-2695 | over a whole good chain produced counts of active validators differ by at most one and no block is below the report's threshold |
| Reports.VotingIsFair | crates/kani-api/src/lib.rs:2612-2695 | when blocks carry their windows, vote counts lie within one threshold of each other |
| Amounts.ParsesIffPrint | crates/kani-iso20022/src/lib.rs:375-392 | a text parses to an amount if and only if, trimmed, it is that amount's own decimal print and the amount is from 1 to 2^127 - 1 |
| Amounts.PrintedAmountParses | crates/kani-iso20022/src/lib.rs:375-392 | every positive 128-bit amount survives printing and parsing, white space around it included |
| Amounts.ReferenceRoundTripIff | crates/kani-api/src/lib.rs:1004-1058 | for ids that are not blank the pacs.008 reference id reads back as the trimmed pair if and only if the end-to-end id has no colon |
| Xml.EscapeTextIsMap | crates/kani-iso20022/src/lib.rs:430-435 | the sequential replace passes of text escaping equal one per-character map |
| Xml.EscapeAttributeIsMap | crates/kani-iso20022/src/lib.rs:437-441 | so do those of attribute escaping |
| Xml.UnescapeInverts | crates/kani-iso20022/src/lib.rs:430-441 | a reference unescape inverts both, on every string |
| XmlTree.ReaderInvertsPrinter | crates/kani-iso20022/src/lib.rs:406-428 | a reference reader recovers every well-formed element from its print, whatever follows it |
| XmlBuffer.BranchIsLines | crates/kani-iso20022/src/lib.rs:266-343 | an indented element is its opening line, its children's lines and its closing line |
| XmlBuffer.Buffer.CloseTag | crates/kani-iso20022/src/lib.rs:336-343 | a closing line turns the innermost open element into a child of the one around it |
| XmlBuffer.Buffer.PushElement | crates/kani-iso20022/src/lib.rs:406-415 | appends one escaped leaf to the innermost open element |
| XmlBuffer.Buffer.PushAmountElement | crates/kani-iso20022/src/lib.rs:417-428 | appends one amount with its escaped currency attribute |
| Camt053.BuildCamt053Statement | crates/kani-iso20022/src/lib.rs:266-343 | the text appended line by line, with its loop over entries, is the print of one well-nested tree |
| Camt053Reader.PrintedStatementIsRead | crates/kani-iso20022/src/lib.rs:266-343 | for any number of entries and any field text, the printed document reads back as its ids, number, account and currency, its closing balance with sign, currency and time, and its entries in order, each with amount, indicator, time, transaction and block height |

## Left out

- SQL text, rows, migrations, connection pools: the store is a record of tables, its save an upsert merge, its lock a single holder. A failing statement is the abort step.
- Column lengths, `NUMERIC(38, 0)` and the unique constraint on block hashes: a save they would refuse is an abort.
- Journal entry ids: the key (transaction, direction) stands for the UUID, and the journal is kept in insertion order, not in the order a reload sorts it.
- The API's choice of a stored nonce: any row that meets the table's constraints may be enqueued or held, so more runs are covered than the API makes.
- Whether an approved held payment finalizes: its nonce is fixed when it is held and may be stale later, so no such claim is made.
- HTTP routing, headers, API keys, account authorization, field normalizers and audit events: plumbing around the modelled steps.
- Institutions, credentials and limits: stored, never enforced in the ledger.
- Validator heartbeats and the record of last finalized blocks: status for display.
- SHA-2, SHA-3, JSON serialization and signatures: uninterpreted functions.
- `roxmltree` and the tree walk of the pacs.008 parser: a library not visible here. The reference reader covers elements with at most one attribute, and neither end-of-line normalization nor characters XML 1.0 forbids.
- The pacs.002 document builder: the same buffer and escapes as camt.053 with a fixed list of fields.
- `updated_at` times and transaction signatures: never read by the modelled code.
- The sums of the settlement report are unbounded integers; the source adds them in 128 bits.
- The compliance decision report and the query filters and pages of both other reports: counts over audit events, and list slicing.
- The text of one error (a terminal case) in a rejection reason: its status name is left out.
- `parse_validator_ids`: the sweep takes the list of ids it returns.
- Selection.SelectTransactions: leaves the rejections in the store to `FilterPending`; it states what the loop selects.
- CaseRuns.ResolvedOnceUnlessReopened: says what lies between two resolutions; that both do occur is `StaleRun.ResolvedTwice`, and how long a resolution lasts is `CaseRuns.StaysResolvedIff`.
- The seeding step itself is not a step of the protocol: see Assumptions and `Seeding`.
- A failing statement inside an enqueue or a hold other than a broken constraint: the call ends there, as an abort.

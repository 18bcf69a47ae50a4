/**
  Requests to the node with a store (crates/kani-ledger/src/lib.rs:1146-1221, 1294-1417, 1486-1516, 2608-2640;
  crates/kani-api/src/lib.rs:885-957): a request whose client reference is taken returns the stored payment or is
  refused, in every interleaving with validators, case resolutions and other requests.
 */
module StoredRequests {
  import opened Wrappers
  import opened Types
  import opened Store
  import opened Merging
  import opened Blocks
  import opened Compliance
  import opened Idempotency
  import opened Protocol
  import opened Approvals
  import opened Safety
  import opened CaseRuns
  import opened StoredKeys
  import opened StoredCases
  import opened Uninterrupted

  datatype StorageError =
    | Conflict(reference: string, paymentId: Option<Uuid>)
    | NoCaseFor(payment: Uuid)
    | ConstraintViolated

  /** `payment_by_client_reference_id` */
  function RowWith(rows: seq<Row>, reference: string): (found: Option<Row>)
    ensures found.None? <==> forall r | r in rows :: r.clientReferenceId != Some(reference)
    ensures found.Some? ==> found.value in rows && found.value.clientReferenceId == Some(reference)
  {
    if rows == [] then None
    else
      assert rows == [rows[0]] + rows[1..];
      if rows[0].clientReferenceId == Some(reference) then Some(rows[0]) else RowWith(rows[1..], reference)
  }

  /** The stored row under the reference of an attempt, if the attempt has one. */
  function Found(t: Tables, attempt: Row): Option<Row> {
    if attempt.clientReferenceId.None? then None else RowWith(t.rows, attempt.clientReferenceId.value)
  }

  predicate SameFields(a: Transaction, b: Transaction) {
    a.kind == b.kind && a.from == b.from && a.to == b.to && a.asset == b.asset && a.amount == b.amount
  }

  /** `ensure_idempotent_retry` on the store: by fingerprint when both have one, field by field otherwise. */
  function Retried(found: Row, attempt: Row): Result<Row, StorageError>
    requires attempt.clientReferenceId.Some?
  {
    var matches :=
      if found.requestFingerprint.Some? && attempt.requestFingerprint.Some? then found.requestFingerprint == attempt.requestFingerprint
      else SameFields(found.tx, attempt.tx);
    if matches then Ok(found) else Err(Conflict(attempt.clientReferenceId.value, Some(found.tx.id)))
  }

  /** What a call returns, and whether it inserted that row. */
  datatype Answer = Answer(row: Row, inserted: bool)
  datatype HoldAnswer = HoldAnswer(row: Row, complianceCase: ComplianceCase, inserted: bool)

  function RetryAnswer(found: Row, attempt: Row): Result<Answer, StorageError>
    requires attempt.clientReferenceId.Some?
  {
    var row :- Retried(found, attempt);
    Ok(Answer(row, false))
  }

  /** `enqueue_pending_transaction`, all of it at one moment. */
  function EnqueueNow(t: Tables, attempt: Row): Result<Answer, StorageError> {
    if Found(t, attempt).Some? then RetryAnswer(Found(t, attempt).value, attempt)
    else if Insertable(t, attempt) then Ok(Answer(attempt, true))
    else Err(ConstraintViolated)
  }

  /**
    The same call as it runs, statement by statement: a lookup, then an insert that does nothing when the
    reference is taken by then, then a second lookup. Finding nothing there would return a payment that was
    never stored.
   */
  function EnqueueCall(first: Tables, at: Tables, last: Tables, attempt: Row): Result<Answer, StorageError> {
    if Found(first, attempt).Some? then RetryAnswer(Found(first, attempt).value, attempt)
    else if Found(at, attempt).Some? then
      if Found(last, attempt).Some? then RetryAnswer(Found(last, attempt).value, attempt) else Ok(Answer(attempt, false))
    else if Insertable(at, attempt) then Ok(Answer(attempt, true))
    else Err(ConstraintViolated)
  }

  /** `compliance_case_by_payment_id` */
  ghost function CaseOf(cases: map<Uuid, ComplianceCase>, id: Uuid): Option<ComplianceCase> {
    if k :| k in cases && cases[k].paymentId == id then Some(cases[k]) else None
  }

  /** A retried hold also looks up the payment's case, at a moment of its own. */
  ghost function RetryHold(found: Row, cases: map<Uuid, ComplianceCase>, attempt: Row): Result<HoldAnswer, StorageError>
    requires attempt.clientReferenceId.Some?
  {
    var row :- Retried(found, attempt);
    match CaseOf(cases, row.tx.id)
    case None => Err(NoCaseFor(row.tx.id))
    case Some(k) => Ok(HoldAnswer(row, k, false))
  }

  /** `hold_payment_for_review`, the case of an earlier payment read in `later`. */
  ghost function HoldNow(t: Tables, later: Tables, attempt: Row, newCase: ComplianceCase): Result<HoldAnswer, StorageError> {
    if Found(t, attempt).Some? then RetryHold(Found(t, attempt).value, later.cases, attempt)
    else if Insertable(t, attempt) && newCase.id !in t.cases then Ok(HoldAnswer(attempt, newCase, true))
    else Err(ConstraintViolated)
  }

  ghost function HoldCall(first: Tables, firstCase: Tables, at: Tables, last: Tables, lastCase: Tables, attempt: Row, newCase: ComplianceCase):
      Result<HoldAnswer, StorageError>
  {
    if Found(first, attempt).Some? then RetryHold(Found(first, attempt).value, firstCase.cases, attempt)
    else if Found(at, attempt).Some? then
      if Found(last, attempt).Some? then RetryHold(Found(last, attempt).value, lastCase.cases, attempt)
      else Err(Conflict(attempt.clientReferenceId.value, None))
    else if Insertable(at, attempt) && newCase.id !in at.cases then Ok(HoldAnswer(attempt, newCase, true))
    else Err(ConstraintViolated)
  }

  // ---- The statements of one call take effect at one moment ----

  /** Between two moments of a run no row is lost. */
  lemma {:induction false} RowsKept(c: Config, s: State, actions: seq<Action>, j: nat, k: nat)
    requires ConfigOk(c) && Initial(c, s) && Execute(c, s, actions).Some? && j <= k <= |actions|
    ensures KeepsRows(StateAt(c, s, actions, j).tables, StateAt(c, s, actions, k).tables)
  {
    InitialInv(c, s);
    PrefixRuns(c, s, actions, k);
    var earlier, later := actions[..j], actions[j..k];
    assert earlier + later == actions[..k];
    RunsOnlyGrow(c, s, earlier, later);
  }

  /** A taken reference stays taken. */
  lemma {:induction false} StaysTaken(c: Config, s: State, actions: seq<Action>, j: nat, k: nat, attempt: Row)
    requires ConfigOk(c) && Initial(c, s) && Execute(c, s, actions).Some? && j <= k <= |actions|
    requires Found(StateAt(c, s, actions, j).tables, attempt).Some?
    ensures Found(StateAt(c, s, actions, k).tables, attempt).Some?
  {
    RowsKept(c, s, actions, j, k);
    KeepsReference(StateAt(c, s, actions, j).tables, StateAt(c, s, actions, k).tables, attempt);
  }

  lemma KeepsReference(a: Tables, b: Tables, attempt: Row)
    requires KeepsRows(a, b) && Found(a, attempt).Some?
    ensures Found(b, attempt).Some?
  {
    var r := Found(a, attempt).value;
    var q :| q in b.rows && SameIdentity(r, q);
  }

  /**
    In every run, whatever happens between the three statements of an enqueue, its answer is that of the whole
    call at one of those moments; in particular it never returns a payment that was not stored.
   */
  lemma {:induction false} EnqueueIsAtomic(c: Config, s: State, actions: seq<Action>, i: nat, j: nat, k: nat, attempt: Row)
    requires ConfigOk(c) && Initial(c, s) && Execute(c, s, actions).Some? && i <= j <= k <= |actions|
    ensures var first, at, last := StateAt(c, s, actions, i).tables, StateAt(c, s, actions, j).tables, StateAt(c, s, actions, k).tables;
            EnqueueCall(first, at, last, attempt)
            == EnqueueNow(if Found(first, attempt).Some? then first else if Found(at, attempt).Some? then last else at, attempt)
  {
    if Found(StateAt(c, s, actions, j).tables, attempt).Some? {
      StaysTaken(c, s, actions, j, k, attempt);
    }
  }

  /** And so for a hold, with the case it reads at the next statement; it never ends in a conflict with no payment. */
  lemma {:induction false} HoldIsAtomic(c: Config, s: State, actions: seq<Action>, i: nat, j: nat, k: nat, firstCase: Tables, lastCase: Tables,
                                        attempt: Row, newCase: ComplianceCase)
    requires ConfigOk(c) && Initial(c, s) && Execute(c, s, actions).Some? && i <= j <= k <= |actions|
    ensures var first, at, last := StateAt(c, s, actions, i).tables, StateAt(c, s, actions, j).tables, StateAt(c, s, actions, k).tables;
            HoldCall(first, firstCase, at, last, lastCase, attempt, newCase)
            == if Found(first, attempt).Some? then HoldNow(first, firstCase, attempt, newCase)
               else if Found(at, attempt).Some? then HoldNow(last, lastCase, attempt, newCase)
               else HoldNow(at, at, attempt, newCase)
  {
    if Found(StateAt(c, s, actions, j).tables, attempt).Some? {
      StaysTaken(c, s, actions, j, k, attempt);
    }
  }

  // ---- A screened request ----

  datatype Refusal = Forbidden(ruleId: string) | Storage(error: StorageError)

  /** The row the node offers the store for a request; the nonce is the one it has looked up. */
  function Attempt(c: Config, r: Request, id: Uuid, nonce: int, now: int, status: TransactionStatus, reason: Option<string>): Row {
    var fingerprint := Fingerprint(c.digest, r);
    var metadata :=
      if r.reference.None? then map[]
      else map["client_reference_id" := r.reference.value, "request_fingerprint" := fingerprint];
    Row(Transaction(id, r.from, r.to, r.asset, r.amount, nonce, Transfer, metadata, now), status, None, reason, r.reference, Some(fingerprint))
  }

  /** What is fresh in an attempt: the ids it generates, the nonce it has looked up, the time. */
  datatype Draft = Draft(id: Uuid, caseId: Uuid, nonce: int, now: int)

  function ToQueue(c: Config, r: Request, d: Draft): Row {
    Attempt(c, r, d.id, d.nonce, d.now, Pending, None)
  }

  function ToHold(c: Config, r: Request, d: Draft, reason: string): Row {
    Attempt(c, r, d.id, d.nonce, d.now, Held, Some(reason))
  }

  /** `submit_validated_payment` after authorization: the tables it leaves and the payment it returns. */
  ghost function StoredSubmission(c: Config, t: Tables, r: Request, d: Draft): Result<(Tables, Row), Refusal> {
    var screened := Screen(c.policy, r.from, r.to, r.asset, r.amount);
    match screened.decision
    case Deny => Err(Forbidden(screened.ruleId))
    case Allow =>
      (match EnqueueNow(t, ToQueue(c, r, d))
       case Err(e) => Err(Storage(e))
       case Ok(a) => Ok((if a.inserted then t.(rows := InsertRow(t.rows, a.row)) else t, a.row)))
    case Review =>
      match HoldNow(t, t, ToHold(c, r, d, screened.reason), OpenedCase(d.caseId, d.id, screened.reason))
      case Err(e) => Err(Storage(e))
      case Ok(a) =>
        Ok((if a.inserted then t.(rows := InsertRow(t.rows, a.row), cases := t.cases[a.complianceCase.id := a.complianceCase]) else t, a.row))
  }

  /** What every run keeps for requests to rely on. */
  ghost predicate RequestsOk(c: Config, t: Tables) {
    KeysDiffer(t.rows) && AllFingerprinted(c, t.rows) && CasesMatch(c, t)
  }

  lemma {:induction false} RunsKeepRequests(c: Config, s: State, actions: seq<Action>)
    requires ConfigOk(c) && Initial(c, s) && Execute(c, s, actions).Some?
    ensures RequestsOk(c, Execute(c, s, actions).value.tables)
  {
    RunsKeepKeys(c, s, actions);
    RunsKeepMatch(c, s, actions);
  }

  lemma {:induction false} OnlyRowWith(rows: seq<Row>, reference: string, row: Row)
    requires KeysDiffer(rows) && row in rows && row.clientReferenceId == Some(reference)
    ensures RowWith(rows, reference) == Some(row)
  {
    assert SameKey(row, RowWith(rows, reference).value);
  }

  lemma RetriedIffSame(c: Config, row: Row, r: Request, d: Draft, status: TransactionStatus, reason: Option<string>)
    requires DigestInjective(c.digest) && Fingerprinted(c, row) && r.reference.Some? && row.clientReferenceId == r.reference
    requires ToldApart(row.tx, r)
    ensures Retried(row, Attempt(c, r, d.id, d.nonce, d.now, status, reason))
            == if SameTransfer(row.tx, r) then Ok(row) else Err(Conflict(r.reference.value, Some(row.tx.id)))
  {
    SameFingerprint(c.digest, row.tx, r);
  }

  lemma HeldRowHasCase(c: Config, t: Tables, row: Row)
    requires CasesMatch(c, t) && row in t.rows && NeedsReview(c.policy, row.tx)
    ensures CaseOf(t.cases, row.tx.id).Some?
  {
    assert HasCase(t.cases, row.tx.id);
  }

  lemma SameIsReviewed(policy: Policy, tx: Transaction, r: Request)
    requires SameTransfer(tx, r) && Screen(policy, r.from, r.to, r.asset, r.amount).decision.Review?
    ensures NeedsReview(policy, tx)
  {
  }

  lemma QueueRetry(c: Config, t: Tables, row: Row, r: Request, d: Draft)
    requires DigestInjective(c.digest) && RequestsOk(c, t) && row in t.rows && r.reference.Some? && row.clientReferenceId == r.reference
    requires ToldApart(row.tx, r)
    ensures EnqueueNow(t, ToQueue(c, r, d))
            == if SameTransfer(row.tx, r) then Ok(Answer(row, false)) else Err(Conflict(r.reference.value, Some(row.tx.id)))
  {
    OnlyRowWith(t.rows, r.reference.value, row);
    RetriedIffSame(c, row, r, d, Pending, None);
  }

  /** A retried hold of the same transfer always finds the payment's case, whatever has become of both. */
  lemma HoldRetry(c: Config, t: Tables, row: Row, r: Request, d: Draft, reason: string, newCase: ComplianceCase)
    requires DigestInjective(c.digest) && RequestsOk(c, t) && row in t.rows && r.reference.Some? && row.clientReferenceId == r.reference
    requires ToldApart(row.tx, r) && Screen(c.policy, r.from, r.to, r.asset, r.amount).decision.Review?
    ensures SameTransfer(row.tx, r) ==>
              CaseOf(t.cases, row.tx.id).Some?
              && HoldNow(t, t, ToHold(c, r, d, reason), newCase) == Ok(HoldAnswer(row, CaseOf(t.cases, row.tx.id).value, false))
    ensures !SameTransfer(row.tx, r) ==> HoldNow(t, t, ToHold(c, r, d, reason), newCase) == Err(Conflict(r.reference.value, Some(row.tx.id)))
  {
    OnlyRowWith(t.rows, r.reference.value, row);
    RetriedIffSame(c, row, r, d, Held, Some(reason));
    if SameTransfer(row.tx, r) {
      SameIsReviewed(c.policy, row.tx, r);
      HeldRowHasCase(c, t, row);
    }
  }

  /**
    The exact outcome of a request whose reference is taken: screening may refuse it; otherwise the same
    transfer gets the stored payment, with nothing changed, and any other transfer is a conflict.
   */
  lemma StoredRetryOutcome(c: Config, t: Tables, row: Row, r: Request, d: Draft)
    requires DigestInjective(c.digest) && RequestsOk(c, t) && row in t.rows && r.reference.Some? && row.clientReferenceId == r.reference
    requires ToldApart(row.tx, r)
    ensures var screened := Screen(c.policy, r.from, r.to, r.asset, r.amount);
            StoredSubmission(c, t, r, d)
            == if screened.decision.Deny? then Err(Forbidden(screened.ruleId))
               else if SameTransfer(row.tx, r) then Ok((t, row))
               else Err(Storage(Conflict(r.reference.value, Some(row.tx.id))))
  {
    var screened := Screen(c.policy, r.from, r.to, r.asset, r.amount);
    if screened.decision.Allow? {
      QueueRetry(c, t, row, r, d);
    } else if screened.decision.Review? {
      HoldRetry(c, t, row, r, d, screened.reason, OpenedCase(d.caseId, d.id, screened.reason));
    }
  }

  // ---- Over whole runs ----

  lemma {:induction false} RequestsOkAt(c: Config, s: State, actions: seq<Action>, k: nat)
    requires ConfigOk(c) && Initial(c, s) && Execute(c, s, actions).Some? && k <= |actions|
    ensures RequestsOk(c, StateAt(c, s, actions, k).tables)
  {
    PrefixRuns(c, s, actions, k);
    RunsKeepRequests(c, s, actions[..k]);
  }

  /** The case of an over-limit payment is found at every later moment. */
  lemma {:induction false} CaseIsFoundLater(c: Config, s: State, actions: seq<Action>, i: nat, j: nat, row: Row)
    requires ConfigOk(c) && Initial(c, s) && Execute(c, s, actions).Some? && i <= j <= |actions|
    requires row in StateAt(c, s, actions, i).tables.rows && NeedsReview(c.policy, row.tx)
    ensures CaseOf(StateAt(c, s, actions, j).tables.cases, row.tx.id).Some?
  {
    RowsKept(c, s, actions, i, j);
    RequestsOkAt(c, s, actions, j);
    CaseStillFound(c, StateAt(c, s, actions, i).tables, StateAt(c, s, actions, j).tables, row);
  }

  lemma CaseStillFound(c: Config, a: Tables, b: Tables, row: Row)
    requires KeepsRows(a, b) && CasesMatch(c, b) && row in a.rows && NeedsReview(c.policy, row.tx)
    ensures CaseOf(b.cases, row.tx.id).Some?
  {
    var q :| q in b.rows && SameIdentity(row, q);
    HeldRowHasCase(c, b, q);
  }

  /**
    A hold whose reference is taken at moment `i` and whose case is read at a later moment `j`: the same
    transfer gets the payment with its case, which is always there; any other transfer is a conflict.
   */
  lemma {:induction false} HoldRetryAcross(c: Config, s: State, actions: seq<Action>, i: nat, j: nat, r: Request, d: Draft, reason: string,
                                           newCase: ComplianceCase, row: Row)
    requires ConfigOk(c) && Initial(c, s) && Execute(c, s, actions).Some? && i <= j <= |actions| && DigestInjective(c.digest)
    requires row in StateAt(c, s, actions, i).tables.rows && r.reference.Some? && row.clientReferenceId == r.reference
    requires ToldApart(row.tx, r) && Screen(c.policy, r.from, r.to, r.asset, r.amount).decision.Review?
    ensures var t, later := StateAt(c, s, actions, i).tables, StateAt(c, s, actions, j).tables;
            var result := HoldNow(t, later, ToHold(c, r, d, reason), newCase);
            if SameTransfer(row.tx, r)
            then CaseOf(later.cases, row.tx.id).Some? && result == Ok(HoldAnswer(row, CaseOf(later.cases, row.tx.id).value, false))
            else result == Err(Conflict(r.reference.value, Some(row.tx.id)))
  {
    RequestsOkAt(c, s, actions, i);
    OnlyRowWith(StateAt(c, s, actions, i).tables.rows, r.reference.value, row);
    RetriedIffSame(c, row, r, d, Held, Some(reason));
    if SameTransfer(row.tx, r) {
      SameIsReviewed(c.policy, row.tx, r);
      CaseIsFoundLater(c, s, actions, i, j, row);
    }
  }

  /** The protocol step a submission takes, when it inserts. */
  function StepOf(c: Config, r: Request, d: Draft): Action {
    var screened := Screen(c.policy, r.from, r.to, r.asset, r.amount);
    if screened.decision.Allow? then Enqueue(ToQueue(c, r, d))
    else HoldRow(ToHold(c, r, d, screened.reason), OpenedCase(d.caseId, d.id, screened.reason))
  }

  lemma AttemptIsFingerprinted(c: Config, r: Request, d: Draft, status: TransactionStatus, reason: Option<string>)
    ensures Fingerprinted(c, Attempt(c, r, d.id, d.nonce, d.now, status, reason))
  {
  }

  lemma {:induction false} QueueIsAStep(c: Config, s: State, row: Row)
    requires Insertable(s.tables, row) && Fingerprinted(c, row) && row.status.Pending? && ScreenTx(c.policy, row.tx).Allow?
    ensures ApiStep(c, s, Enqueue(row)) == Some(s.(tables := s.tables.(rows := InsertRow(s.tables.rows, row))))
  {
  }

  lemma {:induction false} HoldIsAStep(c: Config, s: State, row: Row, k: ComplianceCase)
    requires Insertable(s.tables, row) && Fingerprinted(c, row) && row.status.Held? && row.tx.kind.Transfer? && ScreenTx(c.policy, row.tx).Review?
    requires k.id !in s.tables.cases && k.paymentId == row.tx.id && k.status.Opened?
    ensures ApiStep(c, s, HoldRow(row, k))
            == Some(s.(tables := s.tables.(rows := InsertRow(s.tables.rows, row), cases := s.tables.cases[k.id := k])))
  {
  }

  /** The row a new request inserts. */
  function Inserted(c: Config, r: Request, d: Draft): Row {
    var screened := Screen(c.policy, r.from, r.to, r.asset, r.amount);
    if screened.decision.Allow? then ToQueue(c, r, d) else ToHold(c, r, d, screened.reason)
  }

  lemma NewSubmission(c: Config, t: Tables, r: Request, d: Draft)
    requires StoredSubmission(c, t, r, d).Ok?
    requires r.reference.Some? ==> RowWith(t.rows, r.reference.value).None?
    ensures var row, screened := Inserted(c, r, d), Screen(c.policy, r.from, r.to, r.asset, r.amount);
            var k := OpenedCase(d.caseId, d.id, screened.reason);
            && !screened.decision.Deny? && Insertable(t, row) && (screened.decision.Review? ==> k.id !in t.cases)
            && StoredSubmission(c, t, r, d).value
               == (t.(rows := InsertRow(t.rows, row), cases := if screened.decision.Allow? then t.cases else t.cases[k.id := k]), row)
  {
  }

  /** The row a request is stored as, field by field. */
  predicate IsRequestRow(c: Config, r: Request, d: Draft, row: Row) {
    var screened := Screen(c.policy, r.from, r.to, r.asset, r.amount);
    var metadata :=
      if r.reference.None? then map[]
      else map["client_reference_id" := r.reference.value, "request_fingerprint" := Fingerprint(c.digest, r)];
    row == Row(Transaction(d.id, r.from, r.to, r.asset, r.amount, d.nonce, Transfer, metadata, d.now),
               if screened.decision.Allow? then Pending else Held, None,
               if screened.decision.Allow? then None else Some(screened.reason), r.reference, Some(Fingerprint(c.digest, r)))
  }

  /**
    A request whose reference is free is stored exactly when screening does not refuse it, its ids are new, its
    accounts are known and its account has not used the nonce; a held one opens one case.
   */
  lemma NewRequestIff(c: Config, t: Tables, r: Request, d: Draft)
    requires r.reference.Some? ==> RowWith(t.rows, r.reference.value).None?
    ensures var screened := Screen(c.policy, r.from, r.to, r.asset, r.amount);
            && (StoredSubmission(c, t, r, d).Ok?
                <==> && !screened.decision.Deny? && r.from in t.accounts && r.to in t.accounts
                     && (forall q | q in t.rows :: q.tx.id != d.id && !(q.tx.from == r.from && q.tx.nonce == d.nonce))
                     && (screened.decision.Review? ==> d.caseId !in t.cases))
            && (StoredSubmission(c, t, r, d).Ok? ==>
                  var (after, row) := StoredSubmission(c, t, r, d).value;
                  && IsRequestRow(c, r, d, row)
                  && after == t.(rows := InsertRow(t.rows, row),
                                 cases := if screened.decision.Allow? then t.cases
                                          else t.cases[d.caseId := ComplianceCase(d.caseId, d.id, Opened, screened.reason, None, None)]))
  {
    var row := Inserted(c, r, d);
    NewRequestAccepted(c, t, r, d);
    InsertedIsRequestRow(c, r, d);
    if !Screen(c.policy, r.from, r.to, r.asset, r.amount).decision.Deny? {
      RequestIsInsertable(c, t, r, row);
    }
    if StoredSubmission(c, t, r, d).Ok? {
      NewSubmission(c, t, r, d);
    }
  }

  lemma NewRequestAccepted(c: Config, t: Tables, r: Request, d: Draft)
    requires r.reference.Some? ==> RowWith(t.rows, r.reference.value).None?
    ensures var screened := Screen(c.policy, r.from, r.to, r.asset, r.amount);
            StoredSubmission(c, t, r, d).Ok?
            <==> !screened.decision.Deny? && Insertable(t, Inserted(c, r, d)) && (screened.decision.Review? ==> d.caseId !in t.cases)
  {
  }

  lemma InsertedIsRequestRow(c: Config, r: Request, d: Draft)
    ensures IsRequestRow(c, r, d, Inserted(c, r, d))
  {
  }

  lemma RequestIsInsertable(c: Config, t: Tables, r: Request, row: Row)
    requires row.clientReferenceId == r.reference && SameTransfer(row.tx, r) && row.blockHeight == None
    requires r.reference.Some? ==> RowWith(t.rows, r.reference.value).None?
    requires !Screen(c.policy, r.from, r.to, r.asset, r.amount).decision.Deny?
    ensures Insertable(t, row)
            <==> && r.from in t.accounts && r.to in t.accounts
                 && forall q | q in t.rows :: q.tx.id != row.tx.id && !(q.tx.from == r.from && q.tx.nonce == row.tx.nonce)
  {
    assert r.amount > 0;
    assert forall i | 0 <= i < |t.rows| :: t.rows[i] in t.rows;
  }

  /** A new request is one insert of the protocol. */
  lemma SubmissionIsAStep(c: Config, s: State, r: Request, d: Draft)
    requires StoredSubmission(c, s.tables, r, d).Ok?
    requires r.reference.Some? ==> RowWith(s.tables.rows, r.reference.value).None?
    ensures var (after, row) := StoredSubmission(c, s.tables, r, d).value;
            && StepState(c, s, StepOf(c, r, d)) == Some(s.(tables := after))
            && row.clientReferenceId == r.reference && SameTransfer(row.tx, r)
            && after.rows == InsertRow(s.tables.rows, row) && Insertable(s.tables, row) && !row.status.Finalized?
  {
    NewSubmission(c, s.tables, r, d);
    var screened, row := Screen(c.policy, r.from, r.to, r.asset, r.amount), Inserted(c, r, d);
    assert ScreenTx(c.policy, row.tx) == screened.decision;
    if screened.decision.Allow? {
      AttemptIsFingerprinted(c, r, d, Pending, None);
      QueueIsAStep(c, s, row);
    } else {
      AttemptIsFingerprinted(c, r, d, Held, Some(screened.reason));
      HoldIsAStep(c, s, row, OpenedCase(d.caseId, d.id, screened.reason));
    }
  }

  /** An accepted request leaves a reachable store, with a row of that very transfer under its reference. */
  lemma {:induction false} SubmissionRuns(c: Config, s: State, before: seq<Action>, r: Request, d: Draft) returns (run: seq<Action>)
    requires ConfigOk(c) && Initial(c, s) && Execute(c, s, before).Some? && DigestInjective(c.digest)
    requires r.reference.Some? && Unambiguous(r.from, r.to, r.asset)
    requires StoredSubmission(c, Execute(c, s, before).value.tables, r, d).Ok?
    ensures var m := Execute(c, s, before).value;
            var (after, row) := StoredSubmission(c, m.tables, r, d).value;
            && Execute(c, s, run) == Some(m.(tables := after))
            && row in after.rows && row.clientReferenceId == r.reference && SameTransfer(row.tx, r)
  {
    var m := Execute(c, s, before).value;
    RunsKeepRequests(c, s, before);
    if RowWith(m.tables.rows, r.reference.value).Some? {
      StoredRetryOutcome(c, m.tables, RowWith(m.tables.rows, r.reference.value).value, r, d);
      run := before;
    } else {
      SubmissionIsAStep(c, m, r, d);
      InitialInv(c, s);
      RunsKeepInv(c, s, before);
      assert WellFormed(m.tables);
      InsertExtends(m.tables, StoredSubmission(c, m.tables, r, d).value.1, m.tables.cases);
      ExecuteSnoc(c, s, before, StepOf(c, r, d));
      run := before + [StepOf(c, r, d)];
    }
  }

  /**
    Idempotency with a store, over whole runs: once a request with a reference is accepted, then after any
    further steps of validators, officers and other requests - the payment may be held, queued, rejected or
    final by then - a request under that reference is accepted exactly when it is the same request, and then
    it changes nothing and returns the very same transaction.
   */
  lemma {:induction false} StoredOnce(c: Config, s: State, before: seq<Action>, r: Request, d: Draft, later: seq<Action>, again: Request, e: Draft)
    requires ConfigOk(c) && Initial(c, s) && Execute(c, s, before).Some? && DigestInjective(c.digest)
    requires r.reference.Some? && Unambiguous(r.from, r.to, r.asset)
    requires var m := Execute(c, s, before).value;
             && StoredSubmission(c, m.tables, r, d).Ok?
             && Execute(c, m.(tables := StoredSubmission(c, m.tables, r, d).value.0), later).Some?
    requires again.reference == r.reference
    ensures var m := Execute(c, s, before).value;
            var (t1, row) := StoredSubmission(c, m.tables, r, d).value;
            var t2 := Execute(c, m.(tables := t1), later).value.tables;
            var result := StoredSubmission(c, t2, again, e);
            && (result.Ok? <==> again == r)
            && (result.Ok? ==> result.value.0 == t2 && result.value.1.tx == row.tx)
  {
    var m := Execute(c, s, before).value;
    var (t1, row) := StoredSubmission(c, m.tables, r, d).value;
    var run := SubmissionRuns(c, s, before, r, d);
    ExecuteConcat(c, s, run, later);
    var t2 := Execute(c, m.(tables := t1), later).value.tables;
    InitialInv(c, s);
    RunsOnlyGrow(c, s, run, later);
    var q :| q in t2.rows && SameIdentity(row, q);
    RunsKeepRequests(c, s, run + later);
    StoredRetryOutcome(c, t2, q, again, e);
  }
}

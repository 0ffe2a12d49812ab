/** The durable execution tables and the transactions the worker and the reconciler run on them. */
module ExecutionTables {
  import opened Domain

  const LEASE_MS := 120_000
  const LEASE_EXPIRED := "lease_expired"
  const MISSING_FAILURE := "missing_failure_record"

  datatype Status = Pending | Success | Failed

  datatype Fingerprints = Fingerprints(action: Hash, request: Hash)

  /** A row of ZapRunExecution, keyed by its unique (run, stage). */
  datatype Execution = Execution(
    status: Status,
    token: Option<nat>,
    leaseUntil: Option<Time>,
    completedAt: Option<Time>,
    outcome: Option<Outcome>,
    requiresHuman: bool,
    handlerVersion: Option<Hash>,
    actionFp: Option<Hash>,
    requestFp: Option<Hash>)

  datatype AttemptId = AttemptId(key: Key, number: nat)

  datatype AttemptStatus = Started | Ended(outcome: Outcome)

  /** What a failed call left behind, already normalized. */
  datatype Evidence = Evidence(
    provider: Option<Provider>,
    phase: Option<Phase>,
    outcome: Outcome,
    safeCode: string,
    providerStatus: Option<int>,
    retryAfter: Option<int>,
    receipt: Option<string>)

  datatype Attempt = Attempt(
    status: AttemptStatus,
    provider: Option<Provider>,
    phase: Option<Phase>,
    safeCode: Option<string>,
    providerStatus: Option<int>,
    retryAfter: Option<int>,
    receipt: Option<string>,
    completedAt: Option<Time>,
    actionFp: Hash,
    requestFp: Hash)

  datatype EvidenceSource = FromOwner | FromReconciler

  /** A row of ZapRunRetry, keyed by the execution it is linked to (unique when present). */
  datatype Failure = Failure(
    id: nat,
    attempt: nat,
    evidence: Evidence,
    source: EvidenceSource,
    actionFp: Option<Hash>,
    requestFp: Option<Hash>)

  datatype Tables = Tables(
    executions: map<Key, Execution>,
    attempts: map<AttemptId, Attempt>,
    failures: map<Key, Failure>)

  // ----- transactions -----

  predicate Owned(t: Tables, key: Key, token: nat) {
    key in t.executions && t.executions[key].status == Pending && t.executions[key].token == Some(token)
  }

  predicate Expired(t: Tables, key: Key, token: Option<nat>, at: Time) {
    && key in t.executions
    && t.executions[key].status == Pending
    && t.executions[key].token == token
    && (t.executions[key].leaseUntil.None? || t.executions[key].leaseUntil.value <= at)
  }

  predicate Open(t: Tables, id: AttemptId) {
    id in t.attempts && t.attempts[id].status == Started
  }

  /** A receipt is kept only when it is a short non-empty text. */
  function SafeReceipt(receipt: Option<string>): Option<string> {
    if receipt.Some? && 0 < |receipt.value| <= 128 then receipt else None
  }

  function Create(t: Tables, key: Key, token: nat, now: Time, handlerVersion: Option<Hash>, fps: Fingerprints): Tx<Tables> {
    if key in t.executions then ConstraintError
    else Committed(t.(executions := t.executions[key := Execution(
      Pending, Some(token), Some(now + LEASE_MS), None, None, false, handlerVersion, Some(fps.action), Some(fps.request))]))
  }

  function StartAttempt(t: Tables, key: Key, token: nat, number: nat, provider: Provider): Tx<Tables> {
    if !Owned(t, key, token) then Stale
    else
      var e := t.executions[key];
      var id := AttemptId(key, number);
      if id in t.attempts || e.actionFp.None? || e.requestFp.None? then ConstraintError
      else Committed(t.(attempts := t.attempts[id := Attempt(
        Started, Some(provider), None, None, None, None, None, None, e.actionFp.value, e.requestFp.value)]))
  }

  function FinalizeSuccess(t: Tables, key: Key, token: nat, number: nat, receipt: Option<string>, now: Time): Tx<Tables> {
    var id := AttemptId(key, number);
    if !Owned(t, key, token) || !Open(t, id) then Stale
    else
      Committed(t.(
        executions := t.executions[key := Closed(t.executions[key], Accepted, now)],
        attempts := t.attempts[id := t.attempts[id].(
          status := Ended(Accepted), phase := Some(Send), receipt := SafeReceipt(receipt), completedAt := Some(now))]))
  }

  /** The execution row after its outcome is known. */
  function Closed(e: Execution, outcome: Outcome, now: Time): Execution {
    e.(status := if outcome == Accepted then Success else Failed, leaseUntil := None, completedAt := Some(now),
       outcome := Some(outcome), requiresHuman := outcome != Accepted)
  }

  function PersistFailure(t: Tables, key: Key, token: nat, number: nat, evidence: Evidence, createAttempt: bool,
                          now: Time, failureId: nat): Tx<Tables>
  {
    var id := AttemptId(key, number);
    if !Owned(t, key, token) then Stale
    else
      var e := t.executions[key];
      if createAttempt && (id in t.attempts || e.actionFp.None? || e.requestFp.None?) then ConstraintError
      else if !createAttempt && !Open(t, id) then Stale
      else if key in t.failures then ConstraintError
      else
        var base := if createAttempt
                    then Attempt(Started, None, None, None, None, None, None, None, e.actionFp.value, e.requestFp.value)
                    else t.attempts[id];
        Committed(t.(
          executions := t.executions[key := Closed(e, evidence.outcome, now)],
          attempts := t.attempts[id := Settled(base, evidence, now)],
          failures := t.failures[key := Failure(failureId, number, evidence.(receipt := SafeReceipt(evidence.receipt)),
                                                FromOwner, e.actionFp, e.requestFp)]))
  }

  function Settled(a: Attempt, evidence: Evidence, now: Time): Attempt {
    a.(status := Ended(evidence.outcome), provider := evidence.provider, phase := evidence.phase,
       safeCode := Some(evidence.safeCode), providerStatus := evidence.providerStatus,
       retryAfter := evidence.retryAfter, receipt := SafeReceipt(evidence.receipt), completedAt := Some(now))
  }

  function UnknownEvidence(safeCode: string): Evidence {
    Evidence(None, None, Unknown, safeCode, None, None, None)
  }

  /** Every open attempt of an execution ends with an unknown outcome. */
  function AbandonAttempts(attempts: map<AttemptId, Attempt>, key: Key, at: Time): map<AttemptId, Attempt> {
    map id | id in attempts ::
      if id.key == key && attempts[id].status == Started
      then attempts[id].(status := Ended(Unknown), safeCode := Some(LEASE_EXPIRED), completedAt := Some(at))
      else attempts[id]
  }

  predicate SomeOpen(t: Tables, key: Key) {
    exists id :: id in t.attempts && id.key == key && t.attempts[id].status == Started
  }

  /** Quarantine of an execution whose owner let its lease run out. */
  function FenceExpired(t: Tables, key: Key, token: Option<nat>, at: Time, failureId: nat, source: EvidenceSource,
                        fallback: Option<Fingerprints>): Tx<Tables>
  {
    if !Expired(t, key, token, at) then Stale
    else if key in t.failures then ConstraintError
    else
      var e := t.executions[key];
      Committed(Tables(
        t.executions[key := Closed(e, Unknown, at)],
        AbandonAttempts(t.attempts, key, at),
        t.failures[key := Failure(failureId, if SomeOpen(t, key) then 1 else 0, UnknownEvidence(LEASE_EXPIRED), source,
          if e.actionFp.None? && fallback.Some? then Some(fallback.value.action) else e.actionFp,
          if e.requestFp.None? && fallback.Some? then Some(fallback.value.request) else e.requestFp)]))
  }

  /** A failed execution from before failure records existed receives its record. */
  function RepairFailed(t: Tables, key: Key, token: Option<nat>, failureId: nat): Tx<Tables> {
    if key !in t.executions || t.executions[key].status != Failed || t.executions[key].token != token || key in t.failures
    then Stale
    else
      var e := t.executions[key];
      Committed(t.(
        executions := t.executions[key := e.(requiresHuman := true)],
        failures := t.failures[key := Failure(failureId, 0, UnknownEvidence(MISSING_FAILURE), FromReconciler, e.actionFp, e.requestFp)]))
  }

  // ----- the lifecycle -----

  ghost predicate RowOk(t: Tables, legacy: set<Key>, k: Key)
    requires k in t.executions
  {
    var e := t.executions[k];
    match e.status
    case Pending => k !in t.failures && k !in legacy && e.token.Some? && e.outcome == None
    case Success => k !in t.failures && (k in legacy || Finished(t, k))
    case Failed => k in t.failures || k in legacy
  }

  /** The execution's first attempt ended accepted. */
  ghost predicate Finished(t: Tables, k: Key) {
    AttemptId(k, 1) in t.attempts && t.attempts[AttemptId(k, 1)].status == Ended(Accepted)
  }

  ghost predicate AttemptOk(t: Tables, legacy: set<Key>, id: AttemptId)
    requires id in t.attempts
  {
    var a := t.attempts[id];
    && id.key in t.executions && id.key !in legacy && id.number <= 1
    && (a.status == Started ==> t.executions[id.key].status == Pending && id.number == 1)
    && (id.number == 0 ==> a.status == Ended(NotAttempted))
    && (a.status == Ended(Accepted) ==> t.executions[id.key].status == Success)
    && (a.status.Ended? && a.status.outcome != Accepted ==>
      && t.executions[id.key].status == Failed
      && t.executions[id.key].outcome == Some(a.status.outcome)
      && a.completedAt.Some?)
  }

  /** Every execution leaves PENDING into a state its records account for. */
  ghost predicate Lifecycle(t: Tables, legacy: set<Key>) {
    && (forall k :: k in t.executions ==> RowOk(t, legacy, k))
    && (forall id :: id in t.attempts ==> AttemptOk(t, legacy, id))
    && (forall k :: k in t.failures ==> k in t.executions)
    && (forall k :: k in legacy ==> k in t.executions)
  }

  /** A terminal row keeps everything but the flag that asks for a human. */
  ghost predicate SameRow(a: Execution, b: Execution) {
    b == a.(requiresHuman := b.requiresHuman)
  }

  /** What no transaction ever undoes. */
  ghost predicate Progress(t: Tables, u: Tables) {
    && (forall k :: k in t.executions ==>
      && k in u.executions
      && u.executions[k].token == t.executions[k].token
      && (t.executions[k].status != Pending ==> SameRow(t.executions[k], u.executions[k])))
    && (forall k :: k in t.failures ==> k in u.failures && u.failures[k] == t.failures[k])
    && (forall id :: id in t.attempts ==> id in u.attempts && (t.attempts[id].status.Ended? ==> u.attempts[id] == t.attempts[id]))
  }

  /** The two states differ at most in what belongs to one execution. */
  ghost predicate OnlyTouches(t: Tables, u: Tables, key: Key) {
    && (forall k :: k in u.executions && k != key ==> k in t.executions && u.executions[k] == t.executions[k])
    && (forall k :: k in t.executions && k != key ==> k in u.executions)
    && (forall k :: k in u.failures && k != key ==> k in t.failures && u.failures[k] == t.failures[k])
    && (forall k :: k in t.failures && k != key ==> k in u.failures)
    && (forall id :: id in u.attempts && id.key != key ==> id in t.attempts && u.attempts[id] == t.attempts[id])
    && (forall id :: id in t.attempts && id.key != key ==> id in u.attempts)
  }

  /** A transaction on one execution keeps the lifecycle of all if it keeps its own. */
  lemma LifecycleIsLocal(t: Tables, u: Tables, legacy: set<Key>, key: Key)
    requires Lifecycle(t, legacy) && OnlyTouches(t, u, key)
    requires key in u.executions && RowOk(u, legacy, key)
    requires forall id :: id in u.attempts && id.key == key ==> AttemptOk(u, legacy, id)
    ensures Lifecycle(u, legacy)
  {
    forall k | k in u.executions ensures RowOk(u, legacy, k) {
      if k != key { assert RowOk(t, legacy, k); }
    }
    forall id | id in u.attempts ensures AttemptOk(u, legacy, id) {
      if id.key != key { assert AttemptOk(t, legacy, id); }
    }
    forall k | k in u.failures ensures k in u.executions {
      if k != key { assert k in t.executions; }
    }
    forall k | k in legacy ensures k in u.executions {
      assert k in t.executions;
    }
  }

  /** What a transaction must respect in the execution it touches. */
  ghost predicate LocalProgress(t: Tables, u: Tables, key: Key) {
    && (key in t.executions ==>
      && key in u.executions
      && u.executions[key].token == t.executions[key].token
      && (t.executions[key].status != Pending ==> SameRow(t.executions[key], u.executions[key])))
    && (key in t.failures ==> key in u.failures && u.failures[key] == t.failures[key])
    && (forall id :: id in t.attempts && id.key == key ==>
      id in u.attempts && (t.attempts[id].status.Ended? ==> u.attempts[id] == t.attempts[id]))
  }

  lemma ProgressIsLocal(t: Tables, u: Tables, key: Key)
    requires OnlyTouches(t, u, key) && LocalProgress(t, u, key)
    ensures Progress(t, u)
  {
    forall k | k in t.executions ensures k in u.executions
      && u.executions[k].token == t.executions[k].token
      && (t.executions[k].status != Pending ==> SameRow(t.executions[k], u.executions[k]))
    {
      if k != key { assert k in u.executions; }
    }
    forall id | id in t.attempts
      ensures id in u.attempts && (t.attempts[id].status.Ended? ==> u.attempts[id] == t.attempts[id])
    {
      if id.key != key { assert id in u.attempts; }
    }
  }

  /** The transactions, as one alphabet. */
  datatype Transaction =
    | TxCreate(key: Key, newToken: nat, now: Time, handlerVersion: Option<Hash>, fps: Fingerprints)
    | TxStart(key: Key, owner: nat, provider: Provider)
    | TxSucceed(key: Key, owner: nat, receipt: Option<string>, now: Time)
    | TxFail(key: Key, owner: nat, evidence: Evidence, now: Time, failureId: nat)
    | TxRefuse(key: Key, owner: nat, safeCode: string, now: Time, failureId: nat)
    | TxFence(key: Key, seen: Option<nat>, at: Time, failureId: nat, source: EvidenceSource, fallback: Option<Fingerprints>)
    | TxRepair(key: Key, seen: Option<nat>, failureId: nat)

  function Execute(t: Tables, tx: Transaction): Tx<Tables> {
    match tx
    case TxCreate(key, newToken, now, v, fps) => Create(t, key, newToken, now, v, fps)
    case TxStart(key, owner, provider) => StartAttempt(t, key, owner, 1, provider)
    case TxSucceed(key, owner, receipt, now) => FinalizeSuccess(t, key, owner, 1, receipt, now)
    case TxFail(key, owner, evidence, now, id) => PersistFailure(t, key, owner, 1, evidence, false, now, id)
    case TxRefuse(key, owner, code, now, id) =>
      PersistFailure(t, key, owner, 0, Evidence(None, None, NotAttempted, code, None, None, None), true, now, id)
    case TxFence(key, seen, at, id, source, fallback) => FenceExpired(t, key, seen, at, id, source, fallback)
    case TxRepair(key, seen, id) => RepairFailed(t, key, seen, id)
  }

  /** A failure is never reported as accepted, and an owner refuses a stage only before starting its attempt. */
  predicate WellFormed(t: Tables, tx: Transaction) {
    && (tx.TxFail? ==> tx.evidence.outcome != Accepted)
    && (tx.TxRefuse? ==> AttemptId(tx.key, 1) !in t.attempts)
  }

  /** Every transaction that commits keeps the lifecycle and undoes nothing. */
  lemma TransactionKeepsLifecycle(t: Tables, legacy: set<Key>, tx: Transaction)
    requires Lifecycle(t, legacy) && WellFormed(t, tx) && Execute(t, tx).Committed?
    ensures Lifecycle(Execute(t, tx).state, legacy)
    ensures Progress(t, Execute(t, tx).state)
    ensures OnlyTouches(t, Execute(t, tx).state, tx.key)
  {
    var u := Execute(t, tx).state;
    TouchesItsKey(t, tx);
    RowStaysOk(t, legacy, tx);
    forall id | id in u.attempts && id.key == tx.key ensures AttemptOk(u, legacy, id) {
      AttemptStaysOk(t, legacy, tx, id);
    }
    LifecycleIsLocal(t, u, legacy, tx.key);
    ProgressesLocally(t, legacy, tx);
    ProgressIsLocal(t, u, tx.key);
  }

  lemma TouchesItsKey(t: Tables, tx: Transaction)
    requires Execute(t, tx).Committed?
    ensures OnlyTouches(t, Execute(t, tx).state, tx.key)
    ensures tx.key in Execute(t, tx).state.executions
  {
  }

  lemma RowStaysOk(t: Tables, legacy: set<Key>, tx: Transaction)
    requires Lifecycle(t, legacy) && WellFormed(t, tx) && Execute(t, tx).Committed?
    ensures tx.key in Execute(t, tx).state.executions && RowOk(Execute(t, tx).state, legacy, tx.key)
  {
    assert tx.key in t.executions ==> RowOk(t, legacy, tx.key);
    if tx.TxCreate? { assert tx.key !in t.failures && tx.key !in legacy; }
  }

  lemma AttemptStaysOk(t: Tables, legacy: set<Key>, tx: Transaction, id: AttemptId)
    requires Lifecycle(t, legacy) && WellFormed(t, tx) && Execute(t, tx).Committed?
    requires id in Execute(t, tx).state.attempts && id.key == tx.key
    ensures AttemptOk(Execute(t, tx).state, legacy, id)
  {
    assert id in t.attempts ==> AttemptOk(t, legacy, id);
    assert tx.key in t.executions ==> RowOk(t, legacy, tx.key);
  }

  lemma ProgressesLocally(t: Tables, legacy: set<Key>, tx: Transaction)
    requires Lifecycle(t, legacy) && WellFormed(t, tx) && Execute(t, tx).Committed?
    ensures LocalProgress(t, Execute(t, tx).state, tx.key)
  {
    forall id | id in t.attempts && id.key == tx.key
      ensures id in Execute(t, tx).state.attempts
      ensures t.attempts[id].status.Ended? ==> Execute(t, tx).state.attempts[id] == t.attempts[id]
    {
      assert AttemptOk(t, legacy, id);
    }
  }

  // ----- what the records say -----

  /** An attempt carries the identity of the call its execution was claimed for. */
  ghost predicate AttemptNamed(t: Tables, id: AttemptId)
    requires id in t.attempts
  {
    && id.key in t.executions
    && t.executions[id.key].actionFp == Some(t.attempts[id].actionFp)
    && t.executions[id.key].requestFp == Some(t.attempts[id].requestFp)
  }

  /** The attempt repeats the evidence, field by field. */
  ghost predicate Repeats(a: Attempt, e: Evidence) {
    && a.status == Ended(e.outcome) && a.provider == e.provider && a.phase == e.phase && a.safeCode == Some(e.safeCode)
    && a.providerStatus == e.providerStatus && a.retryAfter == e.retryAfter && a.receipt == e.receipt
  }

  /** A failure record names its execution's call and outcome; what an owner recorded is what its attempt says. */
  ghost predicate FailureAgrees(t: Tables, k: Key)
    requires k in t.failures
  {
    var f, id := t.failures[k], AttemptId(k, t.failures[k].attempt);
    && k in t.executions
    && (t.executions[k].actionFp.Some? ==> f.actionFp == t.executions[k].actionFp)
    && (t.executions[k].requestFp.Some? ==> f.requestFp == t.executions[k].requestFp)
    && (f.evidence.safeCode != MISSING_FAILURE ==> t.executions[k].outcome == Some(f.evidence.outcome))
    && (f.source == FromOwner && f.evidence.safeCode != LEASE_EXPIRED ==>
         id in t.attempts && Repeats(t.attempts[id], f.evidence))
  }

  ghost predicate RecordsAgree(t: Tables) {
    && (forall id :: id in t.attempts ==> AttemptNamed(t, id))
    && (forall k :: k in t.failures ==> FailureAgrees(t, k))
  }

  lemma AttemptStaysNamed(t: Tables, legacy: set<Key>, tx: Transaction, id: AttemptId)
    requires Lifecycle(t, legacy) && RecordsAgree(t) && Execute(t, tx).Committed?
    requires id in Execute(t, tx).state.attempts && id.key == tx.key
    ensures AttemptNamed(Execute(t, tx).state, id)
  {
    assert id in t.attempts ==> AttemptNamed(t, id);
  }

  lemma FailureStaysAgreed(t: Tables, legacy: set<Key>, tx: Transaction)
    requires Lifecycle(t, legacy) && WellFormed(t, tx) && RecordsAgree(t) && Execute(t, tx).Committed?
    requires tx.key in Execute(t, tx).state.failures
    ensures FailureAgrees(Execute(t, tx).state, tx.key)
  {
    assert tx.key in t.executions ==> RowOk(t, legacy, tx.key);
    assert tx.key !in t.failures;
  }

  /** Every transaction keeps attempts and failure records in agreement with the execution they belong to. */
  lemma RecordsStayAgreed(t: Tables, legacy: set<Key>, tx: Transaction)
    requires Lifecycle(t, legacy) && WellFormed(t, tx) && RecordsAgree(t) && Execute(t, tx).Committed?
    ensures RecordsAgree(Execute(t, tx).state)
  {
    hide Execute, Lifecycle;
    var u := Execute(t, tx).state;
    TouchesItsKey(t, tx);
    forall id | id in u.attempts ensures AttemptNamed(u, id) {
      if id.key == tx.key { AttemptStaysNamed(t, legacy, tx, id); } else { assert AttemptNamed(t, id); }
    }
    forall k | k in u.failures ensures FailureAgrees(u, k) {
      if k == tx.key { FailureStaysAgreed(t, legacy, tx); } else { assert FailureAgrees(t, k); }
    }
  }

  /** A lease is never moved: no transaction changes a row that it leaves pending. */
  lemma PendingRowIsFixed(t: Tables, tx: Transaction, k: Key)
    requires Execute(t, tx).Committed? && k in t.executions
    ensures k in Execute(t, tx).state.executions
    ensures Execute(t, tx).state.executions[k].token == t.executions[k].token
    ensures Execute(t, tx).state.executions[k].status == Pending ==> Execute(t, tx).state.executions[k] == t.executions[k]
  {
    TouchesItsKey(t, tx);
  }
}

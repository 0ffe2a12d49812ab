/** The execution store as the worker and the reconciler run it: statements against mutable tables, undone when a
    transaction throws. Each method is proved against the transaction function of ExecutionTables. */
module ExecutionStore {
  import opened Domain
  import opened ExecutionTables

  datatype FinalizeDecision = Finalized | FailedAs(failureId: nat) | StaleOwner | Raised

  datatype Reconciliation = Empty | Quarantined | Repaired | StaleRow

  // ----- normalizing what a handler throws -----

  /** A number in thrown evidence: only integers survive. */
  datatype RawNumber = Missing | Integer(n: int) | Fractional

  /** What a handler throws: classified evidence whose fields nobody checked, or anything else. */
  datatype Thrown =
    | ActionError(provider: string, phase: string, outcome: string, safeCode: string, status: RawNumber, retryAfter: RawNumber)
    | OtherError

  predicate SafeCodeChar(c: char) {
    'a' <= c <= 'z' || '0' <= c <= '9' || c == '_'
  }

  predicate WellClassified(e: Thrown) {
    && e.ActionError?
    && e.provider in {"email", "telegram"} && e.phase in {"resolve_destination", "send"}
    && e.outcome in {"rejected", "not_attempted", "unknown"}
    && 1 <= |e.safeCode| <= 64 && (forall c | c in e.safeCode :: SafeCodeChar(c))
  }

  function Bounded(n: RawNumber, low: int, high: int): Option<int> {
    if n.Integer? && low <= n.n <= high then Some(n.n) else None
  }

  /** Whatever a handler throws becomes evidence that no later decision can mistake for a delivery, and that is called
      a rejection only when the handler itself said so in a well-formed way. */
  method NormalizeFailure(e: Thrown) returns (r: Evidence)
    ensures r.outcome != Accepted
    ensures r.outcome == Rejected <==> WellClassified(e) && e.outcome == "rejected"
    ensures r.outcome == NotAttempted <==> WellClassified(e) && e.outcome == "not_attempted"
    ensures !WellClassified(e) ==> r == UnknownEvidence("unclassified_action_error")
    ensures WellClassified(e) ==>
      && r.provider == Some(if e.provider == "email" then Email else Telegram)
      && r.phase == Some(if e.phase == "send" then Send else ResolveDestination)
      && r.safeCode == e.safeCode
    ensures r.providerStatus.Some? ==> 100 <= r.providerStatus.value <= 599 && e.status == Integer(r.providerStatus.value)
    ensures r.retryAfter.Some? ==> 1 <= r.retryAfter.value <= 86_400 && e.retryAfter == Integer(r.retryAfter.value)
    ensures WellClassified(e) && e.status.Integer? && 100 <= e.status.n <= 599 ==> r.providerStatus.Some?
    ensures WellClassified(e) && e.retryAfter.Integer? && 1 <= e.retryAfter.n <= 86_400 ==> r.retryAfter.Some?
    ensures r.receipt == None
    ensures 1 <= |r.safeCode| <= 64 && forall c :: c in r.safeCode ==> 'a' <= c <= 'z' || '0' <= c <= '9' || c == '_'
    ensures e.ActionError? && e.provider in {"email", "telegram"} && e.phase in {"resolve_destination", "send"}
      && e.outcome in {"rejected", "not_attempted", "unknown"} && 1 <= |e.safeCode| <= 64
      && (forall c :: c in e.safeCode ==> 'a' <= c <= 'z' || '0' <= c <= '9' || c == '_')
      <==> WellClassified(e)
  {
    if !WellClassified(e) { return UnknownEvidence("unclassified_action_error"); }
    r := Evidence(
      Some(if e.provider == "email" then Email else Telegram),
      Some(if e.phase == "send" then Send else ResolveDestination),
      if e.outcome == "rejected" then Rejected else if e.outcome == "not_attempted" then NotAttempted else Unknown,
      e.safeCode, None, None, None);
    r := r.(providerStatus := Bounded(e.status, 100, 599));
    r := r.(retryAfter := Bounded(e.retryAfter, 1, 86_400));
  }

  // ----- the tables -----

  /** The state after a transaction that may have been undone. */
  function After(tx: Tx<Tables>, before: Tables): Tables {
    if tx.Committed? then tx.state else before
  }

  /** A failed execution without a failure record. */
  predicate Unrecorded(t: Tables, k: Key) {
    k in t.executions && t.executions[k].status == Failed && k !in t.failures
  }

  predicate OverdueRow(t: Tables, k: Key, at: Time) {
    k in t.executions && Expired(t, k, t.executions[k].token, at)
  }

  /** What the reconciler has to do at an instant. */
  function Neglected(t: Tables, at: Time): set<Key> {
    set k | k in t.executions && (OverdueRow(t, k, at) || Unrecorded(t, k))
  }

  function QuarantineOf(t: Tables, k: Key, at: Time, failureId: nat): Transaction
    requires k in t.executions
  {
    TxFence(k, t.executions[k].token, at, failureId, FromReconciler, None)
  }

  function RepairOf(t: Tables, k: Key, failureId: nat): Transaction
    requires k in t.executions
  {
    TxRepair(k, t.executions[k].token, failureId)
  }

  ghost predicate QuarantinedAt(t: Tables, u: Tables, k: Key, at: Time, failureId: nat) {
    OverdueRow(t, k, at) && Execute(t, QuarantineOf(t, k, at, failureId)) == Committed(u)
  }

  ghost predicate RepairedAt(t: Tables, u: Tables, k: Key, failureId: nat) {
    Unrecorded(t, k) && Execute(t, RepairOf(t, k, failureId)) == Committed(u)
  }

  class ExecutionDb {
    var executions: map<Key, Execution>
    var attempts: map<AttemptId, Attempt>
    var failures: map<Key, Failure>

    constructor ()
      ensures View() == Tables(map[], map[], map[])
    {
      executions, attempts, failures := map[], map[], map[];
    }

    function View(): Tables
      reads this
    {
      Tables(executions, attempts, failures)
    }

    method Rollback(saved: Tables)
      modifies this
      ensures View() == saved
    {
      executions, attempts, failures := saved.executions, saved.attempts, saved.failures;
    }

    // ----- single statements; each reports how many rows it changed -----

    method CloseOwned(key: Key, token: nat, outcome: Outcome, at: Time) returns (count: nat)
      modifies `executions
      ensures count == if Owned(old(View()), key, token) then 1 else 0
      ensures count == 0 ==> executions == old(executions)
      ensures count == 1 ==> executions == old(executions)[key := Closed(old(executions[key]), outcome, at)]
    {
      if !Owned(View(), key, token) { return 0; }
      executions := executions[key := Closed(executions[key], outcome, at)];
      return 1;
    }

    method CloseExpired(key: Key, seen: Option<nat>, at: Time) returns (count: nat)
      modifies `executions
      ensures count == if Expired(old(View()), key, seen, at) then 1 else 0
      ensures count == 0 ==> executions == old(executions)
      ensures count == 1 ==> executions == old(executions)[key := Closed(old(executions[key]), Unknown, at)]
    {
      if !Expired(View(), key, seen, at) { return 0; }
      executions := executions[key := Closed(executions[key], Unknown, at)];
      return 1;
    }

    method AbandonOpen(key: Key, at: Time) returns (some: bool)
      modifies `attempts
      ensures some == SomeOpen(old(View()), key)
      ensures attempts == AbandonAttempts(old(attempts), key, at)
    {
      some := exists id | id in attempts :: id.key == key && attempts[id].status == Started;
      attempts := AbandonAttempts(attempts, key, at);
    }

    method InsertFailure(key: Key, failure: Failure) returns (unique: bool)
      modifies `failures
      ensures unique == (key !in old(failures))
      ensures failures == if unique then old(failures)[key := failure] else old(failures)
    {
      unique := key !in failures;
      if unique { failures := failures[key := failure]; }
    }

    // ----- transactions -----

    /** The first claim of a stage: the unique (run, stage) admits one row ever. */
    method Insert(key: Key, token: nat, now: Time, handlerVersion: Option<Hash>, fps: Fingerprints) returns (claimed: bool)
      modifies `executions
      ensures claimed == Create(old(View()), key, token, now, handlerVersion, fps).Committed?
      ensures View() == After(Create(old(View()), key, token, now, handlerVersion, fps), old(View()))
    {
      if key in executions { return false; }
      executions := executions[key := Execution(
        Pending, Some(token), Some(now + LEASE_MS), None, None, false, handlerVersion, Some(fps.action), Some(fps.request))];
      return true;
    }

    method StartAttempt(key: Key, token: nat, number: nat, provider: Provider) returns (r: FinalizeDecision)
      modifies `attempts
      ensures View() == After(ExecutionTables.StartAttempt(old(View()), key, token, number, provider), old(View()))
      ensures (match ExecutionTables.StartAttempt(old(View()), key, token, number, provider)
               case Committed(_) => r == Finalized
               case Stale => r == StaleOwner
               case ConstraintError => r == Raised)
    {
      if !Owned(View(), key, token) { return StaleOwner; }
      var e, id := executions[key], AttemptId(key, number);
      if id in attempts || e.actionFp.None? || e.requestFp.None? { return Raised; }
      attempts := attempts[id := Attempt(
        Started, Some(provider), None, None, None, None, None, None, e.actionFp.value, e.requestFp.value)];
      return Finalized;
    }

    /** The row is closed first and reopened again when the attempt turns out not to be open. */
    method FinalizeSuccess(key: Key, token: nat, number: nat, receipt: Option<string>, now: Time) returns (r: FinalizeDecision)
      modifies this
      ensures View() == After(ExecutionTables.FinalizeSuccess(old(View()), key, token, number, receipt, now), old(View()))
      ensures r == if ExecutionTables.FinalizeSuccess(old(View()), key, token, number, receipt, now).Committed?
                   then Finalized else StaleOwner
    {
      var saved, id := View(), AttemptId(key, number);
      var fenced := CloseOwned(key, token, Accepted, now);
      if fenced == 0 { return StaleOwner; }
      if !Open(View(), id) {
        Rollback(saved);
        return StaleOwner;
      }
      attempts := attempts[id := attempts[id].(
        status := Ended(Accepted), phase := Some(Send), receipt := SafeReceipt(receipt), completedAt := Some(now))];
      return Finalized;
    }

    /** The attempt's final row: inserted for a stage that was never attempted, updated otherwise. */
    method SettleAttempt(id: AttemptId, evidence: Evidence, create: bool, now: Time) returns (r: FinalizeDecision)
      requires id.key in executions
      modifies `attempts
      ensures (var e := old(executions[id.key]);
               r == if create then (if id in old(attempts) || e.actionFp.None? || e.requestFp.None? then Raised else Finalized)
                    else (if Open(old(View()), id) then Finalized else StaleOwner))
      ensures r != Finalized ==> attempts == old(attempts)
      ensures r == Finalized ==> attempts == old(attempts)[id := Settled(
        if create then Attempt(Started, None, None, None, None, None, None, None,
                               old(executions[id.key].actionFp.value), old(executions[id.key].requestFp.value))
        else old(attempts[id]), evidence, now)]
    {
      var e := executions[id.key];
      if create {
        if id in attempts || e.actionFp.None? || e.requestFp.None? { return Raised; }
        attempts := attempts[id := Settled(
          Attempt(Started, None, None, None, None, None, None, None, e.actionFp.value, e.requestFp.value), evidence, now)];
      } else {
        if !Open(View(), id) { return StaleOwner; }
        attempts := attempts[id := Settled(attempts[id], evidence, now)];
      }
      return Finalized;
    }

    method PersistFailure(key: Key, token: nat, number: nat, evidence: Evidence, create: bool, now: Time, failureId: nat)
      returns (r: FinalizeDecision)
      modifies this
      ensures View() == After(ExecutionTables.PersistFailure(old(View()), key, token, number, evidence, create, now, failureId),
                              old(View()))
      ensures (match ExecutionTables.PersistFailure(old(View()), key, token, number, evidence, create, now, failureId)
               case Committed(_) => r == FailedAs(failureId)
               case Stale => r == StaleOwner
               case ConstraintError => r == Raised)
    {
      var saved, id := View(), AttemptId(key, number);
      var fenced := CloseOwned(key, token, evidence.outcome, now);
      if fenced == 0 { return StaleOwner; }
      r := SettleAttempt(id, evidence, create, now);
      if r != Finalized {
        Rollback(saved);
        return r;
      }
      var e := executions[key];
      var unique := InsertFailure(key, Failure(
        failureId, number, evidence.(receipt := SafeReceipt(evidence.receipt)), FromOwner, e.actionFp, e.requestFp));
      if !unique {
        Rollback(saved);
        return Raised;
      }
      return FailedAs(failureId);
    }

    /** Quarantine of an expired owner, by a rival claim or by the reconciler; losing the race changes nothing. */
    method FenceExpired(key: Key, seen: Option<nat>, at: Time, failureId: nat, source: EvidenceSource,
                        fallback: Option<Fingerprints>) returns (done: bool)
      modifies this
      ensures done == ExecutionTables.FenceExpired(old(View()), key, seen, at, failureId, source, fallback).Committed?
      ensures View() == After(ExecutionTables.FenceExpired(old(View()), key, seen, at, failureId, source, fallback), old(View()))
    {
      var saved := View();
      var fenced := CloseExpired(key, seen, at);
      if fenced == 0 { return false; }
      var some := AbandonOpen(key, at);
      var e := executions[key];
      done := InsertFailure(key, Failure(failureId, if some then 1 else 0, UnknownEvidence(LEASE_EXPIRED), source,
        if e.actionFp.None? && fallback.Some? then Some(fallback.value.action) else e.actionFp,
        if e.requestFp.None? && fallback.Some? then Some(fallback.value.request) else e.requestFp));
      if !done { Rollback(saved); }
    }

    method RepairFailed(key: Key, seen: Option<nat>, failureId: nat) returns (done: bool)
      modifies this
      ensures done == ExecutionTables.RepairFailed(old(View()), key, seen, failureId).Committed?
      ensures View() == After(ExecutionTables.RepairFailed(old(View()), key, seen, failureId), old(View()))
    {
      if key !in executions || executions[key].status != Failed || executions[key].token != seen || key in failures {
        return false;
      }
      var e := executions[key];
      executions := executions[key := e.(requiresHuman := true)];
      done := InsertFailure(key, Failure(failureId, 0, UnknownEvidence(MISSING_FAILURE), FromReconciler, e.actionFp, e.requestFp));
    }

    // ----- the reconciler -----

    /** One pass: an expired owner is quarantined first, else a failure without a record is repaired. Which of several
        candidates is taken (the oldest, in the source) does not matter to what is promised. */
    method ReconcileNext(timestamp: Time, failureId: nat) returns (r: Reconciliation)
      modifies this
      ensures r == Empty <==> Neglected(old(View()), timestamp) == {}
      ensures r == Quarantined ==> exists k :: QuarantinedAt(old(View()), View(), k, timestamp, failureId)
      ensures r == Repaired ==> (forall k :: !OverdueRow(old(View()), k, timestamp)) && exists k :: RepairedAt(old(View()), View(), k, failureId)
      ensures r == Empty || r == StaleRow ==> View() == old(View())
      ensures r == StaleRow ==> exists k :: k in failures && k in executions && executions[k].status == Pending
    {
      if key :| key in executions && Expired(View(), key, executions[key].token, timestamp) {
        assert key in Neglected(View(), timestamp);
        var done := FenceExpired(key, executions[key].token, timestamp, failureId, FromReconciler, None);
        if !done { return StaleRow; }
        assert QuarantinedAt(old(View()), View(), key, timestamp, failureId);
        return Quarantined;
      }
      if key :| key in executions && Unrecorded(View(), key) {
        assert key in Neglected(View(), timestamp);
        var done := RepairFailed(key, executions[key].token, failureId);
        assert RepairedAt(old(View()), View(), key, failureId);
        return Repaired;
      }
      return Empty;
    }
  }

  /** A quarantine or a repair takes exactly its own execution off the list, for good. */
  lemma ReconciliationProgresses(t: Tables, legacy: set<Key>, tx: Transaction, at: Time)
    requires Lifecycle(t, legacy) && Execute(t, tx).Committed?
    requires (tx.TxFence? && tx.at == at && tx.source == FromReconciler) || tx.TxRepair?
    ensures Neglected(Execute(t, tx).state, at) == Neglected(t, at) - {tx.key}
    ensures tx.key in Neglected(t, at)
  {
    var u := Execute(t, tx).state;
    TouchesItsKey(t, tx);
    forall k | k != tx.key
      ensures k in Neglected(u, at) <==> k in Neglected(t, at)
    {
      assert k in u.executions <==> k in t.executions;
    }
  }

  /** One pass of the reconciler makes one execution less neglected and keeps the lifecycle. */
  lemma PassProgresses(t: Tables, u: Tables, legacy: set<Key>, at: Time, failureId: nat)
    requires Lifecycle(t, legacy)
    requires (exists k :: QuarantinedAt(t, u, k, at, failureId)) || (exists k :: RepairedAt(t, u, k, failureId))
    ensures Lifecycle(u, legacy) && Progress(t, u)
    ensures |Neglected(u, at)| + 1 == |Neglected(t, at)|
  {
    hide Lifecycle, Progress, OnlyTouches, Execute, Neglected;
    if k :| QuarantinedAt(t, u, k, at, failureId) {
      TransactionKeepsLifecycle(t, legacy, QuarantineOf(t, k, at, failureId));
      ReconciliationProgresses(t, legacy, QuarantineOf(t, k, at, failureId), at);
    } else {
      var k :| RepairedAt(t, u, k, failureId);
      TransactionKeepsLifecycle(t, legacy, RepairOf(t, k, failureId));
      ReconciliationProgresses(t, legacy, RepairOf(t, k, failureId), at);
    }
  }

  lemma ProgressReflexive(t: Tables)
    ensures Progress(t, t)
  {
  }

  lemma ProgressTransitive(a: Tables, b: Tables, c: Tables)
    requires Progress(a, b) && Progress(b, c)
    ensures Progress(a, c)
  {
  }

  lemma PendingHasNoFailure(t: Tables, legacy: set<Key>, k: Key)
    requires Lifecycle(t, legacy) && k in t.executions && t.executions[k].status == Pending
    ensures k !in t.failures
  {
    assert RowOk(t, legacy, k);
  }

  /** Passes over tables nobody else writes end after exactly as many passes as there were neglected rows: every owner
      left has a live lease, every failed execution has its record, and nothing settled has changed. */
  method ReconcileAll(db: ExecutionDb, timestamp: Time, firstId: nat, ghost legacy: set<Key>) returns (passes: nat)
    requires Lifecycle(db.View(), legacy)
    modifies db
    ensures passes == |Neglected(old(db.View()), timestamp)|
    ensures Lifecycle(db.View(), legacy) && Progress(old(db.View()), db.View())
    ensures Neglected(db.View(), timestamp) == {}
  {
    hide Lifecycle, Progress, Neglected, QuarantinedAt, RepairedAt;
    passes := 0;
    ProgressReflexive(db.View());
    while true
      invariant Lifecycle(db.View(), legacy) && Progress(old(db.View()), db.View())
      invariant passes + |Neglected(db.View(), timestamp)| == |Neglected(old(db.View()), timestamp)|
      decreases |Neglected(db.View(), timestamp)|
    {
      ghost var before := db.View();
      var r := db.ReconcileNext(timestamp, firstId + passes);
      if r == Empty { break; }
      if r == StaleRow {
        ghost var k :| k in db.failures && k in db.executions && db.executions[k].status == Pending;
        PendingHasNoFailure(before, legacy, k);
        assert false;
      }
      PassProgresses(before, db.View(), legacy, timestamp, firstId + passes);
      ProgressTransitive(old(db.View()), before, db.View());
      passes := passes + 1;
    }
  }
}

/** The durable replay tables: one immutable request, one attempt and at most one failure per replay. */
module ReplayTables {
  import opened Domain
  import opened ExecutionTables

  const REPLAY_LEASE_MS := 120_000
  const DISPATCH_LEASE_MS := 120_000

  /** A row of ReplayRequest. The linked failure row is identified by the execution it belongs to. */
  datatype Request = Request(
    key: Key,
    approval: nat,
    actionFp: Hash,
    requestFp: Hash,
    handlerVersion: Hash,
    notBefore: int,
    expiresAt: int)

  datatype ReplayStatus = Reserved | Running | ReplaySuccess | ReplayFailed | ReplayUnknown

  /** A row of ReplayExecution: the replay's own lifecycle and its dispatch bookkeeping. */
  datatype Replay = Replay(
    status: ReplayStatus,
    token: Option<nat>,
    leaseUntil: Option<Time>,
    completedAt: Option<Time>,
    nextStage: Option<nat>,
    dispatchToken: Option<nat>,
    dispatchLease: Option<Time>,
    dispatchAttempts: nat,
    nextDispatch: Option<Time>,
    publishedAt: Option<Time>)

  datatype ReplayFailure = ReplayFailure(evidence: Evidence, actionFp: Hash, requestFp: Hash)

  datatype ReplayTables = ReplayTables(
    requests: map<nat, Request>,
    replays: map<nat, Replay>,
    attempts: map<nat, Attempt>,
    failures: map<nat, ReplayFailure>)

  /** What the provider call reported: accepted, or evidence of a failure. */
  datatype Report = AcceptedBy(provider: Provider, receipt: Option<string>) | FailedWith(evidence: Evidence)

  function OutcomeOf(r: Report): Outcome {
    match r
    case AcceptedBy(_, _) => Accepted
    case FailedWith(e) => e.outcome
  }

  function StatusFor(o: Outcome): ReplayStatus {
    match o
    case Accepted => ReplaySuccess
    case Unknown => ReplayUnknown
    case _ => ReplayFailed
  }

  predicate Terminal(s: ReplayStatus) {
    s == ReplaySuccess || s == ReplayFailed || s == ReplayUnknown
  }

  function OutcomeUnknown(): Evidence {
    Evidence(Some(Telegram), Some(Send), Unknown, "outcome_unknown", None, None, None)
  }

  function Denial(safeCode: string): Evidence {
    Evidence(Some(Telegram), Some(Send), NotAttempted, safeCode, None, None, None)
  }

  // ----- transactions -----

  /** A new request with its reserved execution; the table refuses a window that is empty. */
  function Reserve(t: ReplayTables, id: nat, request: Request): Tx<ReplayTables> {
    if id in t.requests || id in t.replays
      || (exists r :: r in t.requests && SharesAuthority(t.requests[r], request))
      || request.expiresAt <= request.notBefore
    then ConstraintError
    else Committed(t.(
      requests := t.requests[id := request],
      replays := t.replays[id := Replay(Reserved, None, None, None, None, None, None, 0, None, None)]))
  }

  function OpenAttempt(request: Request): Attempt {
    Attempt(Started, Some(Telegram), None, None, None, None, None, None, request.actionFp, request.requestFp)
  }

  /** The replay's result: attempt, failure record and terminal status in one transaction. */
  function Record(t: ReplayTables, id: nat, report: Report, now: Time): Tx<ReplayTables> {
    if id !in t.requests || id !in t.replays || id !in t.attempts || t.attempts[id].status != Started then Stale
    else if report.FailedWith? && id in t.failures then ConstraintError
    else
      var request := t.requests[id];
      Committed(t.(
        attempts := t.attempts[id := Recorded(t.attempts[id], report, now)],
        failures := if report.FailedWith?
                    then t.failures[id := ReplayFailure(report.evidence.(receipt := SafeReceipt(report.evidence.receipt)),
                                                        request.actionFp, request.requestFp)]
                    else t.failures,
        replays := t.replays[id := t.replays[id].(
          status := StatusFor(OutcomeOf(report)), completedAt := Some(now), token := None, leaseUntil := None)]))
  }

  function Recorded(a: Attempt, report: Report, now: Time): Attempt {
    match report
    case AcceptedBy(provider, receipt) =>
      a.(status := Ended(Accepted), provider := Some(provider), phase := Some(Send), safeCode := None,
         providerStatus := None, retryAfter := None, receipt := SafeReceipt(receipt), completedAt := Some(now))
    case FailedWith(e) =>
      a.(status := Ended(e.outcome), provider := e.provider, phase := e.phase, safeCode := Some(e.safeCode),
         providerStatus := e.providerStatus, retryAfter := e.retryAfter, receipt := SafeReceipt(e.receipt),
         completedAt := Some(now))
  }

  /** A reserved replay is refused: it ends not attempted without ever running. */
  function Deny(t: ReplayTables, id: nat, safeCode: string, now: Time): Tx<ReplayTables> {
    if id !in t.requests || id in t.attempts then ConstraintError
    else Record(t.(attempts := t.attempts[id := OpenAttempt(t.requests[id])]), id, FailedWith(Denial(safeCode)), now)
  }

  /** A reserved replay becomes owned by one worker. */
  function Take(t: ReplayTables, id: nat, token: nat, nextStage: Option<nat>, now: Time): Tx<ReplayTables> {
    if id !in t.requests || id !in t.replays || id in t.attempts then ConstraintError
    else Committed(t.(
      attempts := t.attempts[id := OpenAttempt(t.requests[id])],
      replays := t.replays[id := t.replays[id].(
        status := Running, token := Some(token), leaseUntil := Some(now + REPLAY_LEASE_MS), nextStage := nextStage)]))
  }

  predicate HoldsLease(t: ReplayTables, id: nat, token: nat, now: Time) {
    && id in t.replays && t.replays[id].status == Running && t.replays[id].token == Some(token)
    && t.replays[id].leaseUntil.Some? && now < t.replays[id].leaseUntil.value
  }

  /** The owner reports its result; unlike an ordinary finalizer it must still hold its lease. */
  function Complete(t: ReplayTables, id: nat, token: nat, report: Report, now: Time): Tx<ReplayTables> {
    if !HoldsLease(t, id, token, now) then Stale else Record(t, id, report, now)
  }

  // ----- dispatch -----

  predicate DispatchDue(t: ReplayTables, id: nat, at: Time) {
    && id in t.replays && id in t.requests
    && t.replays[id].status == Reserved && t.replays[id].publishedAt.None?
    && t.requests[id].notBefore <= at < t.requests[id].expiresAt
    && (t.replays[id].dispatchLease.None? || t.replays[id].dispatchLease.value <= at)
    && (t.replays[id].nextDispatch.None? || t.replays[id].nextDispatch.value <= at)
  }

  function LeaseDispatch(t: ReplayTables, id: nat, token: nat, at: Time): Tx<ReplayTables> {
    if !DispatchDue(t, id, at) then Stale
    else Committed(t.(replays := t.replays[id := t.replays[id].(
      dispatchToken := Some(token), dispatchLease := Some(at + DISPATCH_LEASE_MS),
      dispatchAttempts := t.replays[id].dispatchAttempts + 1)]))
  }

  /** The wait before the next publication attempt: doubling, at most a minute. */
  function DispatchBackoff(attempts: nat): nat {
    var exponential := 1_000 * PowerOfTwo(if attempts < 6 then attempts else 6);
    if exponential < 60_000 then exponential else 60_000
  }

  /** Waits never shrink as attempts grow, and stay between a second and a minute. */
  lemma DispatchBackoffGrows(m: nat, n: nat)
    requires m <= n
    ensures 1_000 <= DispatchBackoff(m) <= DispatchBackoff(n) <= 60_000
  {
    PowersGrow(if m < 6 then m else 6, if n < 6 then n else 6);
  }

  /** One second after the first failure, twice as long after each further one, at most a minute. */
  lemma DispatchBackoffDoubles(n: nat)
    ensures DispatchBackoff(0) == 1_000
    ensures DispatchBackoff(n + 1) == if 2 * DispatchBackoff(n) < 60_000 then 2 * DispatchBackoff(n) else 60_000
  {
    assert PowerOfTwo(6) == 64;
    if n < 6 { assert PowerOfTwo(n + 1) == 2 * PowerOfTwo(n); }
  }

  function ReleaseDispatch(t: ReplayTables, id: nat, token: nat, attempts: nat, now: Time): Tx<ReplayTables> {
    if id !in t.replays || t.replays[id].dispatchToken != Some(token) then Stale
    else Committed(t.(replays := t.replays[id := t.replays[id].(
      dispatchToken := None, dispatchLease := None, nextDispatch := Some(now + DispatchBackoff(attempts)))]))
  }

  function StampPublished(t: ReplayTables, id: nat, token: nat, now: Time): Tx<ReplayTables> {
    if id !in t.replays || t.replays[id].dispatchToken != Some(token) then Stale
    else Committed(t.(replays := t.replays[id := t.replays[id].(
      publishedAt := Some(now), dispatchToken := None, dispatchLease := None, nextDispatch := None)]))
  }

  // ----- the lifecycle -----

  /** A row's status and its attempt and failure records tell one story. */
  ghost predicate ReplayRowOk(t: ReplayTables, id: nat)
    requires id in t.replays
  {
    var r := t.replays[id];
    && id in t.requests
    && match r.status
       case Reserved => r.token == None && id !in t.attempts && id !in t.failures
       case Running => r.token.Some? && r.leaseUntil.Some? && id in t.attempts && t.attempts[id].status == Started && id !in t.failures
       case ReplaySuccess => r.token == None && id in t.attempts && t.attempts[id].status == Ended(Accepted) && id !in t.failures
       case ReplayFailed => r.token == None && FailedLike(t, id) && t.attempts[id].status.outcome in {Rejected, NotAttempted}
       case ReplayUnknown => r.token == None && FailedLike(t, id) && t.attempts[id].status.outcome == Unknown
  }

  /** One finished attempt that was not accepted, and one failure record that repeats it field by field. */
  ghost predicate FailedLike(t: ReplayTables, id: nat) {
    && id in t.attempts && t.attempts[id].status.Ended? && id in t.failures
    && t.attempts[id].status.outcome != Accepted && Repeats(t.attempts[id], t.failures[id].evidence)
  }

  /** A replay's attempt and failure carry the identity of the call that was requested. */
  ghost predicate CallNamed(t: ReplayTables, id: nat) {
    && (id in t.attempts || id in t.failures ==> id in t.requests)
    && (id in t.attempts ==> t.attempts[id].actionFp == t.requests[id].actionFp)
    && (id in t.attempts ==> t.attempts[id].requestFp == t.requests[id].requestFp)
    && (id in t.failures ==> t.failures[id].actionFp == t.requests[id].actionFp)
    && (id in t.failures ==> t.failures[id].requestFp == t.requests[id].requestFp)
  }

  /** The rows of one replay exist together and agree. */
  ghost predicate Coherent(t: ReplayTables, id: nat) {
    && (id in t.requests <==> id in t.replays)
    && (id in t.replays ==> ReplayRowOk(t, id))
    && (id in t.attempts || id in t.failures ==> id in t.replays)
    && CallNamed(t, id)
  }

  predicate SharesAuthority(a: Request, b: Request) {
    a.key == b.key || a.approval == b.approval
  }

  /** No execution and no approval has two requests. */
  ghost predicate UniqueRequests(t: ReplayTables) {
    forall a, b :: a in t.requests && b in t.requests && SharesAuthority(t.requests[a], t.requests[b]) ==> a == b
  }

  ghost predicate ReplayLifecycle(t: ReplayTables) {
    (forall id: nat :: Coherent(t, id)) && UniqueRequests(t)
  }

  /** The order in which a replay's status may move. */
  predicate MayBecome(a: ReplayStatus, b: ReplayStatus) {
    || a == b
    || (a == Reserved && (b == Running || b == ReplayFailed))
    || (a == Running && Terminal(b))
  }

  ghost predicate SameOutcome(a: Replay, b: Replay) {
    a.status == b.status && a.token == b.token && a.leaseUntil == b.leaseUntil
    && a.completedAt == b.completedAt && a.nextStage == b.nextStage
  }

  /** What no transaction ever undoes in one replay's rows. */
  ghost predicate RowProgress(t: ReplayTables, u: ReplayTables, id: nat) {
    && (id in t.requests ==> id in u.requests && u.requests[id] == t.requests[id])
    && (id in t.replays ==> id in u.replays && StatusProgress(t.replays[id], u.replays[id]))
    && (id in t.attempts && t.attempts[id].status.Ended? ==> id in u.attempts && u.attempts[id] == t.attempts[id])
    && (id in t.failures ==> id in u.failures && u.failures[id] == t.failures[id])
  }

  ghost predicate StatusProgress(a: Replay, b: Replay) {
    && MayBecome(a.status, b.status)
    && (Terminal(a.status) ==> SameOutcome(a, b))
    && (a.status == Running ==> b.nextStage == a.nextStage)
  }

  /** What no replay transaction ever undoes. */
  ghost predicate ReplayProgress(t: ReplayTables, u: ReplayTables) {
    forall id: nat :: RowProgress(t, u, id)
  }

  /** The same over any number of transactions: RESERVED, then RUNNING, then a final status that stays. */
  ghost predicate ReplayForward(t: ReplayTables, u: ReplayTables) {
    && (forall id :: id in t.requests ==> id in u.requests && u.requests[id] == t.requests[id])
    && (forall id :: id in t.replays ==> id in u.replays && MovesForward(t.replays[id], u.replays[id]))
    && (forall id :: id in t.attempts && t.attempts[id].status.Ended? ==> id in u.attempts && u.attempts[id] == t.attempts[id])
    && (forall id :: id in t.failures ==> id in u.failures && u.failures[id] == t.failures[id])
  }

  ghost predicate MovesForward(a: Replay, b: Replay) {
    && (a.status == Running ==> b.status != Reserved && b.nextStage == a.nextStage)
    && (Terminal(a.status) ==> SameOutcome(a, b))
  }

  datatype ReplayTransaction =
    | RtReserve(id: nat, request: Request)
    | RtDeny(id: nat, safeCode: string, now: Time)
    | RtTake(id: nat, token: nat, nextStage: Option<nat>, now: Time)
    | RtExpire(id: nat, now: Time)
    | RtComplete(id: nat, token: nat, report: Report, now: Time)
    | RtLease(id: nat, token: nat, now: Time)
    | RtRelease(id: nat, token: nat, attempts: nat, now: Time)
    | RtStamp(id: nat, token: nat, now: Time)

  /** The guarded transactions: a claim denies or takes a RESERVED row and expires a RUNNING one. */
  function ExecuteReplay(t: ReplayTables, tx: ReplayTransaction): Tx<ReplayTables> {
    match tx
    case RtReserve(id, request) => Reserve(t, id, request)
    case RtDeny(id, code, now) =>
      if id in t.replays && t.replays[id].status == Reserved then Deny(t, id, code, now) else Stale
    case RtTake(id, token, next, now) =>
      if id in t.replays && t.replays[id].status == Reserved then Take(t, id, token, next, now) else Stale
    case RtExpire(id, now) =>
      if id in t.replays && t.replays[id].status == Running
        && (t.replays[id].leaseUntil.None? || t.replays[id].leaseUntil.value <= now)
      then Record(t, id, FailedWith(OutcomeUnknown()), now) else Stale
    case RtComplete(id, token, report, now) => Complete(t, id, token, report, now)
    case RtLease(id, token, now) => LeaseDispatch(t, id, token, now)
    case RtRelease(id, token, attempts, now) => ReleaseDispatch(t, id, token, attempts, now)
    case RtStamp(id, token, now) => StampPublished(t, id, token, now)
  }

  predicate WellFormedReplay(tx: ReplayTransaction) {
    tx.RtComplete? && tx.report.FailedWith? ==> tx.report.evidence.outcome != Accepted
  }

  /** One table changed at most in the row of one replay. */
  ghost predicate OneRow<T>(m: map<nat, T>, n: map<nat, T>, id: nat) {
    n - {id} == m - {id}
  }

  ghost predicate OnlyTouchesReplay(t: ReplayTables, u: ReplayTables, id: nat) {
    && OneRow(t.requests, u.requests, id) && OneRow(t.replays, u.replays, id)
    && OneRow(t.attempts, u.attempts, id) && OneRow(t.failures, u.failures, id)
  }

  lemma OneRowKeepsOthers<T>(m: map<nat, T>, n: map<nat, T>, id: nat, other: nat)
    requires OneRow(m, n, id) && other != id
    ensures other in n <==> other in m
    ensures other in m ==> n[other] == m[other]
  {
    assert other in n - {id} <==> other in m - {id};
    if other in m { assert (n - {id})[other] == (m - {id})[other]; }
  }

  lemma OthersUntouched(t: ReplayTables, u: ReplayTables, id: nat, other: nat)
    requires OnlyTouchesReplay(t, u, id) && other != id
    ensures other in u.requests <==> other in t.requests
    ensures other in t.requests ==> u.requests[other] == t.requests[other]
    ensures other in u.replays <==> other in t.replays
    ensures other in t.replays ==> u.replays[other] == t.replays[other]
    ensures other in u.attempts <==> other in t.attempts
    ensures other in t.attempts ==> u.attempts[other] == t.attempts[other]
    ensures other in u.failures <==> other in t.failures
    ensures other in t.failures ==> u.failures[other] == t.failures[other]
  {
    OneRowKeepsOthers(t.requests, u.requests, id, other);
    OneRowKeepsOthers(t.replays, u.replays, id, other);
    OneRowKeepsOthers(t.attempts, u.attempts, id, other);
    OneRowKeepsOthers(t.failures, u.failures, id, other);
  }

  lemma RecordTouches(t: ReplayTables, id: nat, report: Report, now: Time)
    requires Record(t, id, report, now).Committed?
    ensures OnlyTouchesReplay(t, Record(t, id, report, now).state, id)
  {
  }

  lemma DenyTouches(t: ReplayTables, id: nat, safeCode: string, now: Time)
    requires Deny(t, id, safeCode, now).Committed?
    ensures OnlyTouchesReplay(t, Deny(t, id, safeCode, now).state, id)
  {
    RecordTouches(t.(attempts := t.attempts[id := OpenAttempt(t.requests[id])]), id, FailedWith(Denial(safeCode)), now);
  }

  lemma ReplayTouchesItsRow(t: ReplayTables, tx: ReplayTransaction)
    requires ExecuteReplay(t, tx).Committed?
    ensures OnlyTouchesReplay(t, ExecuteReplay(t, tx).state, tx.id)
  {
    match tx
    case RtDeny(id, code, now) => DenyTouches(t, id, code, now);
    case RtExpire(id, now) => RecordTouches(t, id, FailedWith(OutcomeUnknown()), now);
    case RtComplete(id, token, report, now) => RecordTouches(t, id, report, now);
    case _ =>
  }

  /** A recorded result is consistent with the attempt it closes. */
  lemma RecordKeepsRow(t: ReplayTables, id: nat, report: Report, now: Time)
    requires Record(t, id, report, now).Committed?
    requires id !in t.failures && !Terminal(t.replays[id].status)
    requires report.FailedWith? ==> report.evidence.outcome != Accepted
    requires t.replays[id].status == Running || OutcomeOf(report) == NotAttempted
    ensures ReplayRowOk(Record(t, id, report, now).state, id)
    ensures RowProgress(t, Record(t, id, report, now).state, id)
  {
  }

  lemma CallStaysNamed(t: ReplayTables, tx: ReplayTransaction)
    requires ReplayLifecycle(t) && ExecuteReplay(t, tx).Committed?
    ensures CallNamed(ExecuteReplay(t, tx).state, tx.id)
  {
    assert Coherent(t, tx.id);
  }

  lemma ReplayRowKept(t: ReplayTables, tx: ReplayTransaction)
    requires ReplayLifecycle(t) && WellFormedReplay(tx) && ExecuteReplay(t, tx).Committed?
    ensures var u := ExecuteReplay(t, tx).state; tx.id in u.replays && ReplayRowOk(u, tx.id)
    ensures RowProgress(t, ExecuteReplay(t, tx).state, tx.id)
  {
    assert Coherent(t, tx.id);
    match tx
    case RtDeny(id, code, now) =>
      var begun := t.(attempts := t.attempts[id := OpenAttempt(t.requests[id])]);
      RecordKeepsRow(begun, id, FailedWith(Denial(code)), now);
    case RtExpire(id, now) => RecordKeepsRow(t, id, FailedWith(OutcomeUnknown()), now);
    case RtComplete(id, token, report, now) => RecordKeepsRow(t, id, report, now);
    case _ =>
  }

  lemma RequestsStayUnique(t: ReplayTables, tx: ReplayTransaction)
    requires ReplayLifecycle(t) && ExecuteReplay(t, tx).Committed?
    ensures UniqueRequests(ExecuteReplay(t, tx).state)
  {
    if tx.RtReserve? {
    } else {
      assert ExecuteReplay(t, tx).state.requests == t.requests;
    }
  }

  /** Every replay transaction keeps the replay lifecycle and moves statuses only forward. */
  lemma ReplayTransactionKeepsLifecycle(t: ReplayTables, tx: ReplayTransaction)
    requires ReplayLifecycle(t) && WellFormedReplay(tx) && ExecuteReplay(t, tx).Committed?
    ensures ReplayLifecycle(ExecuteReplay(t, tx).state)
    ensures ReplayProgress(t, ExecuteReplay(t, tx).state)
    ensures OnlyTouchesReplay(t, ExecuteReplay(t, tx).state, tx.id)
  {
    var u := ExecuteReplay(t, tx).state;
    ReplayTouchesItsRow(t, tx);
    ReplayRowKept(t, tx);
    CallStaysNamed(t, tx);
    RequestsStayUnique(t, tx);
    forall id: nat ensures RowProgress(t, u, id) {
      if id != tx.id { OthersUntouched(t, u, tx.id, id); }
    }
    forall id: nat ensures Coherent(u, id) {
      if id != tx.id {
        OthersUntouched(t, u, tx.id, id);
        assert Coherent(t, id);
      }
    }
  }

  /** A replay succeeds only when its current owner completes it inside its lease with an acceptance. */
  lemma SuccessOnlyByOwner(t: ReplayTables, tx: ReplayTransaction, id: nat)
    requires ReplayLifecycle(t) && WellFormedReplay(tx) && ExecuteReplay(t, tx).Committed?
    requires id in ExecuteReplay(t, tx).state.replays && ExecuteReplay(t, tx).state.replays[id].status == ReplaySuccess
    requires id in t.replays && t.replays[id].status != ReplaySuccess
    ensures tx.RtComplete? && tx.id == id && tx.report.AcceptedBy? && HoldsLease(t, id, tx.token, tx.now)
  {
    ReplayTouchesItsRow(t, tx);
    if tx.id != id { OthersUntouched(t, ExecuteReplay(t, tx).state, tx.id, id); }
  }
}

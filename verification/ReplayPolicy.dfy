/** The deterministic replay policy: when a rejected provider call may be sent again. */
module ReplayPolicy {
  import opened Domain

  datatype Disposition =
    | ReplayCandidate | OwnerActionRequired | EngineeringEscalationRequired | ResolvedWithoutReplay
    | OtherDisposition

  datatype ProposalKind = WaitThenReplay | OtherKind

  datatype Taxonomy = F01 | OtherTaxonomy

  datatype Source = RetryRow | ReconciledExecutionRow

  datatype Provenance = Captured | ReconciledExecution | Legacy

  datatype ExecutionState = StatePending | StateSuccess | StateFailed

  /** A JavaScript number, as far as Number.isInteger can tell. */
  datatype Number = Whole(n: int) | NotWhole

  /** A completion time as text: absent, present but not a date, or a date. */
  datatype Stamp = Absent | NotADate | At(ms: int)

  datatype AttemptFact = AttemptFact(
    outcome: Outcome,
    provider: Option<Provider>,
    phase: Option<Phase>,
    status: Option<int>,
    retryAfter: Option<Number>,
    completedAt: Stamp)

  datatype Facts = Facts(
    disposition: Disposition,
    kind: ProposalKind,
    taxonomy: Taxonomy,
    source: Source,
    provenance: Provenance,
    evidenceComplete: bool,
    provider: Option<Provider>,
    phase: Option<Phase>,
    safeCode: Option<string>,
    providerStatus: Option<int>,
    providerOutcome: Option<Outcome>,
    attempts: seq<AttemptFact>,
    historyTruncated: bool,
    executionStatus: Option<ExecutionState>,
    leaseUntil: Option<Time>,
    orderValid: bool,
    predecessorsSuccessful: bool,
    incompatibleSuccessor: bool,
    activeReplay: bool,
    previousReplayCount: int,
    inputValid: bool,
    actionFingerprint: Option<Hash>,
    requestFingerprint: Option<Hash>,
    currentActionFingerprint: Option<Hash>,
    currentRequestFingerprint: Option<Hash>,
    handlerVersion: Option<Hash>,
    currentHandlerVersion: Option<Hash>)

  datatype Reason =
    | NotACandidate(disposition: Disposition)
    | UnsupportedProposal | MissingEvidence | UnknownOutcome | UnsupportedFailure | MissingAttempt
    | UnsafeAttempt | StaleExecution | ActiveLease | InvalidOrder | ActiveReplay | ReplayLimit
    | InvalidInputs | ChangedFingerprint | ChangedHandler | CooldownPending

  datatype Status = Blocked | RequiresApproval | NoAction

  datatype Verdict = Verdict(
    status: Status,
    reasons: seq<Reason>,
    notBefore: Option<int>,
    actionFingerprint: Option<Hash>,
    requestFingerprint: Option<Hash>,
    handlerVersion: Option<Hash>)

  /** Formatting a date past this instant raises a range error instead of returning. */
  const MAX_DATE_MS := 8_640_000_000_000_000

  datatype Evaluation = Decided(verdict: Verdict) | RangeError

  predicate SafeAttempt(a: AttemptFact) {
    && a.outcome == Rejected
    && a.provider == Some(Telegram)
    && a.phase == Some(Send)
    && a.status == Some(429)
    && a.retryAfter.Some? && a.retryAfter.value.Whole?
    && 1 <= a.retryAfter.value.n <= 86_400
    && a.completedAt.At?
  }

  /** The instant one attempt's cooldown ends. */
  function Deadline(a: AttemptFact): int
    requires SafeAttempt(a)
  {
    a.completedAt.ms + a.retryAfter.value.n * 1_000
  }

  predicate SafeHistory(attempts: seq<AttemptFact>) {
    |attempts| > 0 && forall a | a in attempts :: SafeAttempt(a)
  }

  /** The cooldown is over at `now`: no attempt's deadline lies ahead. */
  predicate CooledDown(attempts: seq<AttemptFact>, now: int)
    requires SafeHistory(attempts)
  {
    forall a | a in attempts :: Deadline(a) <= now
  }

  /** The latest deadline. */
  function NotBefore(attempts: seq<AttemptFact>): (t: int)
    requires SafeHistory(attempts)
    ensures exists a :: a in attempts && Deadline(a) == t
    ensures forall a | a in attempts :: Deadline(a) <= t
  {
    var first := Deadline(attempts[0]);
    if |attempts| == 1 then
      assert attempts[0] in attempts;
      first
    else
      var rest := NotBefore(attempts[1..]);
      assert attempts == [attempts[0]] + attempts[1..];
      if first < rest then rest else first
  }

  /** Every condition of eligibility except the cooldown, as the design lists them. */
  predicate Grounded(f: Facts) {
    && f.disposition == ReplayCandidate && f.kind == WaitThenReplay && f.taxonomy == F01
    // Complete first-hand evidence of exactly one failure mode.
    && f.source == RetryRow && f.provenance == Captured && f.evidenceComplete && !f.historyTruncated
    && f.provider == Some(Telegram) && f.phase == Some(Send)
    && f.safeCode == Some(TELEGRAM_RATE_LIMITED) && f.providerStatus == Some(429)
    && f.providerOutcome == Some(Rejected)
    && SafeHistory(f.attempts)
    // The stage is settled, in order and not replayed yet.
    && f.executionStatus == Some(StateFailed) && f.leaseUntil == None
    && f.orderValid && f.predecessorsSuccessful && !f.incompatibleSuccessor
    && !f.activeReplay && f.previousReplayCount == 0
    // Nothing that identifies the call has changed.
    && f.inputValid
    && f.actionFingerprint.Some? && f.requestFingerprint.Some?
    && f.actionFingerprint == f.currentActionFingerprint
    && f.requestFingerprint == f.currentRequestFingerprint
    && f.handlerVersion.Some? && f.handlerVersion == f.currentHandlerVersion
  }

  /** What the evaluation answers, by the shape of the facts. */
  ghost predicate Answers(f: Facts, now: int, e: Evaluation) {
    (e.Decided? ==>
      && e.verdict.actionFingerprint == f.actionFingerprint && e.verdict.requestFingerprint == f.requestFingerprint
      && e.verdict.handlerVersion == f.handlerVersion) &&
    if f.disposition != ReplayCandidate then
      && e.Decided?
      && e.verdict.status == (if f.disposition == OtherDisposition then Blocked else NoAction)
      && e.verdict.reasons == [NotACandidate(f.disposition)]
      && e.verdict.notBefore == None
    else if !Grounded(f) then
      && e.Decided? && e.verdict.status == Blocked && e.verdict.reasons != []
      && e.verdict.notBefore == None
      && (forall r | r in e.verdict.reasons :: Holds(f, r))
      && (forall r | Holds(f, r) :: r in e.verdict.reasons)
    else
      (e.RangeError? <==> NotBefore(f.attempts) > MAX_DATE_MS) &&
      (e.Decided? ==>
        && e.verdict.notBefore == Some(NotBefore(f.attempts))
        && (CooledDown(f.attempts, now) ==> e.verdict.status == RequiresApproval && e.verdict.reasons == [])
        && (!CooledDown(f.attempts, now) ==> e.verdict.status == Blocked && e.verdict.reasons == [CooldownPending]))
  }

  /** When each blocking reason applies to a replay candidate. */
  ghost predicate Holds(f: Facts, r: Reason) {
    match r
    case NotACandidate(_) => false
    case UnsupportedProposal => f.kind != WaitThenReplay || f.taxonomy != F01
    case MissingEvidence => f.source != RetryRow || f.provenance != Captured || !f.evidenceComplete || f.historyTruncated
    case UnknownOutcome => f.providerOutcome == Some(Unknown) || exists a :: a in f.attempts && a.outcome == Unknown
    case UnsupportedFailure =>
      || f.provider != Some(Telegram) || f.phase != Some(Send) || f.safeCode != Some(TELEGRAM_RATE_LIMITED)
      || f.providerStatus != Some(429) || f.providerOutcome != Some(Rejected)
    case MissingAttempt => f.attempts == []
    case UnsafeAttempt => exists a :: a in f.attempts && !SafeAttempt(a)
    case StaleExecution => f.executionStatus != Some(StateFailed)
    case ActiveLease => f.leaseUntil != None
    case InvalidOrder => !f.orderValid || !f.predecessorsSuccessful || f.incompatibleSuccessor
    case ActiveReplay => f.activeReplay
    case ReplayLimit => f.previousReplayCount != 0
    case InvalidInputs => !f.inputValid
    case ChangedFingerprint =>
      || f.actionFingerprint.None? || f.requestFingerprint.None?
      || f.actionFingerprint != f.currentActionFingerprint || f.requestFingerprint != f.currentRequestFingerprint
    case ChangedHandler => f.handlerVersion.None? || f.handlerVersion != f.currentHandlerVersion
    case CooldownPending => false
  }

  const RULES := 14

  /** The order in which the evaluation considers the reasons. */
  function Rule(i: nat): Reason
    requires i < RULES
  {
    match i
    case 0 => UnsupportedProposal
    case 1 => MissingEvidence
    case 2 => UnknownOutcome
    case 3 => UnsupportedFailure
    case 4 => MissingAttempt
    case 5 => UnsafeAttempt
    case 6 => StaleExecution
    case 7 => ActiveLease
    case 8 => InvalidOrder
    case 9 => ActiveReplay
    case 10 => ReplayLimit
    case 11 => InvalidInputs
    case 12 => ChangedFingerprint
    case _ => ChangedHandler
  }

  /** The reasons that hold among the first n, in order. */
  ghost function Reasons(f: Facts, n: nat := RULES): (rs: seq<Reason>)
    requires n <= RULES
  {
    if n == 0 then []
    else if Holds(f, Rule(n - 1)) then Reasons(f, n - 1) + [Rule(n - 1)]
    else Reasons(f, n - 1)
  }

  /** The evaluation as one expression; the protocol model decides replays with it. */
  ghost function Evaluate(f: Facts, now: int): Evaluation {
    var blank := Verdict(Blocked, [], None, f.actionFingerprint, f.requestFingerprint, f.handlerVersion);
    if f.disposition != ReplayCandidate then
      Decided(blank.(status := if f.disposition == OtherDisposition then Blocked else NoAction,
                     reasons := [NotACandidate(f.disposition)]))
    else if Reasons(f) != [] then
      Decided(blank.(reasons := Reasons(f)))
    else if !SafeHistory(f.attempts) || NotBefore(f.attempts) > MAX_DATE_MS then
      RangeError
    else if now < NotBefore(f.attempts) then
      Decided(blank.(reasons := [CooldownPending], notBefore := Some(NotBefore(f.attempts))))
    else
      Decided(blank.(status := RequiresApproval, notBefore := Some(NotBefore(f.attempts))))
  }

  lemma {:induction false} ReasonsUpTo(f: Facts, n: nat)
    requires n <= RULES
    ensures forall r :: r in Reasons(f, n) <==> Holds(f, r) && exists i: nat :: i < n && Rule(i) == r
  {
    if n > 0 { ReasonsUpTo(f, n - 1); }
  }

  lemma EveryReasonHasARule(r: Reason) returns (i: nat)
    requires !r.NotACandidate? && !r.CooldownPending?
    ensures i < RULES && Rule(i) == r
  {
    i := match r
         case UnsupportedProposal => 0
         case MissingEvidence => 1
         case UnknownOutcome => 2
         case UnsupportedFailure => 3
         case MissingAttempt => 4
         case UnsafeAttempt => 5
         case StaleExecution => 6
         case ActiveLease => 7
         case InvalidOrder => 8
         case ActiveReplay => 9
         case ReplayLimit => 10
         case InvalidInputs => 11
         case ChangedFingerprint => 12
         case ChangedHandler => 13;
  }

  lemma ReasonsAreExact(f: Facts, r: Reason)
    ensures r in Reasons(f) <==> Holds(f, r)
  {
    ReasonsUpTo(f, RULES);
    if Holds(f, r) {
      var i := EveryReasonHasARule(r);
    }
  }

  lemma NoReasonsMeansGrounded(f: Facts)
    requires f.disposition == ReplayCandidate
    ensures Reasons(f) == [] <==> Grounded(f)
    ensures Reasons(f) == [] ==> SafeHistory(f.attempts)
  {
    forall r ensures r in Reasons(f) <==> Holds(f, r) { ReasonsAreExact(f, r); }
    if Reasons(f) == [] {
      NothingHoldsMeansGrounded(f);
    } else {
      assert Reasons(f)[0] in Reasons(f);
      assert Holds(f, Reasons(f)[0]);
    }
  }

  lemma NothingHoldsMeansGrounded(f: Facts)
    requires f.disposition == ReplayCandidate
    requires forall r :: !Holds(f, r)
    ensures Grounded(f)
  {
    assert SafeHistory(f.attempts) by { assert !Holds(f, MissingAttempt) && !Holds(f, UnsafeAttempt); }
    assert !Holds(f, UnsupportedProposal) && !Holds(f, MissingEvidence) && !Holds(f, UnsupportedFailure);
    assert !Holds(f, StaleExecution) && !Holds(f, ActiveLease) && !Holds(f, InvalidOrder);
    assert !Holds(f, ActiveReplay) && !Holds(f, ReplayLimit) && !Holds(f, InvalidInputs);
    assert !Holds(f, ChangedFingerprint) && !Holds(f, ChangedHandler);
  }

  /** Approval is required exactly when every condition holds and every cooldown is over. */
  lemma RequiresApprovalExactly(f: Facts, now: int)
    ensures Answers(f, now, Evaluate(f, now))
    ensures Evaluate(f, now).Decided? && Evaluate(f, now).verdict.status == RequiresApproval
        <==> Grounded(f) && CooledDown(f.attempts, now) && NotBefore(f.attempts) <= MAX_DATE_MS
  {
    if f.disposition == ReplayCandidate {
      NoReasonsMeansGrounded(f);
      forall r ensures r in Reasons(f) <==> Holds(f, r) { ReasonsAreExact(f, r); }
    }
  }

  /** For fixed facts the answer is monotone in time: an eligible case stays eligible. */
  lemma EligibilityIsMonotone(f: Facts, now: int, later: int)
    requires now <= later
    requires Evaluate(f, now).Decided? && Evaluate(f, now).verdict.status == RequiresApproval
    ensures Evaluate(f, later) == Evaluate(f, now)
  {
    RequiresApprovalExactly(f, now);
  }

  method PushIf(ghost facts: Facts, ghost i: nat, reasons: seq<Reason>, condition: bool, reason: Reason)
    returns (pushed: seq<Reason>)
    requires i < RULES && reason == Rule(i) && reasons == Reasons(facts, i)
    requires condition <==> Holds(facts, reason)
    ensures pushed == Reasons(facts, i + 1)
  {
    pushed := reasons;
    if condition { pushed := pushed + [reason]; }
  }

  method CollectReasons(facts: Facts) returns (reasons: seq<Reason>)
    ensures reasons == Reasons(facts)
  {
    reasons := [];
    reasons := PushIf(facts, 0, reasons, facts.kind != WaitThenReplay || facts.taxonomy != F01, UnsupportedProposal);
    reasons := PushIf(facts, 1, reasons, facts.source != RetryRow || facts.provenance != Captured || !facts.evidenceComplete
      || facts.historyTruncated, MissingEvidence);
    reasons := PushIf(facts, 2, reasons, facts.providerOutcome == Some(Unknown)
      || (exists a | a in facts.attempts :: a.outcome == Unknown), UnknownOutcome);
    reasons := CollectFailureReasons(facts, reasons);
  }

  method CollectFailureReasons(facts: Facts, found: seq<Reason>) returns (reasons: seq<Reason>)
    requires found == Reasons(facts, 3)
    ensures reasons == Reasons(facts)
  {
    reasons := found;
    reasons := PushIf(facts, 3, reasons, facts.provider != Some(Telegram) || facts.phase != Some(Send)
      || facts.safeCode != Some(TELEGRAM_RATE_LIMITED) || facts.providerStatus != Some(429)
      || facts.providerOutcome != Some(Rejected), UnsupportedFailure);
    reasons := PushIf(facts, 4, reasons, facts.attempts == [], MissingAttempt);
    reasons := PushIf(facts, 5, reasons, exists a | a in facts.attempts :: !SafeAttempt(a), UnsafeAttempt);
    reasons := CollectStageReasons(facts, reasons);
  }

  method CollectStageReasons(facts: Facts, found: seq<Reason>) returns (reasons: seq<Reason>)
    requires found == Reasons(facts, 6)
    ensures reasons == Reasons(facts)
  {
    reasons := found;
    reasons := PushIf(facts, 6, reasons, facts.executionStatus != Some(StateFailed), StaleExecution);
    reasons := PushIf(facts, 7, reasons, facts.leaseUntil != None, ActiveLease);
    reasons := PushIf(facts, 8, reasons, !facts.orderValid || !facts.predecessorsSuccessful
      || facts.incompatibleSuccessor, InvalidOrder);
    reasons := PushIf(facts, 9, reasons, facts.activeReplay, ActiveReplay);
    reasons := PushIf(facts, 10, reasons, facts.previousReplayCount != 0, ReplayLimit);
    reasons := CollectIdentityReasons(facts, reasons);
  }

  method CollectIdentityReasons(facts: Facts, found: seq<Reason>) returns (reasons: seq<Reason>)
    requires found == Reasons(facts, 11)
    ensures reasons == Reasons(facts)
  {
    reasons := found;
    reasons := PushIf(facts, 11, reasons, !facts.inputValid, InvalidInputs);
    reasons := PushIf(facts, 12, reasons, facts.actionFingerprint.None? || facts.requestFingerprint.None?
      || facts.actionFingerprint != facts.currentActionFingerprint
      || facts.requestFingerprint != facts.currentRequestFingerprint, ChangedFingerprint);
    reasons := PushIf(facts, 13, reasons, facts.handlerVersion.None?
      || facts.handlerVersion != facts.currentHandlerVersion, ChangedHandler);
  }

  /** The evaluation as it is carried out, filling the verdict in place. */
  method EvaluateReplayPolicy(facts: Facts, now: int) returns (e: Evaluation)
    ensures e == Evaluate(facts, now)
    ensures Answers(facts, now, e)
  {
    RequiresApprovalExactly(facts, now);
    var result := Verdict(Blocked, [], None, facts.actionFingerprint, facts.requestFingerprint, facts.handlerVersion);
    if facts.disposition != ReplayCandidate {
      result := result.(
        status := if facts.disposition in {OwnerActionRequired, EngineeringEscalationRequired, ResolvedWithoutReplay}
                  then NoAction else Blocked,
        reasons := [NotACandidate(facts.disposition)]);
      return Decided(result);
    }

    var reasons := CollectReasons(facts);
    result := result.(reasons := reasons);
    if |reasons| > 0 { return Decided(result); }

    NoReasonsMeansGrounded(facts);
    var notBefore := NotBefore(facts.attempts);
    if notBefore > MAX_DATE_MS { return RangeError; }
    result := result.(notBefore := Some(notBefore));
    if now < notBefore {
      result := result.(reasons := [CooldownPending]);
    } else {
      result := result.(status := RequiresApproval);
    }
    return Decided(result);
  }
}

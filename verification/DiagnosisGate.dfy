/** The diagnosis side of replay: which evidence supports a replay candidate, when its cooldown ends, and how evidence
    becomes the facts the policy decides on. */
module DiagnosisGate {
  import opened Domain
  import opened Policy = ReplayPolicy

  /** A recorded attempt as evidence shows it. */
  datatype AttemptEvidence = AttemptEvidence(
    captured: bool, provider: Option<Provider>, phase: Option<Phase>, outcome: Outcome, status: Option<int>,
    retryAfter: Option<int>, completedAt: Option<int>)

  datatype Current = Current(status: ExecutionState, leaseUntil: Option<Time>, outcome: Option<Outcome>,
                             actionFp: Option<Hash>, requestFp: Option<Hash>)

  datatype Ordering = Valid | Invalid | Unclear

  /** The three parts of evidence about one failure: its record, its executions, and the validation of its inputs. */
  datatype Evidence = Evidence(
    simulated: bool,
    failureComplete: bool, executionComplete: bool, validationComplete: bool,
    sources: seq<Key>, hashes: (Hash, Hash, Hash),
    source: Source, telegramAction: bool,
    provider: Option<Provider>, phase: Option<Phase>, outcome: Option<Outcome>, status: Option<int>,
    retryAfter: Option<int>, safeCode: Option<string>,
    provenance: Provenance, current: Option<Current>, attempts: seq<AttemptEvidence>, historyTruncated: bool,
    ordering: Ordering, predecessors: seq<ExecutionState>,
    telegramInputs: bool, inputsValid: bool, inputsSupported: bool)

  /** What evidence can hold: a retry time is a whole number of seconds up to a day. */
  predicate WellFormed(e: Evidence) {
    forall a | a in e.attempts :: a.retryAfter.Some? ==> 1 <= a.retryAfter.value <= 86_400
  }

  predicate SupportedAttempt(a: AttemptEvidence) {
    && a.captured && a.provider == Some(Telegram) && a.phase == Some(Send) && a.outcome == Rejected
    && a.status == Some(429) && a.retryAfter.Some? && a.completedAt.Some?
  }

  /** Complete, captured, first-hand evidence of nothing but Telegram rate limiting, on a settled stage in order. */
  predicate SupportsReplayCandidate(e: Evidence) {
    && !e.simulated
    && e.failureComplete && e.executionComplete && e.validationComplete
    && e.source == RetryRow && e.telegramAction
    && e.provider == Some(Telegram) && e.phase == Some(Send) && e.outcome == Some(Rejected) && e.status == Some(429)
    && e.retryAfter.Some?
    && e.provenance == Captured
    && e.current.Some? && e.current.value.status == StateFailed && e.current.value.leaseUntil == None
    && e.current.value.outcome == Some(Rejected) && e.current.value.actionFp.Some? && e.current.value.requestFp.Some?
    && |e.attempts| > 0 && (forall a | a in e.attempts :: SupportedAttempt(a))
    && !e.historyTruncated && e.ordering == Valid
    && (forall p | p in e.predecessors :: p == StateSuccess)
    && e.telegramInputs && e.inputsValid && e.inputsSupported
  }

  // ----- the deadline the diagnosis reports -----

  datatype Deadline = NoDeadline | NotBefore(ms: int) | NoSuchDate

  /** A number of milliseconds, or the not-a-number a missing completion time turns into. */
  function Ends(a: AttemptEvidence): Option<int> {
    if a.completedAt.None? then None
    else Some(a.completedAt.value + (if a.retryAfter.Some? then a.retryAfter.value else 0) * 1_000)
  }

  /** The largest of some numbers; any that is not a number makes the result not a number. */
  function Largest(attempts: seq<AttemptEvidence>): Option<int>
    requires attempts != []
  {
    if |attempts| == 1 then Ends(attempts[0])
    else
      var first, rest := Ends(attempts[0]), Largest(attempts[1..]);
      if first.None? || rest.None? then None else if first.value < rest.value then rest else first
  }

  function ReplayNotBefore(e: Evidence, disposition: Disposition): Deadline {
    if disposition != ReplayCandidate then NoDeadline
    else if e.attempts == [] || Largest(e.attempts).None? || Largest(e.attempts).value > MAX_DATE_MS then NoSuchDate
    else NotBefore(Largest(e.attempts).value)
  }

  // ----- the facts the policy decides on -----

  datatype Configuration = Configuration(
    actionFp: Option<Hash>, requestFp: Option<Hash>, handlerVersion: Option<Hash>, currentHandlerVersion: Option<Hash>,
    incompatibleSuccessor: bool, activeReplay: bool, previousReplayCount: int, consistent: bool)

  function FactOf(a: AttemptEvidence): AttemptFact {
    AttemptFact(a.outcome, a.provider, a.phase, a.status,
                if a.retryAfter.Some? then Some(Whole(a.retryAfter.value)) else None,
                if a.completedAt.Some? then At(a.completedAt.value) else Absent)
  }

  function FactsOf(attempts: seq<AttemptEvidence>): (r: seq<AttemptFact>)
    ensures |r| == |attempts| && forall i :: 0 <= i < |r| ==> r[i] == FactOf(attempts[i])
  {
    if attempts == [] then [] else [FactOf(attempts[0])] + FactsOf(attempts[1..])
  }

  predicate OneSource(saved: Evidence, current: Evidence) {
    saved.sources != [] && forall s | s in saved.sources + current.sources :: s == saved.sources[0]
  }

  predicate Complete(e: Evidence) {
    e.failureComplete && e.executionComplete && e.validationComplete
  }

  /** Saved evidence says what was seen, current evidence and configuration what holds now. */
  function BuildFacts(disposition: Disposition, kind: ProposalKind, taxonomy: Taxonomy, saved: Evidence, current: Evidence,
                      config: Configuration): Facts
  {
    Facts(
      disposition, kind, taxonomy, saved.source, saved.provenance,
      OneSource(saved, current) && config.consistent && Complete(saved) && Complete(current) && saved.hashes == current.hashes,
      saved.provider, saved.phase, saved.safeCode, saved.status,
      if current.current.Some? && current.current.value.outcome == Some(Unknown) then Some(Unknown) else saved.outcome,
      FactsOf(saved.attempts),
      saved.historyTruncated || current.historyTruncated,
      if current.current.Some? then Some(current.current.value.status) else None,
      if current.current.Some? then current.current.value.leaseUntil else None,
      saved.ordering == Valid && current.ordering == Valid,
      forall p | p in current.predecessors :: p == StateSuccess,
      config.incompatibleSuccessor, config.activeReplay, config.previousReplayCount,
      current.inputsValid && current.inputsSupported,
      if saved.current.Some? then saved.current.value.actionFp else None,
      if saved.current.Some? then saved.current.value.requestFp else None,
      config.actionFp, config.requestFp, config.handlerVersion, config.currentHandlerVersion)
  }

  /** Evidence grounds a replay for exactly these reasons: what was saved identifies a captured Telegram rate limit and the
      call it stopped, what is current repeats it, complete and in order, about a stage that failed, is settled and is not
      known to have an unknown outcome, and the configuration still is that of the call and knows of no replay. */
  lemma EvidenceGroundsExactly(disposition: Disposition, kind: ProposalKind, taxonomy: Taxonomy, saved: Evidence, current: Evidence,
                               config: Configuration)
    ensures Grounded(BuildFacts(disposition, kind, taxonomy, saved, current, config)) <==>
      && disposition == ReplayCandidate && kind == WaitThenReplay && taxonomy == F01
      && saved.source == RetryRow && saved.provenance == Captured
      && saved.provider == Some(Telegram) && saved.phase == Some(Send) && saved.safeCode == Some("telegram_http_429")
      && saved.status == Some(429) && saved.outcome == Some(Rejected) && saved.ordering == Valid && !saved.historyTruncated
      && saved.attempts != [] && (forall a :: a in saved.attempts ==> RateLimited(a))
      && saved.failureComplete && saved.executionComplete && saved.validationComplete
      && current.failureComplete && current.executionComplete && current.validationComplete && saved.hashes == current.hashes
      && saved.sources != [] && (forall s :: s in saved.sources || s in current.sources ==> s == saved.sources[0])
      && current.current.Some? && current.current.value.status == StateFailed && current.current.value.leaseUntil == None
      && current.current.value.outcome != Some(Unknown) && current.ordering == Valid && !current.historyTruncated
      && (forall p :: p in current.predecessors ==> p == StateSuccess) && current.inputsValid && current.inputsSupported
      && saved.current.Some? && config.actionFp.Some? && saved.current.value.actionFp == config.actionFp
      && config.requestFp.Some? && saved.current.value.requestFp == config.requestFp
      && config.handlerVersion.Some? && config.handlerVersion == config.currentHandlerVersion
      && config.consistent && !config.incompatibleSuccessor && !config.activeReplay && config.previousReplayCount == 0
  {
    hide SafeHistory, RateLimited, OneSource;
    HistoryIsSafeExactly(saved.attempts);
    OneSourceExactly(saved, current);
  }

  lemma OneSourceExactly(saved: Evidence, current: Evidence)
    ensures OneSource(saved, current) <==>
      saved.sources != [] && forall s :: s in saved.sources || s in current.sources ==> s == saved.sources[0]
  {
    assert forall s :: s in saved.sources + current.sources <==> s in saved.sources || s in current.sources;
  }

  /** A captured rejection of the send with a retry time of one second to one day, and when it ended. */
  predicate RateLimited(a: AttemptEvidence) {
    && a.outcome == Rejected && a.provider == Some(Telegram) && a.phase == Some(Send) && a.status == Some(429)
    && a.retryAfter.Some? && 1 <= a.retryAfter.value <= 86_400 && a.completedAt.Some?
  }

  lemma HistoryIsSafeExactly(attempts: seq<AttemptEvidence>)
    ensures SafeHistory(FactsOf(attempts)) <==> attempts != [] && forall a :: a in attempts ==> RateLimited(a)
  {
    var facts := FactsOf(attempts);
    forall a | a in attempts ensures RateLimited(a) <==> SafeAttempt(FactOf(a)) { }
    if SafeHistory(facts) {
      forall a | a in attempts ensures RateLimited(a) {
        var i :| 0 <= i < |attempts| && attempts[i] == a;
        assert facts[i] in facts;
      }
    }
    if attempts != [] && forall a :: a in attempts ==> RateLimited(a) {
      forall f | f in facts ensures SafeAttempt(f) {
        var i :| 0 <= i < |facts| && facts[i] == f;
        assert attempts[i] in attempts;
      }
    }
  }

  // ----- the two sides agree -----

  lemma EndsAtDeadline(a: AttemptEvidence)
    requires SafeAttempt(FactOf(a))
    ensures Ends(a) == Some(Policy.Deadline(FactOf(a)))
  {
  }

  lemma LatestOfMore(facts: seq<AttemptFact>)
    requires SafeHistory(facts)
    ensures |facts| == 1 ==> Policy.NotBefore(facts) == Policy.Deadline(facts[0])
    ensures |facts| > 1 ==>
      && SafeHistory(facts[1..])
      && var first, rest := Policy.Deadline(facts[0]), Policy.NotBefore(facts[1..]);
      Policy.NotBefore(facts) == if first < rest then rest else first
  {
    hide SafeAttempt;
    assert forall a :: a in facts[1..] ==> a in facts;
  }

  lemma {:induction false} LargestIsLatest(attempts: seq<AttemptEvidence>)
    requires attempts != [] && SafeHistory(FactsOf(attempts))
    ensures Largest(attempts) == Some(Policy.NotBefore(FactsOf(attempts)))
    decreases |attempts|
  {
    hide SafeAttempt, Policy.Deadline, Policy.NotBefore, FactOf, Ends;
    var facts := FactsOf(attempts);
    assert facts[0] in facts && facts[0] == FactOf(attempts[0]);
    EndsAtDeadline(attempts[0]);
    LatestOfMore(facts);
    if |attempts| > 1 {
      assert facts[1..] == FactsOf(attempts[1..]);
      LargestIsLatest(attempts[1..]);
    }
  }

  /** For all evidence the policy can put a deadline on, that deadline is the one the diagnosis reported from the same
      evidence; and when the policy fails on the date, the diagnosis fails on it too. */
  lemma DeadlinesAgree(kind: ProposalKind, taxonomy: Taxonomy, saved: Evidence, current: Evidence, config: Configuration, now: int)
    requires Grounded(BuildFacts(ReplayCandidate, kind, taxonomy, saved, current, config))
    ensures var e := Evaluate(BuildFacts(ReplayCandidate, kind, taxonomy, saved, current, config), now);
      && (e.Decided? ==> e.verdict.notBefore.Some?)
      && (e.Decided? ==> ReplayNotBefore(saved, ReplayCandidate) == NotBefore(e.verdict.notBefore.value))
      && (e.RangeError? ==> ReplayNotBefore(saved, ReplayCandidate) == NoSuchDate)
  {
    hide Reasons, Holds, Policy.NotBefore, Largest;
    var f := BuildFacts(ReplayCandidate, kind, taxonomy, saved, current, config);
    RequiresApprovalExactly(f, now);
    LargestIsLatest(saved.attempts);
  }

  /** Where the policy names no deadline because there is no candidate, neither does the diagnosis. */
  lemma OnlyCandidatesHaveDeadlines(facts: Facts, e: Evidence, now: int)
    requires facts.disposition != ReplayCandidate
    ensures Evaluate(facts, now).Decided? && Evaluate(facts, now).verdict.notBefore == None
    ensures ReplayNotBefore(e, facts.disposition) == NoDeadline
  {
  }

  lemma SupportedHistoryIsSafe(e: Evidence)
    requires WellFormed(e) && SupportsReplayCandidate(e)
    ensures SafeHistory(FactsOf(e.attempts))
  {
    var facts := FactsOf(e.attempts);
    forall a | a in facts ensures SafeAttempt(a) {
      var i :| 0 <= i < |facts| && facts[i] == a;
      assert e.attempts[i] in e.attempts && SupportedAttempt(e.attempts[i]);
    }
  }

  /** What remains of the policy for evidence the diagnosis supports and nothing has touched since: the failure's code, the
      configuration that identifies the call, the replay history, and the cooldown. Nothing else can refuse it. */
  lemma SupportedEvidenceIsGrounded(saved: Evidence, config: Configuration)
    requires WellFormed(saved) && SupportsReplayCandidate(saved) && OneSource(saved, saved)
    ensures Grounded(BuildFacts(ReplayCandidate, WaitThenReplay, F01, saved, saved, config)) <==>
      && saved.safeCode == Some(TELEGRAM_RATE_LIMITED) && config.consistent
      && saved.current.value.actionFp == config.actionFp && saved.current.value.requestFp == config.requestFp
      && config.handlerVersion.Some? && config.handlerVersion == config.currentHandlerVersion
      && !config.incompatibleSuccessor && !config.activeReplay && config.previousReplayCount == 0
  {
    hide SafeHistory;
    SupportedHistoryIsSafe(saved);
  }

  /** For evidence nothing has touched since, of a call that is still configured as it was and was never replayed, the two
      gates differ in exactly what only the diagnosis can see. */
  lemma GatesAgreeExactly(saved: Evidence, config: Configuration)
    requires WellFormed(saved) && OneSource(saved, saved) && saved.safeCode == Some(TELEGRAM_RATE_LIMITED) && config.consistent
    requires saved.current.Some? ==>
      saved.current.value.actionFp == config.actionFp && saved.current.value.requestFp == config.requestFp
    requires config.handlerVersion.Some? && config.handlerVersion == config.currentHandlerVersion
    requires !config.incompatibleSuccessor && !config.activeReplay && config.previousReplayCount == 0
    ensures SupportsReplayCandidate(saved) <==>
      && Grounded(BuildFacts(ReplayCandidate, WaitThenReplay, F01, saved, saved, config))
      && !saved.simulated && saved.telegramAction && saved.telegramInputs && saved.retryAfter.Some?
      && (forall a :: a in saved.attempts ==> a.captured) && saved.current.Some? && saved.current.value.outcome == Some(Rejected)
  {
    hide BuildFacts, Grounded;
    if SupportsReplayCandidate(saved) {
      SupportedEvidenceIsGrounded(saved, config);
    } else if Grounded(BuildFacts(ReplayCandidate, WaitThenReplay, F01, saved, saved, config)) {
      EvidenceGroundsExactly(ReplayCandidate, WaitThenReplay, F01, saved, saved, config);
    }
  }

  /** An outcome that somewhere is unknown is given as a reason: by what is current, by what was saved, or by an attempt. */
  lemma UnknownOutcomeCounts(disposition: Disposition, kind: ProposalKind, taxonomy: Taxonomy, saved: Evidence, current: Evidence,
                             config: Configuration)
    ensures Holds(BuildFacts(disposition, kind, taxonomy, saved, current, config), UnknownOutcome) <==>
      || (current.current.Some? && current.current.value.outcome == Some(Unknown))
      || saved.outcome == Some(Unknown) || exists a :: a in saved.attempts && a.outcome == Unknown
  {
    var facts := FactsOf(saved.attempts);
    if a :| a in saved.attempts && a.outcome == Unknown {
      var i :| 0 <= i < |saved.attempts| && saved.attempts[i] == a;
      assert facts[i] in facts && facts[i].outcome == Unknown;
    }
    if f :| f in facts && f.outcome == Unknown {
      var i :| 0 <= i < |facts| && facts[i] == f;
      assert saved.attempts[i] in saved.attempts;
    }
  }

  /** The other way round: what the policy grounds, the diagnosis would have supported, as far as its own evidence goes. */
  lemma GroundedEvidenceIsSupported(kind: ProposalKind, taxonomy: Taxonomy, saved: Evidence, config: Configuration)
    requires Grounded(BuildFacts(ReplayCandidate, kind, taxonomy, saved, saved, config))
    requires !saved.simulated && saved.telegramAction && saved.telegramInputs && saved.retryAfter.Some?
    requires forall a :: a in saved.attempts ==> a.captured
    requires saved.current.Some? && saved.current.value.outcome == saved.outcome
    ensures SupportsReplayCandidate(saved)
  {
    var facts := FactsOf(saved.attempts);
    forall a | a in saved.attempts ensures SupportedAttempt(a) {
      var i :| 0 <= i < |saved.attempts| && saved.attempts[i] == a;
      assert facts[i] in facts && SafeAttempt(facts[i]);
    }
  }
}

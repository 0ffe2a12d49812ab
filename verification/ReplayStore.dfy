/** The replay store as the worker and the dispatcher run it: row statements inside one serializable transaction, undone
    when it throws. Each method is proved against the transaction function of ReplayTables. */
module ReplayStore {
  import opened Domain
  import opened ExecutionTables
  import opened T = ReplayTables

  datatype ReplayClaim =
    | Claimed
    | Succeeded(nextStage: Option<nat>)
    | Terminated
    | Busy
    | Disabled
    | Threw

  /** What the claim reads from the other tables, in the order it is consulted. */
  datatype Findings = Findings(authorized: bool, policyHolds: bool, actionFound: bool, identityProven: bool, nextStage: Option<nat>)

  function After(tx: Tx<ReplayTables>, before: ReplayTables): ReplayTables {
    if tx.Committed? then tx.state else before
  }

  /** Waiting to be claimed, with no attempt or failure on record yet. */
  predicate ReservedUntouched(t: ReplayTables, id: nat) {
    id in t.replays && t.replays[id].status == Reserved && id !in t.attempts && id !in t.failures
  }

  predicate ReservedUnattempted(t: ReplayTables, id: nat) {
    id in t.replays && t.replays[id].status == Reserved && id !in t.attempts
  }

  /** Ended on the record without ever having run. */
  predicate Refused(t: ReplayTables, id: nat) {
    && id in t.replays && t.replays[id].status == ReplayFailed
    && id in t.attempts && t.attempts[id].status == Ended(NotAttempted)
  }

  /** The request of this id and this stage, with its execution. */
  predicate Asked(t: ReplayTables, id: nat, key: Key) {
    id in t.requests && t.requests[id].key == key && id in t.replays
  }

  /** Everything a claim asks for holds at this moment. */
  predicate Ready(t: ReplayTables, id: nat, key: Key, found: Findings, at: Time) {
    && Asked(t, id, key) && t.replays[id].status == Reserved
    && found.authorized && found.policyHolds && found.actionFound && found.identityProven
    && t.requests[id].notBefore <= at < t.requests[id].expiresAt
  }

  /** Why a reserved replay is refused for good, in the order in which the reasons count. */
  function Refusal(t: ReplayTables, id: nat, key: Key, found: Findings, at: Time): Option<string>
    requires Asked(t, id, key)
  {
    if t.replays[id].status != Reserved then None
    else if !found.authorized || t.requests[id].expiresAt <= at then Some("replay_authority_invalid")
    else if at < t.requests[id].notBefore then None
    else if !found.policyHolds then Some("replay_policy_changed")
    else if found.actionFound && !found.identityProven then Some("replay_input_identity_unproven")
    else None
  }

  /** A worker took the replay and its lease is over. */
  predicate Abandoned(t: ReplayTables, id: nat, at: Time) {
    && id in t.replays && t.replays[id].status == Running
    && (t.replays[id].leaseUntil.None? || t.replays[id].leaseUntil.value <= at)
  }

  /** The replay waits: a live owner has it, or its window has not begun. */
  predicate Waits(t: ReplayTables, id: nat, key: Key, found: Findings, at: Time) {
    && Asked(t, id, key)
    && (if t.replays[id].status == Running then !Abandoned(t, id, at)
        else t.replays[id].status == Reserved && found.authorized && at < t.requests[id].notBefore && at < t.requests[id].expiresAt)
  }

  /** The rows in which a result can be recorded: an open attempt and no failure yet. */
  predicate Recordable(t: ReplayTables, id: nat) {
    id in t.attempts && t.attempts[id].status == Started && id !in t.failures
  }

  predicate NothingToRun(t: ReplayTables, id: nat, key: Key) {
    !Asked(t, id, key) || t.replays[id].status in {ReplayFailed, ReplayUnknown}
  }

  /** The message needs no further claim: there is nothing to run, or this claim ends the replay on the record. */
  predicate Finishes(t: ReplayTables, id: nat, key: Key, found: Findings, at: Time) {
    || NothingToRun(t, id, key)
    || (Abandoned(t, id, at) && Recordable(t, id))
    || (Refusal(t, id, key, found, at).Some? && ReservedUntouched(t, id))
  }

  /** The claim can neither grant nor refuse: the action is not there, or the rows do not fit the status. */
  predicate Throws(t: ReplayTables, id: nat, key: Key, found: Findings, at: Time) {
    && Asked(t, id, key)
    && (|| (Abandoned(t, id, at) && !Recordable(t, id))
        || (Refusal(t, id, key, found, at).Some? && !ReservedUntouched(t, id))
        || (Ready(t, id, key, found.(actionFound := true, identityProven := true), at) && !found.actionFound)
        || (Ready(t, id, key, found, at) && id in t.attempts))
  }

  /** On consistent rows the claim throws in one case only: everything holds but the action is not there. */
  lemma ThrowsOnlyWithoutAction(t: ReplayTables, id: nat, key: Key, found: Findings, at: Time)
    requires id in t.replays && ReplayRowOk(t, id)
    ensures Throws(t, id, key, found, at)
      <==> Ready(t, id, key, found.(actionFound := true, identityProven := true), at) && !found.actionFound
  {
  }

  /** A worker owns the replay for two minutes, with one open attempt; nothing else has changed. */
  ghost predicate TakenOver(t: ReplayTables, u: ReplayTables, id: nat, token: nat, nextStage: Option<nat>, at: Time) {
    && OnlyTouchesReplay(t, u, id)
    && id in u.requests && id in u.replays && u.replays[id].status == Running && u.replays[id].token == Some(token)
    && u.replays[id].leaseUntil == Some(at + 120_000) && u.replays[id].nextStage == nextStage
    && id in u.attempts && u.attempts[id].status == Started
    && u.attempts[id].actionFp == u.requests[id].actionFp && u.attempts[id].requestFp == u.requests[id].requestFp
    && (id in u.failures <==> id in t.failures)
  }

  /** The replay ended with this status for this reason, in row, attempt and failure record alike; nothing else has
      changed. */
  ghost predicate EndedFor(t: ReplayTables, u: ReplayTables, id: nat, outcome: Outcome, safeCode: string, at: Time) {
    && OnlyTouchesReplay(t, u, id)
    && id in u.replays && u.replays[id].status == (if outcome == Unknown then ReplayUnknown else ReplayFailed)
    && u.replays[id].completedAt == Some(at) && u.replays[id].token == None && u.replays[id].leaseUntil == None
    && id in u.attempts && u.attempts[id].status == Ended(outcome) && u.attempts[id].completedAt == Some(at)
    && u.attempts[id].safeCode == Some(safeCode)
    && id in u.failures
    && u.failures[id].evidence == Evidence(Some(Telegram), Some(Send), outcome, safeCode, None, None, None)
  }

  lemma RecordEnds(t: ReplayTables, id: nat, at: Time)
    requires id in t.requests && id in t.replays
    ensures T.Record(t, id, FailedWith(OutcomeUnknown()), at).Committed? <==> Recordable(t, id)
    ensures Recordable(t, id) ==>
      EndedFor(t, T.Record(t, id, FailedWith(OutcomeUnknown()), at).state, id, Unknown, "outcome_unknown", at)
  {
  }

  lemma DenyEnds(t: ReplayTables, id: nat, safeCode: string, at: Time)
    requires id in t.requests && id in t.replays && t.replays[id].status == Reserved
    ensures T.Deny(t, id, safeCode, at).Committed? <==> ReservedUntouched(t, id)
    ensures ReservedUntouched(t, id) ==>
      && EndedFor(t, T.Deny(t, id, safeCode, at).state, id, NotAttempted, safeCode, at)
      && Refused(T.Deny(t, id, safeCode, at).state, id)
  {
  }

  lemma TakeTakes(t: ReplayTables, id: nat, token: nat, nextStage: Option<nat>, at: Time)
    requires id in t.requests && id in t.replays
    ensures T.Take(t, id, token, nextStage, at).Committed? <==> id !in t.attempts
    ensures id !in t.attempts ==> TakenOver(t, T.Take(t, id, token, nextStage, at).state, id, token, nextStage, at)
  {
  }

  class ReplayDb {
    var requests: map<nat, Request>
    var replays: map<nat, Replay>
    var attempts: map<nat, Attempt>
    var failures: map<nat, ReplayFailure>

    constructor ()
      ensures View() == ReplayTables(map[], map[], map[], map[])
    {
      requests, replays, attempts, failures := map[], map[], map[], map[];
    }

    function View(): ReplayTables
      reads this
    {
      ReplayTables(requests, replays, attempts, failures)
    }

    method Rollback(saved: ReplayTables)
      modifies this
      ensures View() == saved
    {
      requests, replays, attempts, failures := saved.requests, saved.replays, saved.attempts, saved.failures;
    }

    /** Attempt, failure record and terminal status, in that order; without an open attempt it throws. */
    method Record(id: nat, report: Report, at: Time) returns (recorded: bool)
      modifies this
      ensures recorded == T.Record(old(View()), id, report, at).Committed?
      ensures View() == After(T.Record(old(View()), id, report, at), old(View()))
    {
      var saved := View();
      if id !in requests || id !in replays || id !in attempts || attempts[id].status != Started { return false; }
      attempts := attempts[id := Recorded(attempts[id], report, at)];
      if report.FailedWith? {
        if id in failures {
          Rollback(saved);
          return false;
        }
        failures := failures[id := ReplayFailure(report.evidence.(receipt := SafeReceipt(report.evidence.receipt)),
                                                 requests[id].actionFp, requests[id].requestFp)];
      }
      replays := replays[id := replays[id].(
        status := StatusFor(OutcomeOf(report)), completedAt := Some(at), token := None, leaseUntil := None)];
      return true;
    }

    method Deny(id: nat, safeCode: string, at: Time) returns (denied: bool)
      modifies this
      ensures denied == T.Deny(old(View()), id, safeCode, at).Committed?
      ensures View() == After(T.Deny(old(View()), id, safeCode, at), old(View()))
    {
      var saved := View();
      if id !in requests || id in attempts { return false; }
      attempts := attempts[id := OpenAttempt(requests[id])];
      denied := Record(id, FailedWith(Denial(safeCode)), at);
      if !denied { Rollback(saved); }
    }

    method Take(id: nat, token: nat, nextStage: Option<nat>, at: Time) returns (taken: bool)
      modifies this
      ensures taken == T.Take(old(View()), id, token, nextStage, at).Committed?
      ensures View() == After(T.Take(old(View()), id, token, nextStage, at), old(View()))
    {
      if id !in requests || id !in replays || id in attempts { return false; }
      replays := replays[id := replays[id].(
        status := Running, token := Some(token), leaseUntil := Some(at + REPLAY_LEASE_MS), nextStage := nextStage)];
      attempts := attempts[id := OpenAttempt(requests[id])];
      return true;
    }

    /** The claim of a replay that waits: refused for good, left waiting, or taken over. */
    method ClaimReserved(id: nat, key: Key, found: Findings, token: nat, at: Time) returns (c: ReplayClaim)
      requires Asked(View(), id, key) && replays[id].status == Reserved
      modifies this
      ensures var why := Refusal(old(View()), id, key, found, at);
        if why.Some? then
          && c == (if ReservedUntouched(old(View()), id) then Terminated else Threw)
          && (c == Terminated ==> EndedFor(old(View()), View(), id, NotAttempted, why.value, at) && Refused(View(), id))
        else if Waits(old(View()), id, key, found, at) then c == Busy
        else if !found.actionFound then c == Threw
        else
          && c == (if id !in old(attempts) then Claimed else Threw)
          && (c == Claimed ==> TakenOver(old(View()), View(), id, token, found.nextStage, at))
      ensures c in {Busy, Threw} ==> View() == old(View())
    {
      hide T.Record, T.Deny, T.Take, EndedFor, TakenOver, Refused;
      ghost var t := View();
      TakeTakes(t, id, token, found.nextStage, at);
      if Refusal(t, id, key, found, at).Some? { DenyEnds(t, id, Refusal(t, id, key, found, at).value, at); }
      if !found.authorized || requests[id].expiresAt <= at {
        var denied := Deny(id, "replay_authority_invalid", at);
        return if denied then Terminated else Threw;
      }
      if requests[id].notBefore > at { return Busy; }
      if !found.policyHolds {
        var denied := Deny(id, "replay_policy_changed", at);
        return if denied then Terminated else Threw;
      }
      if !found.actionFound { return Threw; }
      if !found.identityProven {
        var denied := Deny(id, "replay_input_identity_unproven", at);
        return if denied then Terminated else Threw;
      }
      var taken := Take(id, token, found.nextStage, at);
      return if taken then Claimed else Threw;
    }

    /** The whole claim. Ownership is granted exactly to a reserved replay with every binding intact, inside its window and
        with the policy unchanged; a reserved replay that fails a check for good is ended without ever running; one whose
        owner let its lease run out is ended with an unknown outcome. */
    method Claim(id: nat, key: Key, enabled: bool, found: Findings, token: nat, at: Time) returns (c: ReplayClaim)
      modifies this
      ensures c == Disabled <==> !enabled
      ensures c == Claimed <==> enabled && Ready(old(View()), id, key, found, at) && id !in old(attempts)
      ensures c == Claimed ==> TakenOver(old(View()), View(), id, token, found.nextStage, at)
      ensures c.Succeeded? <==> enabled && Asked(old(View()), id, key) && old(replays)[id].status == ReplaySuccess
      ensures c.Succeeded? ==> c.nextStage == old(replays)[id].nextStage
      ensures c == Busy <==> enabled && Waits(old(View()), id, key, found, at)
      // A message is given up only when there is nothing to run, or the replay has ended on the record.
      ensures c == Terminated <==> enabled && Finishes(old(View()), id, key, found, at)
      ensures c == Terminated && Asked(old(View()), id, key) && Abandoned(old(View()), id, at) ==>
        EndedFor(old(View()), View(), id, Unknown, "outcome_unknown", at)
      ensures c == Terminated && Asked(old(View()), id, key) && Refusal(old(View()), id, key, found, at).Some? ==>
        && EndedFor(old(View()), View(), id, NotAttempted, Refusal(old(View()), id, key, found, at).value, at)
        && Refused(View(), id)
      ensures c == Threw <==> enabled && Throws(old(View()), id, key, found, at)
      ensures c in {Busy, Disabled, Threw} || c.Succeeded? ==> View() == old(View())
      ensures enabled && NothingToRun(old(View()), id, key) ==> View() == old(View())
    {
      hide T.Record, EndedFor, TakenOver, Refused;
      if !enabled { return Disabled; }
      if id !in requests || requests[id].key != key || id !in replays { return Terminated; }
      if replays[id].status == ReplaySuccess { return Succeeded(replays[id].nextStage); }
      if replays[id].status in {ReplayFailed, ReplayUnknown} { return Terminated; }
      if replays[id].status == Running {
        if replays[id].leaseUntil.Some? && replays[id].leaseUntil.value > at { return Busy; }
        RecordEnds(View(), id, at);
        var recorded := Record(id, FailedWith(OutcomeUnknown()), at);
        return if recorded then Terminated else Threw;
      }
      c := ClaimReserved(id, key, found, token, at);
    }

    /** The owner's result counts only while its lease runs; otherwise nothing changes. */
    method Complete(id: nat, token: nat, report: Report, at: Time) returns (saved: bool)
      modifies this
      ensures saved == T.Complete(old(View()), id, token, report, at).Committed?
      ensures View() == After(T.Complete(old(View()), id, token, report, at), old(View()))
    {
      if !HoldsLease(View(), id, token, at) { return false; }
      saved := Record(id, report, at);
    }

    // ----- dispatch -----

    method LeaseDispatch(id: nat, token: nat, at: Time) returns (count: nat)
      modifies `replays
      ensures count == if DispatchDue(old(View()), id, at) then 1 else 0
      ensures View() == After(T.LeaseDispatch(old(View()), id, token, at), old(View()))
    {
      if !DispatchDue(View(), id, at) { return 0; }
      replays := replays[id := replays[id].(
        dispatchToken := Some(token), dispatchLease := Some(at + DISPATCH_LEASE_MS),
        dispatchAttempts := replays[id].dispatchAttempts + 1)];
      return 1;
    }

    method ReleaseDispatch(id: nat, token: nat, tries: nat, at: Time)
      modifies `replays
      ensures View() == After(T.ReleaseDispatch(old(View()), id, token, tries, at), old(View()))
    {
      if id in replays && replays[id].dispatchToken == Some(token) {
        replays := replays[id := replays[id].(
          dispatchToken := None, dispatchLease := None, nextDispatch := Some(at + DispatchBackoff(tries)))];
      }
    }

    method StampPublished(id: nat, token: nat, at: Time)
      modifies `replays
      ensures View() == After(T.StampPublished(old(View()), id, token, at), old(View()))
    {
      if id in replays && replays[id].dispatchToken == Some(token) {
        replays := replays[id := replays[id].(
          publishedAt := Some(at), dispatchToken := None, dispatchLease := None, nextDispatch := None)];
      }
    }

    /** One dispatch of one due request. The publication is stamped only after an acknowledged send; a failed send leaves
        the request due again after its backoff, and whatever happens the request's own status is untouched. */
    method DispatchOne(id: nat, token: nat, at: Time, sendAcknowledged: bool, sentAt: Time)
      returns (found: bool, published: bool)
      modifies `replays
      ensures found == DispatchDue(old(View()), id, at)
      ensures published == (found && sendAcknowledged)
      ensures published ==> !DispatchDue(View(), id, sentAt)
      ensures found ==>
        var tries := old(replays)[id].dispatchAttempts + 1;
        replays == old(replays)[id := old(replays)[id].(
          publishedAt := if published then Some(sentAt) else None, dispatchToken := None, dispatchLease := None,
          nextDispatch := if published then None else Some(sentAt + DispatchBackoff(tries)), dispatchAttempts := tries)]
      ensures !found ==> replays == old(replays)
      ensures OneRow(old(replays), replays, id)
      ensures id in old(replays) ==> id in replays && SameOutcome(old(replays)[id], replays[id])
    {
      var count := LeaseDispatch(id, token, at);
      if count == 0 { return false, false; }
      if !sendAcknowledged {
        ReleaseDispatch(id, token, replays[id].dispatchAttempts, sentAt);
        return true, false;
      }
      StampPublished(id, token, sentAt);
      return true, true;
    }
  }
}

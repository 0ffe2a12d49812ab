/** The services that submit proposals, decide on them and turn a decision into a replay, over mutable tables. */
module AuthorityService {
  import opened Domain
  import A = Authority
  import Policy = ReplayPolicy
  import Replays = ReplayTables
  import Store = ReplayStore

  /** The policy's answer about a diagnosis, with what is added when a candidate is not grounded in facts. */
  datatype PolicyRecord = PolicyRecord(evaluation: Policy.Evaluation, candidateGrounded: bool, ungroundedCandidate: bool)

  /** A diagnosis may propose a replay, but only the facts ground one: exactly the candidates that meet every condition, but
      possibly for their cooldown, count as grounded, and every other candidate is marked. */
  method EvaluateSnapshotPolicy(facts: Policy.Facts, now: Time) returns (r: PolicyRecord)
    ensures r.evaluation == Policy.Evaluate(facts, now)
    ensures r.evaluation.Decided? ==> (r.candidateGrounded <==> Policy.Grounded(facts))
    ensures r.evaluation.Decided? ==>
      (r.ungroundedCandidate <==>
       facts.disposition == Policy.ReplayCandidate && facts.kind == Policy.WaitThenReplay && !Policy.Grounded(facts))
    ensures A.Allows(r.evaluation) ==> r.candidateGrounded
    ensures r.evaluation.RangeError? ==> !r.candidateGrounded && !r.ungroundedCandidate
  {
    var e := Policy.EvaluateReplayPolicy(facts, now);
    Policy.RequiresApprovalExactly(facts, now);
    if e.RangeError? { return PolicyRecord(e, false, false); }
    var proposed := facts.disposition == Policy.ReplayCandidate && facts.kind == Policy.WaitThenReplay;
    var grounded := proposed && (e.verdict.status == Policy.RequiresApproval || e.verdict.reasons == [Policy.CooldownPending]);
    if Policy.CooldownPending in e.verdict.reasons { CooldownMeansGrounded(facts, now); }
    return PolicyRecord(e, grounded, proposed && !grounded);
  }

  lemma CooldownMeansGrounded(facts: Policy.Facts, now: Time)
    requires Policy.Evaluate(facts, now).Decided? && Policy.CooldownPending in Policy.Evaluate(facts, now).verdict.reasons
    ensures Policy.Grounded(facts)
  {
    Policy.RequiresApprovalExactly(facts, now);
    assert !Policy.Holds(facts, Policy.CooldownPending);
  }

  class AuthorityDb {
    var operators: set<nat>
    var cases: map<nat, A.Binding>
    var proposals: map<nat, A.Proposal>
    var approvals: map<nat, A.Approval>
    var requests: map<nat, A.Request>

    constructor ()
      ensures View() == A.EMPTY
    {
      operators, cases, proposals, approvals, requests := {}, map[], map[], map[], map[];
    }

    function View(): A.Tables
      reads this
    {
      A.Tables(operators, cases, proposals, approvals, requests)
    }

    /** A proposal is added only by an operator, for the case's owner, and only to an investigation that has none; nothing
        else changes. */
    method Submit(id: nat, s: A.Submission, policy: Policy.Evaluation, now: Time) returns (r: A.Answer)
      modifies `proposals
      ensures r == A.Submit(old(View()), id, s, policy, now)
      ensures View() == A.Answered(old(View()), r)
      ensures r.Changed? ==>
        && proposals.Keys == old(proposals.Keys) + {id} && id !in old(proposals) && proposals - {id} == old(proposals)
        && proposals[id].investigation == s.investigation && proposals[id].version == 1
        && proposals[id].caseId == s.caseId && proposals[id].owner == s.owner && proposals[id].evidenceHash == s.evidenceHash
        && (forall p :: p in old(proposals) ==> old(proposals)[p].investigation != s.investigation)
        && s.actor in operators && A.BoundTo(View(), s.caseId, s.owner) && A.IsLatest(View(), id)
      ensures !r.Changed? ==> proposals == old(proposals)
      ensures old(A.Inv(View())) ==> A.Inv(View())
    {
      ghost var before := View();
      if A.Inv(before) { A.SubmitKeeps(before, id, s, policy, now); }
      if s.actor !in operators { return A.Denied(A.PermissionRevoked); }
      if s.caseId !in cases || cases[s.caseId].owner != s.owner { return A.Denied(A.CaseBindingChanged); }
      if exists p | p in proposals :: A.Repeats(View(), p, s) { return A.Repeated; }
      if exists p | p in proposals :: proposals[p].investigation == s.investigation { return A.Denied(A.EvidenceConflict); }
      if policy.RangeError? { return A.Denied(A.RangeError); }
      if id in proposals { return A.Denied(A.Constraint); }
      proposals := proposals[id := A.Proposal(s.investigation, s.caseId, s.owner, s.disposition, policy.verdict.status,
                                              now + A.PROPOSAL_LIFETIME_MS, 1, s.evidenceHash)];
      return A.Changed(View());
    }

    /** A decision is recorded only once for a proposal: the latest of its investigation, not expired, by an operator, with a
        decision it admits, and an approval only while the policy says so. */
    method Decide(c: A.Choice, policy: Policy.Evaluation, now: Time) returns (r: A.Answer)
      modifies `approvals
      ensures r == A.Decide(old(View()), c, policy, now)
      ensures View() == A.Answered(old(View()), r)
      ensures r.Changed? ==>
        && approvals.Keys == old(approvals.Keys) + {c.decisionId} && c.decisionId !in old(approvals)
        && approvals - {c.decisionId} == old(approvals)
        && A.DecisionOk(View(), c.decisionId)
        && approvals[c.decisionId].proposal == c.proposal && approvals[c.decisionId].decision == c.decision
        && approvals[c.decisionId].approvedBy == c.actor && c.actor in operators
        && (forall a :: a in old(approvals) ==> old(approvals)[a].proposal != c.proposal)
        && A.IsLatest(View(), c.proposal) && now < proposals[c.proposal].expiresAt
        && (c.decision == A.Approve ==> A.Allows(policy))
      ensures !r.Changed? ==> approvals == old(approvals)
      ensures old(A.Inv(View())) ==> A.Inv(View())
    {
      ghost var before := View();
      if A.Inv(before) { A.DecideKeeps(before, c, policy, now); }
      if c.proposal !in proposals { return A.Denied(A.BindingMismatch); }
      var p := proposals[c.proposal];
      if p.investigation != c.investigation || p.caseId != c.caseId || p.owner != c.owner { return A.Denied(A.BindingMismatch); }
      if c.actor !in operators { return A.Denied(A.PermissionRevoked); }
      if c.caseId !in cases || cases[c.caseId].owner != p.owner { return A.Denied(A.CaseBindingChanged); }
      if (c.version.Some? && c.version.value != p.version) || !A.IsLatest(View(), c.proposal) { return A.Denied(A.StaleVersion); }
      if exists a | a in approvals :: approvals[a].proposal == c.proposal {
        if exists a | a in approvals :: approvals[a].proposal == c.proposal && A.SameDecision(approvals[a], a, c) {
          return A.Repeated;
        }
        return A.Denied(A.AlreadyDecided);
      }
      if p.expiresAt <= now { return A.Denied(A.Expired); }
      if c.decision == A.Approve && !A.Allows(policy) { return A.Denied(A.PolicyBlocks); }
      if c.decision !in A.AllowedDecisions(p) { return A.Denied(A.DecisionConflicts); }
      if c.decisionId in approvals { return A.Denied(A.Constraint); }
      approvals := approvals[c.decisionId := A.Approval(c.proposal, p.caseId, p.owner, c.actor, c.decision, p.version, p.expiresAt)];
      return A.Changed(View());
    }

    /** A replay is requested only on an approval nobody has used, by operators who still are, for a case and an execution
        without a request; the request says what its approval and the policy say, until the earlier of both ends. */
    method RequestReplay(a: A.Ask, policy: Policy.Evaluation, now: Time) returns (r: A.Answer)
      modifies `requests
      ensures r == A.RequestReplay(old(View()), a, policy, now)
      ensures View() == A.Answered(old(View()), r)
      ensures r.Changed? ==>
        && requests.Keys == old(requests.Keys) + {a.id} && a.id !in old(requests) && requests - {a.id} == old(requests)
        && a.approval in approvals && approvals[a.approval].decision == A.Approve
        && requests[a.id].approval == a.approval && requests[a.id].caseId == a.caseId && requests[a.id].owner == a.owner
        && {a.actor, approvals[a.approval].approvedBy} <= operators
        && now < requests[a.id].expiresAt <= approvals[a.approval].expiresAt
        && A.Allows(policy) && Some(requests[a.id].notBefore) == policy.verdict.notBefore
        && (forall q :: q in old(requests) ==>
          old(requests)[q].approval != a.approval && old(requests)[q].caseId != a.caseId)
      ensures !r.Changed? ==> requests == old(requests)
      ensures old(A.Inv(View())) ==> A.Inv(View())
      ensures old(A.Inv(View())) && r.Changed? ==> A.Chained(View(), a.id)
    {
      ghost var before := View();
      if A.Inv(before) { A.RequestKeeps(before, a, policy, now); }
      var refused := A.Validate(View(), a);
      if refused.Some? { return A.Denied(refused.value); }
      if exists q | q in requests :: A.SameRequest(requests[q], q, a) { return A.Repeated; }
      if exists q | q in requests :: A.Overlaps(requests[q], q, a) { return A.Denied(A.ApprovalConsumed); }
      var approval := approvals[a.approval];
      var p, b := proposals[approval.proposal], cases[a.caseId];
      if approval.decision != A.Approve || p.status != Policy.RequiresApproval || p.disposition != Policy.ReplayCandidate {
        return A.Denied(A.ApprovalRequired);
      }
      if approval.expiresAt <= now || p.expiresAt <= now { return A.Denied(A.Expired); }
      if !A.Names(policy) { return A.Denied(A.PolicyBlocks); }
      if exists q | q in requests :: requests[q].binding.execution == b.execution && requests[q].generation == 1 {
        return A.Denied(A.Constraint);
      }
      requests := requests[a.id := A.Request(
        a.approval, a.caseId, a.owner, approval.approvedBy, a.actor, p.version, b, 1,
        policy.verdict.actionFingerprint.value, policy.verdict.requestFingerprint.value, policy.verdict.handlerVersion.value,
        p.evidenceHash, policy.verdict.notBefore.value, A.Min(approval.expiresAt, p.expiresAt))];
      return A.Changed(View());
    }
  }

  /** The replay row a request stands for in the worker's tables. */
  predicate Mirrors(t: A.Tables, replays: Replays.ReplayTables, id: nat) {
    && id in t.requests && id in replays.requests
    && replays.requests[id].notBefore == t.requests[id].notBefore
    && replays.requests[id].expiresAt == t.requests[id].expiresAt
  }

  /** Both operators still are operators, the case belongs to the same owner, stage and execution, and the handler is the
      one the request names. */
  predicate BindingsHold(t: A.Tables, id: nat, key: Key, handlerVersion: Option<Hash>)
    requires id in t.requests
  {
    var r := t.requests[id];
    && r.approvedBy in t.operators && r.requestedBy in t.operators
    && r.caseId in t.cases && t.cases[r.caseId] == A.Binding(r.owner, key.run, key.stage, r.binding.execution)
    && handlerVersion == Some(r.handlerVersion)
  }

  /** A worker's claim, with the authority read in the same transaction. It owns the replay exactly if the replay waits
      untouched, every binding of its request still holds, the moment lies in the request's window and policy, action and
      identity are as they were; when a binding or the window has gone, the reserved replay ends not attempted and never
      runs. */
  method ClaimAuthorized(db: AuthorityDb, replays: Store.ReplayDb, id: nat, key: Key, handlerVersion: Option<Hash>,
                         found: Store.Findings, token: nat, at: Time) returns (c: Store.ReplayClaim)
    requires A.Inv(db.View()) && Mirrors(db.View(), replays.View(), id)
    requires found.authorized == A.StillAuthorized(db.View(), id, key.run, key.stage, handlerVersion, at)
    modifies replays
    ensures c == Store.Claimed <==>
      && key == old(replays.requests)[id].key && Store.ReservedUnattempted(old(replays.View()), id)
      && BindingsHold(db.View(), id, key, handlerVersion)
      && db.requests[id].notBefore <= at < db.requests[id].expiresAt
      && found.policyHolds && found.actionFound && found.identityProven
    ensures c == Store.Claimed ==>
      && A.Chained(db.View(), id)
      && Store.TakenOver(old(replays.View()), replays.View(), id, token, found.nextStage, at)
    ensures key == old(replays.requests)[id].key && Store.ReservedUntouched(old(replays.View()), id)
      && (!BindingsHold(db.View(), id, key, handlerVersion) || db.requests[id].expiresAt <= at)
      ==> c == Store.Terminated && Store.Refused(replays.View(), id)
  {
    hide A.Single, A.StillAuthorized, A.DecisionOk;
    assert A.Chained(db.View(), id);
    A.StillAuthorizedExactly(db.View(), id, key.run, key.stage, handlerVersion, at);
    c := replays.Claim(id, key, true, found, token, at);
  }
}

/** Who may have a call replayed: proposals, decisions and single-use replay requests, and what binds them together. */
module Authority {
  import opened Domain
  import Policy = ReplayPolicy

  const PROPOSAL_LIFETIME_MS := 172_800_000

  datatype Decision = Approve | Reject | MarkOwnerAction | EscalateToEngineering | ResolveWithoutReplay

  /** What a case is bound to: its run's owner, its stage, and the execution that failed. */
  datatype Binding = Binding(owner: nat, run: nat, stage: nat, execution: Option<nat>)

  datatype Proposal = Proposal(investigation: nat, caseId: nat, owner: nat, disposition: Policy.Disposition,
                               status: Policy.Status, expiresAt: int, version: nat, evidenceHash: Hash)

  datatype Approval = Approval(proposal: nat, caseId: nat, owner: nat, approvedBy: nat, decision: Decision,
                               version: nat, expiresAt: int)

  datatype Request = Request(approval: nat, caseId: nat, owner: nat, approvedBy: nat, requestedBy: nat, version: nat,
                             binding: Binding, generation: nat, actionFp: Hash, requestFp: Hash, handlerVersion: Hash,
                             evidenceHash: Hash, notBefore: int, expiresAt: int)

  datatype Tables = Tables(operators: set<nat>, cases: map<nat, Binding>, proposals: map<nat, Proposal>,
                           approvals: map<nat, Approval>, requests: map<nat, Request>)

  datatype Denial =
    | PermissionRevoked | BindingMismatch | CaseBindingChanged | StaleVersion | AlreadyDecided | Expired | PolicyBlocks
    | DecisionConflicts | EvidenceConflict | ApprovalRequired | ApprovalConsumed | Constraint | RangeError

  datatype Answer = Changed(tables: Tables) | Repeated | Denied(why: Denial)

  // ----- proposals -----

  predicate BoundTo(t: Tables, caseId: nat, owner: nat) {
    caseId in t.cases && t.cases[caseId].owner == owner
  }

  predicate Newer(t: Tables, investigation: nat, version: nat) {
    exists p | p in t.proposals :: t.proposals[p].investigation == investigation && t.proposals[p].version > version
  }

  predicate IsLatest(t: Tables, id: nat) {
    id in t.proposals && !Newer(t, t.proposals[id].investigation, t.proposals[id].version)
  }

  datatype Submission = Submission(actor: nat, investigation: nat, caseId: nat, owner: nat, evidenceHash: Hash,
                                   disposition: Policy.Disposition)

  predicate Repeats(t: Tables, p: nat, s: Submission) {
    && p in t.proposals && t.proposals[p].investigation == s.investigation && IsLatest(t, p)
    && t.proposals[p].evidenceHash == s.evidenceHash
  }

  /** An investigation has one proposal; its status is the policy's answer at that time and never changes. */
  function Submit(t: Tables, id: nat, s: Submission, policy: Policy.Evaluation, now: Time): Answer {
    if s.actor !in t.operators then Denied(PermissionRevoked)
    else if !BoundTo(t, s.caseId, s.owner) then Denied(CaseBindingChanged)
    else if exists p | p in t.proposals :: Repeats(t, p, s) then Repeated
    else if exists p | p in t.proposals :: t.proposals[p].investigation == s.investigation then Denied(EvidenceConflict)
    else if policy.RangeError? then Denied(RangeError)
    else if id in t.proposals then Denied(Constraint)
    else Changed(t.(proposals := t.proposals[id := Proposal(
      s.investigation, s.caseId, s.owner, s.disposition, policy.verdict.status, now + PROPOSAL_LIFETIME_MS, 1, s.evidenceHash)]))
  }

  // ----- decisions -----

  function AllowedDecisions(p: Proposal): set<Decision> {
    match p.disposition
    case ReplayCandidate => if p.status == Policy.RequiresApproval then {Approve, Reject} else {}
    case OwnerActionRequired => {MarkOwnerAction}
    case EngineeringEscalationRequired => {EscalateToEngineering}
    case ResolvedWithoutReplay => {ResolveWithoutReplay}
    case OtherDisposition => {}
  }

  datatype Choice = Choice(proposal: nat, version: Option<nat>, investigation: nat, caseId: nat, owner: nat, actor: nat,
                           decisionId: nat, decision: Decision)

  predicate SameDecision(a: Approval, id: nat, c: Choice) {
    id == c.decisionId && a.decision == c.decision && a.approvedBy == c.actor
  }

  predicate Allows(policy: Policy.Evaluation) {
    policy.Decided? && policy.verdict.status == Policy.RequiresApproval
  }

  function Decide(t: Tables, c: Choice, policy: Policy.Evaluation, now: Time): Answer {
    if c.proposal !in t.proposals then Denied(BindingMismatch)
    else
      var p := t.proposals[c.proposal];
      if p.investigation != c.investigation || p.caseId != c.caseId || p.owner != c.owner then Denied(BindingMismatch)
      else if c.actor !in t.operators then Denied(PermissionRevoked)
      else if !BoundTo(t, c.caseId, p.owner) then Denied(CaseBindingChanged)
      else if (c.version.Some? && c.version.value != p.version) || !IsLatest(t, c.proposal) then Denied(StaleVersion)
      else if exists a | a in t.approvals :: t.approvals[a].proposal == c.proposal && SameDecision(t.approvals[a], a, c) then Repeated
      else if exists a | a in t.approvals :: t.approvals[a].proposal == c.proposal then Denied(AlreadyDecided)
      else if p.expiresAt <= now then Denied(Expired)
      else if c.decision == Approve && !Allows(policy) then Denied(PolicyBlocks)
      else if c.decision !in AllowedDecisions(p) then Denied(DecisionConflicts)
      else if c.decisionId in t.approvals then Denied(Constraint)
      else Changed(t.(approvals := t.approvals[c.decisionId := Approval(
        c.proposal, p.caseId, p.owner, c.actor, c.decision, p.version, p.expiresAt)]))
  }

  // ----- requests -----

  datatype Ask = Ask(id: nat, approval: nat, caseId: nat, owner: nat, actor: nat, version: nat)

  /** What a request must show of itself before anything is looked up or written. */
  function Validate(t: Tables, a: Ask): Option<Denial> {
    if a.actor !in t.operators then Some(PermissionRevoked)
    else if a.approval !in t.approvals then Some(BindingMismatch)
    else
      var approval := t.approvals[a.approval];
      if approval.caseId != a.caseId || approval.owner != a.owner then Some(BindingMismatch)
      else if approval.approvedBy !in t.operators then Some(PermissionRevoked)
      else if approval.proposal !in t.proposals then Some(BindingMismatch)
      else
        var p := t.proposals[approval.proposal];
        if p.caseId != a.caseId || p.owner != a.owner then Some(BindingMismatch)
        else if a.version != p.version || approval.version != p.version || !IsLatest(t, approval.proposal) then Some(StaleVersion)
        else if !BoundTo(t, a.caseId, a.owner) || t.cases[a.caseId].execution.None? then Some(CaseBindingChanged)
        else None
  }

  predicate Overlaps(r: Request, id: nat, a: Ask) {
    id == a.id || r.approval == a.approval || r.caseId == a.caseId
  }

  predicate SameRequest(r: Request, id: nat, a: Ask) {
    id == a.id && r.approval == a.approval && r.caseId == a.caseId && r.owner == a.owner && r.requestedBy == a.actor
    && r.version == a.version
  }

  /** What the policy must say for a request: approval required, and everything that identifies the call. */
  predicate Names(policy: Policy.Evaluation) {
    && Allows(policy) && policy.verdict.notBefore.Some? && policy.verdict.actionFingerprint.Some?
    && policy.verdict.requestFingerprint.Some? && policy.verdict.handlerVersion.Some?
  }

  function Min(a: int, b: int): int {
    if a < b then a else b
  }

  function RequestReplay(t: Tables, a: Ask, policy: Policy.Evaluation, now: Time): Answer {
    if Validate(t, a).Some? then Denied(Validate(t, a).value)
    else if exists r | r in t.requests :: SameRequest(t.requests[r], r, a) then Repeated
    else if exists r | r in t.requests :: Overlaps(t.requests[r], r, a) then Denied(ApprovalConsumed)
    else
      var approval := t.approvals[a.approval];
      var p, b := t.proposals[approval.proposal], t.cases[a.caseId];
      if approval.decision != Approve || p.status != Policy.RequiresApproval || p.disposition != Policy.ReplayCandidate
      then Denied(ApprovalRequired)
      else if approval.expiresAt <= now || p.expiresAt <= now then Denied(Expired)
      else if !Names(policy) then Denied(PolicyBlocks)
      else if exists r | r in t.requests :: t.requests[r].binding.execution == b.execution && t.requests[r].generation == 1
      then Denied(Constraint)
      else Changed(t.(requests := t.requests[a.id := Request(
        a.approval, a.caseId, a.owner, approval.approvedBy, a.actor, p.version, b, 1,
        policy.verdict.actionFingerprint.value, policy.verdict.requestFingerprint.value, policy.verdict.handlerVersion.value,
        p.evidenceHash, policy.verdict.notBefore.value, Min(approval.expiresAt, p.expiresAt))]))
  }

  // ----- the worker's view -----

  /** Every binding a worker checks before it owns a replay, read at that moment. */
  predicate StillAuthorized(t: Tables, id: nat, run: nat, stage: nat, handlerVersion: Option<Hash>, at: Time) {
    && id in t.requests
    && var r := t.requests[id];
    && r.approvedBy in t.operators && r.requestedBy in t.operators
    && r.approval in t.approvals
    && var approval := t.approvals[r.approval];
    && approval.proposal in t.proposals
    && var p := t.proposals[approval.proposal];
    && r.caseId in t.cases
    && var b := t.cases[r.caseId];
    && b.owner == r.owner && b.execution == r.binding.execution && b.run == run && b.stage == stage
    && approval.caseId == r.caseId && approval.owner == r.owner && approval.approvedBy == r.approvedBy
    && approval.decision == Approve && approval.version == r.version && approval.expiresAt > at
    && p.caseId == r.caseId && p.owner == r.owner && p.version == r.version
    && IsLatest(t, approval.proposal) && p.evidenceHash == r.evidenceHash && p.expiresAt > at
    && p.status == Policy.RequiresApproval && p.disposition == Policy.ReplayCandidate && r.generation == 1
    && r.expiresAt > at && handlerVersion == Some(r.handlerVersion)
  }

  // ----- the chain -----

  /** A request hangs on exactly one approve decision, on the latest version of a proposal for the same case and owner. */
  ghost predicate Chained(t: Tables, id: nat)
    requires id in t.requests
  {
    var r := t.requests[id];
    && r.approval in t.approvals
    && var approval := t.approvals[r.approval];
    && approval.decision == Approve
    && approval.caseId == r.caseId && approval.owner == r.owner && approval.approvedBy == r.approvedBy
    && IsLatest(t, approval.proposal)
    && var p := t.proposals[approval.proposal];
    && p.caseId == r.caseId && p.owner == r.owner && p.version == approval.version == r.version
    && p.status == Policy.RequiresApproval && p.disposition == Policy.ReplayCandidate
    && r.evidenceHash == p.evidenceHash && r.expiresAt <= approval.expiresAt && r.expiresAt <= p.expiresAt
    && r.generation == 1 && r.binding.execution.Some?
  }

  /** A decision is one the proposal admitted, and speaks of the proposal's own case, owner, version and lifetime. */
  ghost predicate DecisionOk(t: Tables, id: nat)
    requires id in t.approvals
  {
    var a := t.approvals[id];
    && a.proposal in t.proposals
    && var p := t.proposals[a.proposal];
    && a.decision in AllowedDecisions(p)
    && a.caseId == p.caseId && a.owner == p.owner && a.version == p.version && a.expiresAt == p.expiresAt
  }

  ghost predicate Single(t: Tables) {
    && (forall p, q :: p in t.proposals && q in t.proposals && t.proposals[p].investigation == t.proposals[q].investigation ==> p == q)
    && (forall a, b :: a in t.approvals && b in t.approvals && t.approvals[a].proposal == t.approvals[b].proposal ==> a == b)
    && (forall a, b :: a in t.requests && b in t.requests && SameTarget(t.requests[a], t.requests[b]) ==> a == b)
  }

  predicate SameTarget(a: Request, b: Request) {
    a.approval == b.approval || a.caseId == b.caseId || a.binding.execution == b.binding.execution
  }

  ghost predicate Inv(t: Tables) {
    && (forall id :: id in t.approvals ==> DecisionOk(t, id))
    && (forall id :: id in t.requests ==> Chained(t, id))
    && Single(t)
  }

  // ----- runs -----

  datatype Step =
    | Promote(user: nat)
    | Demote(user: nat)
    | Bind(caseId: nat, binding: Binding)
    | SubmitProposal(id: nat, submission: Submission, policy: Policy.Evaluation, now: Time)
    | MakeDecision(choice: Choice, policy: Policy.Evaluation, now: Time)
    | AskForReplay(ask: Ask, policy: Policy.Evaluation, now: Time)

  function Answered(t: Tables, a: Answer): Tables {
    if a.Changed? then a.tables else t
  }

  function Apply(t: Tables, s: Step): Tables {
    match s
    case Promote(u) => t.(operators := t.operators + {u})
    case Demote(u) => t.(operators := t.operators - {u})
    case Bind(c, b) => t.(cases := t.cases[c := b])
    case SubmitProposal(id, submission, policy, now) => Answered(t, Submit(t, id, submission, policy, now))
    case MakeDecision(choice, policy, now) => Answered(t, Decide(t, choice, policy, now))
    case AskForReplay(ask, policy, now) => Answered(t, RequestReplay(t, ask, policy, now))
  }

  function Run(t: Tables, steps: seq<Step>): Tables {
    if steps == [] then t else Apply(Run(t, steps[..|steps| - 1]), steps[|steps| - 1])
  }

  const EMPTY := Tables({}, map[], map[], map[], map[])

  lemma ChainedStable(t: Tables, u: Tables, id: nat)
    requires Kept(t, u) && id in t.requests && Chained(t, id) && IsLatest(u, t.approvals[t.requests[id].approval].proposal)
    ensures id in u.requests && Chained(u, id)
  {
  }

  lemma DecisionStable(t: Tables, u: Tables, id: nat)
    requires Kept(t, u) && id in t.approvals && DecisionOk(t, id)
    ensures id in u.approvals && DecisionOk(u, id)
  {
    hide AllowedDecisions;
  }

  lemma SingleProposals(t: Tables, id: nat, p: Proposal)
    requires Single(t) && id !in t.proposals
    requires forall q :: q in t.proposals ==> t.proposals[q].investigation != p.investigation
    ensures Single(t.(proposals := t.proposals[id := p]))
  {
    hide SameTarget;
  }

  lemma SingleApprovals(t: Tables, id: nat, a: Approval)
    requires Single(t) && id !in t.approvals
    requires forall b :: b in t.approvals ==> t.approvals[b].proposal != a.proposal
    ensures Single(t.(approvals := t.approvals[id := a]))
  {
    hide SameTarget;
  }

  lemma SingleRequests(t: Tables, id: nat, r: Request)
    requires Single(t) && id !in t.requests
    requires forall q :: q in t.requests ==> !SameTarget(t.requests[q], r)
    ensures Single(t.(requests := t.requests[id := r]))
  {
    assert forall q :: q in t.requests ==> !SameTarget(t.requests[q], r) && !SameTarget(r, t.requests[q]);
  }

  /** A new proposal of an investigation that had none. */
  lemma NewProposalKeeps(t: Tables, id: nat, p: Proposal)
    requires Inv(t) && id !in t.proposals
    requires forall q :: q in t.proposals ==> t.proposals[q].investigation != p.investigation
    ensures Inv(t.(proposals := t.proposals[id := p]))
  {
    hide DecisionOk, Single, IsLatest;
    SingleProposals(t, id, p);
    var u := t.(proposals := t.proposals[id := p]);
    forall a | a in u.approvals ensures DecisionOk(u, a) { DecisionStable(t, u, a); }
    forall r | r in u.requests ensures Chained(u, r) {
      assert Chained(t, r);
      LatestStays(t, u, t.approvals[t.requests[r].approval].proposal, p.investigation);
      ChainedStable(t, u, r);
    }
  }

  lemma LatestStays(t: Tables, u: Tables, id: nat, investigation: nat)
    requires IsLatest(t, id)
    requires forall p :: p in t.proposals ==> p in u.proposals && u.proposals[p] == t.proposals[p]
    requires forall p :: p in t.proposals ==> t.proposals[p].investigation != investigation
    requires forall p :: p in u.proposals && p !in t.proposals ==> u.proposals[p].investigation == investigation
    ensures IsLatest(u, id)
  {
  }

  lemma SubmitKeeps(t: Tables, id: nat, s: Submission, policy: Policy.Evaluation, now: Time)
    requires Inv(t)
    ensures Inv(Answered(t, Submit(t, id, s, policy, now)))
  {
    hide Inv, Repeats;
    if Submit(t, id, s, policy, now).Changed? {
      NewProposalKeeps(t, id, Submit(t, id, s, policy, now).tables.proposals[id]);
    }
  }

  /** A first decision on a proposal that admits it. */
  lemma NewApprovalKeeps(t: Tables, id: nat, a: Approval)
    requires Inv(t) && id !in t.approvals && a.proposal in t.proposals
    requires forall b :: b in t.approvals ==> t.approvals[b].proposal != a.proposal
    requires DecisionOk(t.(approvals := t.approvals[id := a]), id)
    ensures Inv(t.(approvals := t.approvals[id := a]))
  {
    hide DecisionOk, IsLatest, Single;
    SingleApprovals(t, id, a);
    var u := t.(approvals := t.approvals[id := a]);
    forall b | b in u.approvals ensures DecisionOk(u, b) { if b in t.approvals { DecisionStable(t, u, b); } }
    forall r | r in u.requests ensures Chained(u, r) {
      assert Chained(t, r);
      SameLatest(t, u, t.approvals[t.requests[r].approval].proposal);
      ChainedStable(t, u, r);
    }
  }

  lemma SameLatest(t: Tables, u: Tables, id: nat)
    requires t.proposals == u.proposals
    ensures IsLatest(t, id) == IsLatest(u, id)
  {
  }

  lemma DecideKeeps(t: Tables, c: Choice, policy: Policy.Evaluation, now: Time)
    requires Inv(t)
    ensures Inv(Answered(t, Decide(t, c, policy, now)))
  {
    hide Inv, AllowedDecisions, IsLatest;
    if Decide(t, c, policy, now).Changed? {
      NewApprovalKeeps(t, c.decisionId, Decide(t, c, policy, now).tables.approvals[c.decisionId]);
    }
  }

  /** A request no other one shares a target with. */
  lemma NewRequestKeeps(t: Tables, id: nat, r: Request)
    requires Inv(t) && id !in t.requests
    requires forall q :: q in t.requests ==> !SameTarget(t.requests[q], r)
    requires Chained(t.(requests := t.requests[id := r]), id)
    ensures Inv(t.(requests := t.requests[id := r]))
  {
    hide DecisionOk, IsLatest, Single, SameTarget;
    SingleRequests(t, id, r);
    var u := t.(requests := t.requests[id := r]);
    forall b | b in u.approvals ensures DecisionOk(u, b) { DecisionStable(t, u, b); }
    forall q | q in u.requests ensures Chained(u, q) {
      if q != id {
        assert Chained(t, q);
        SameLatest(t, u, t.approvals[t.requests[q].approval].proposal);
        ChainedStable(t, u, q);
      }
    }
  }

  lemma NewRequestChained(t: Tables, a: Ask, policy: Policy.Evaluation, now: Time)
    requires Inv(t) && RequestReplay(t, a, policy, now).Changed?
    ensures a.id in RequestReplay(t, a, policy, now).tables.requests
    ensures Chained(RequestReplay(t, a, policy, now).tables, a.id)
  {
    hide Single, IsLatest, AllowedDecisions, Chained;
    assert DecisionOk(t, a.approval);
    SameLatest(t, RequestReplay(t, a, policy, now).tables, t.approvals[a.approval].proposal);
    var u := RequestReplay(t, a, policy, now).tables;
    ChainedBy(u, a.id);
  }

  lemma ChainedBy(t: Tables, id: nat)
    requires id in t.requests && t.requests[id].approval in t.approvals && DecisionOk(t, t.requests[id].approval)
    requires var r := t.requests[id]; var a := t.approvals[r.approval]; var p := t.proposals[a.proposal];
      && a.decision == Approve && a.caseId == r.caseId && a.owner == r.owner && a.approvedBy == r.approvedBy
      && IsLatest(t, a.proposal) && p.version == r.version
      && p.status == Policy.RequiresApproval && p.disposition == Policy.ReplayCandidate
      && r.evidenceHash == p.evidenceHash && r.expiresAt <= a.expiresAt && r.generation == 1 && r.binding.execution.Some?
    ensures Chained(t, id)
  {
    hide IsLatest, AllowedDecisions;
  }

  /** The executions of requests differ, because each is of the first generation and that pair is unique. */
  lemma NewTarget(t: Tables, a: Ask, policy: Policy.Evaluation, now: Time)
    requires Inv(t) && RequestReplay(t, a, policy, now).Changed?
    ensures a.id !in t.requests
    ensures forall q :: q in t.requests ==> !SameTarget(t.requests[q], RequestReplay(t, a, policy, now).tables.requests[a.id])
  {
    hide Single, IsLatest, AllowedDecisions, Validate;
    forall q | q in t.requests ensures !SameTarget(t.requests[q], RequestReplay(t, a, policy, now).tables.requests[a.id]) {
      assert Chained(t, q);
      assert !Overlaps(t.requests[q], q, a);
    }
  }

  lemma RequestKeeps(t: Tables, a: Ask, policy: Policy.Evaluation, now: Time)
    requires Inv(t)
    ensures Inv(Answered(t, RequestReplay(t, a, policy, now)))
  {
    hide Inv, Validate, Chained, SameTarget;
    if RequestReplay(t, a, policy, now).Changed? {
      NewRequestChained(t, a, policy, now);
      NewTarget(t, a, policy, now);
      NewRequestKeeps(t, a.id, RequestReplay(t, a, policy, now).tables.requests[a.id]);
    }
  }

  lemma ApplyKeeps(t: Tables, s: Step)
    requires Inv(t)
    ensures Inv(Apply(t, s))
  {
    hide Submit, Decide, RequestReplay, Single;
    match s
    case SubmitProposal(id, submission, policy, now) => SubmitKeeps(t, id, submission, policy, now);
    case MakeDecision(choice, policy, now) => DecideKeeps(t, choice, policy, now);
    case AskForReplay(ask, policy, now) => RequestKeeps(t, ask, policy, now);
    case _ => SameRecords(t, Apply(t, s));
  }

  lemma SameRecords(t: Tables, u: Tables)
    requires Inv(t) && u.proposals == t.proposals && u.approvals == t.approvals && u.requests == t.requests
    ensures Inv(u)
  {
    forall a | a in u.approvals ensures DecisionOk(u, a) { assert DecisionOk(t, a); }
    forall r | r in u.requests ensures Chained(u, r) { assert Chained(t, r); }
  }

  lemma {:induction false} RunKeeps(t: Tables, steps: seq<Step>)
    requires Inv(t)
    ensures Inv(Run(t, steps))
  {
    hide Inv, Apply;
    if steps != [] {
      RunKeeps(t, steps[..|steps| - 1]);
      ApplyKeeps(Run(t, steps[..|steps| - 1]), steps[|steps| - 1]);
    }
  }

  lemma EmptyOk()
    ensures Inv(EMPTY)
  {
  }

  /** Whatever operators, owners and investigations do, in any order: each request hangs on one approve decision on the
      latest version of the proposal for its case and owner; no approval, case or execution has two requests; no proposal
      has two decisions, and each is one it admitted. */
  lemma AuthorityChain(steps: seq<Step>)
    ensures var t := Run(EMPTY, steps);
      && (forall id :: id in t.requests ==> Chained(t, id))
      && (forall id :: id in t.approvals ==> DecisionOk(t, id))
      && Single(t)
  {
    hide Run, Chained, DecisionOk, Single;
    EmptyOk();
    RunKeeps(EMPTY, steps);
  }

  // ----- exactly when each of the three is accepted -----

  predicate HasProposal(t: Tables, investigation: nat) {
    exists p | p in t.proposals :: t.proposals[p].investigation == investigation
  }

  /** A proposal is added exactly by an operator, for the case's owner, to an investigation without one; with the policy's
      status, for two days. */
  lemma SubmitExactly(t: Tables, id: nat, s: Submission, policy: Policy.Evaluation, now: Time)
    requires Inv(t)
    ensures Submit(t, id, s, policy, now).Changed? <==>
      && s.actor in t.operators && s.caseId in t.cases && t.cases[s.caseId].owner == s.owner
      && !HasProposal(t, s.investigation) && policy.Decided? && id !in t.proposals
    ensures Submit(t, id, s, policy, now).Changed? ==>
      Submit(t, id, s, policy, now).tables == t.(proposals := t.proposals[id := Proposal(
        s.investigation, s.caseId, s.owner, s.disposition, policy.verdict.status, now + 172_800_000, 1, s.evidenceHash)])
    ensures Submit(t, id, s, policy, now).Repeated? <==>
      && s.actor in t.operators && s.caseId in t.cases && t.cases[s.caseId].owner == s.owner
      && exists p :: p in t.proposals && t.proposals[p].investigation == s.investigation && t.proposals[p].evidenceHash == s.evidenceHash
  {
    hide DecisionOk, Chained;
    forall p | p in t.proposals && t.proposals[p].investigation == s.investigation && t.proposals[p].evidenceHash == s.evidenceHash
      ensures Repeats(t, p, s)
    {
      OnlyProposalIsLatest(t, p);
    }
  }

  lemma OnlyProposalIsLatest(t: Tables, p: nat)
    requires Single(t) && p in t.proposals
    ensures IsLatest(t, p)
  {
  }

  /** A choice fits its proposal, and its operator may still decide. */
  predicate FitsProposal(t: Tables, c: Choice) {
    && c.proposal in t.proposals && c.actor in t.operators
    && var p := t.proposals[c.proposal];
    && p.investigation == c.investigation && p.caseId == c.caseId && p.owner == c.owner
    && c.caseId in t.cases && t.cases[c.caseId].owner == p.owner && (c.version.None? || c.version.value == p.version)
  }

  /** A decision is recorded exactly once, before the proposal expires, and exactly in five cases: a candidate that requires
      approval is approved while the policy says so, or rejected; each other disposition has the one decision that answers
      it. */
  lemma DecideExactly(t: Tables, c: Choice, policy: Policy.Evaluation, now: Time)
    requires Inv(t) && FitsProposal(t, c)
    ensures var p := t.proposals[c.proposal];
      Decide(t, c, policy, now).Changed? <==>
        && (forall a :: a in t.approvals ==> t.approvals[a].proposal != c.proposal)
        && now < p.expiresAt && c.decisionId !in t.approvals
        && (|| (p.disposition == Policy.ReplayCandidate && p.status == Policy.RequiresApproval && c.decision == Approve
                && policy.Decided? && policy.verdict.status == Policy.RequiresApproval)
            || (p.disposition == Policy.ReplayCandidate && p.status == Policy.RequiresApproval && c.decision == Reject)
            || (p.disposition == Policy.OwnerActionRequired && c.decision == MarkOwnerAction)
            || (p.disposition == Policy.EngineeringEscalationRequired && c.decision == EscalateToEngineering)
            || (p.disposition == Policy.ResolvedWithoutReplay && c.decision == ResolveWithoutReplay))
    ensures Decide(t, c, policy, now).Changed? ==>
      var p := t.proposals[c.proposal];
      Decide(t, c, policy, now).tables == t.(approvals := t.approvals[c.decisionId := Approval(
        c.proposal, p.caseId, p.owner, c.actor, c.decision, p.version, p.expiresAt)])
    ensures Decide(t, c, policy, now).Repeated? <==>
      && c.decisionId in t.approvals && t.approvals[c.decisionId].proposal == c.proposal
      && t.approvals[c.decisionId].decision == c.decision && t.approvals[c.decisionId].approvedBy == c.actor
  {
    hide DecisionOk, Chained;
    OnlyProposalIsLatest(t, c.proposal);
  }

  /** A choice that does not fit its proposal is refused: with the first of these reasons that holds. */
  lemma MisfitsAreDenied(t: Tables, c: Choice, policy: Policy.Evaluation, now: Time)
    requires Inv(t) && c.proposal in t.proposals && !FitsProposal(t, c)
    ensures var p := t.proposals[c.proposal];
      Decide(t, c, policy, now) == Denied(
        if p.investigation != c.investigation || p.caseId != c.caseId || p.owner != c.owner then BindingMismatch
        else if c.actor !in t.operators then PermissionRevoked
        else if c.caseId !in t.cases || t.cases[c.caseId].owner != c.owner then CaseBindingChanged
        else StaleVersion)
  {
  }

  /** A choice that fits is refused, unless it repeats the recorded decision, with the first of these reasons that holds. */
  lemma FittingChoicesAreDenied(t: Tables, c: Choice, policy: Policy.Evaluation, now: Time)
    requires Inv(t) && FitsProposal(t, c) && Decide(t, c, policy, now).Denied?
    ensures Decide(t, c, policy, now).why ==
      if exists a :: a in t.approvals && t.approvals[a].proposal == c.proposal then AlreadyDecided
      else if t.proposals[c.proposal].expiresAt <= now then Expired
      else if c.decision == Approve && !(policy.Decided? && policy.verdict.status == Policy.RequiresApproval) then PolicyBlocks
      else if c.decisionId in t.approvals && c.decision in AllowedDecisions(t.proposals[c.proposal]) then Constraint
      else DecisionConflicts
  {
    OnlyProposalIsLatest(t, c.proposal);
  }

  /** An ask that fits an approve decision, its case and its owner, with both operators still in office and the failed
      execution still known. */
  predicate FitsApproval(t: Tables, a: Ask) {
    && a.approval in t.approvals && t.approvals[a.approval].decision == Approve
    && var approval := t.approvals[a.approval];
    && {a.actor, approval.approvedBy} <= t.operators
    && approval.caseId == a.caseId && approval.owner == a.owner && approval.version == a.version
    && a.caseId in t.cases && t.cases[a.caseId].owner == a.owner && t.cases[a.caseId].execution.Some?
  }

  /** Neither its id, its approval, its case nor its execution has a request. */
  predicate Unused(t: Tables, a: Ask)
    requires a.caseId in t.cases
  {
    forall r | r in t.requests ::
      && r != a.id && t.requests[r].approval != a.approval && t.requests[r].caseId != a.caseId
      && t.requests[r].binding.execution != t.cases[a.caseId].execution
  }

  /** A replay is requested exactly on a fitting approve decision nobody used, before the decision expires, with a policy
      that requires approval and names the call. */
  lemma RequestExactly(t: Tables, a: Ask, policy: Policy.Evaluation, now: Time)
    requires Inv(t)
    ensures RequestReplay(t, a, policy, now).Changed? <==>
      && FitsApproval(t, a) && Unused(t, a) && now < t.approvals[a.approval].expiresAt
      && policy.Decided? && policy.verdict.status == Policy.RequiresApproval && policy.verdict.notBefore.Some?
      && policy.verdict.actionFingerprint.Some? && policy.verdict.requestFingerprint.Some? && policy.verdict.handlerVersion.Some?
    ensures RequestReplay(t, a, policy, now).Changed? ==>
      var approval := t.approvals[a.approval];
      RequestReplay(t, a, policy, now).tables == t.(requests := t.requests[a.id := Request(
        a.approval, a.caseId, a.owner, approval.approvedBy, a.actor, a.version, t.cases[a.caseId], 1,
        policy.verdict.actionFingerprint.value, policy.verdict.requestFingerprint.value, policy.verdict.handlerVersion.value,
        t.proposals[approval.proposal].evidenceHash, policy.verdict.notBefore.value, approval.expiresAt)])
    ensures RequestReplay(t, a, policy, now).Repeated? <==>
      && FitsApproval(t, a) && a.id in t.requests
      && var r := t.requests[a.id];
      && r.approval == a.approval && r.caseId == a.caseId && r.owner == a.owner && r.requestedBy == a.actor && r.version == a.version
  {
    hide Chained, Single;
    if a.approval in t.approvals {
      assert DecisionOk(t, a.approval);
      OnlyProposalIsLatest(t, t.approvals[a.approval].proposal);
    }
    forall r | r in t.requests ensures t.requests[r].generation == 1 && RestsOnApproval(t, r) { FirstGeneration(t, r); }
  }

  lemma FirstGeneration(t: Tables, r: nat)
    requires Inv(t) && r in t.requests
    ensures t.requests[r].generation == 1 && RestsOnApproval(t, r)
  {
    assert Chained(t, r);
  }

  predicate RestsOnApproval(t: Tables, r: nat)
    requires r in t.requests
  {
    t.requests[r].approval in t.approvals && t.approvals[t.requests[r].approval].decision == Approve
  }

  /** A submission that is not taken is refused with the first of these reasons that holds. */
  lemma SubmissionsAreDenied(t: Tables, id: nat, s: Submission, policy: Policy.Evaluation, now: Time)
    requires Inv(t) && Submit(t, id, s, policy, now).Denied?
    ensures Submit(t, id, s, policy, now).why ==
      if s.actor !in t.operators then PermissionRevoked
      else if s.caseId !in t.cases || t.cases[s.caseId].owner != s.owner then CaseBindingChanged
      else if HasProposal(t, s.investigation) then EvidenceConflict
      else if policy.RangeError? then RangeError else Constraint
  {
  }

  /** And an ask for a replay. */
  lemma AsksAreDenied(t: Tables, a: Ask, policy: Policy.Evaluation, now: Time)
    requires Inv(t) && RequestReplay(t, a, policy, now).Denied?
    ensures RequestReplay(t, a, policy, now).why ==
      if a.actor !in t.operators then PermissionRevoked
      else if a.approval !in t.approvals then BindingMismatch
      else
        var approval := t.approvals[a.approval];
        if approval.caseId != a.caseId || approval.owner != a.owner then BindingMismatch
        else if approval.approvedBy !in t.operators then PermissionRevoked
        else if approval.version != a.version then StaleVersion
        else if a.caseId !in t.cases || t.cases[a.caseId].owner != a.owner || t.cases[a.caseId].execution.None? then CaseBindingChanged
        else if exists r :: r in t.requests && (r == a.id || t.requests[r].approval == a.approval || t.requests[r].caseId == a.caseId)
        then ApprovalConsumed
        else if approval.decision != Approve then ApprovalRequired
        else if approval.expiresAt <= now then Expired
        else if !Names(policy) then PolicyBlocks else Constraint
  {
    hide Chained;
    if a.approval in t.approvals {
      assert DecisionOk(t, a.approval);
      OnlyProposalIsLatest(t, t.approvals[a.approval].proposal);
    }
  }

  /** A request under an id, an approval or a case that was used before writes nothing: the very same request is answered
      again, every other one is refused. */
  lemma RequestsAreSingleUse(t: Tables, r: nat, a: Ask, policy: Policy.Evaluation, now: Time)
    requires Inv(t) && r in t.requests && Overlaps(t.requests[r], r, a)
    ensures Apply(t, AskForReplay(a, policy, now)) == t
    ensures SameRequest(t.requests[r], r, a) && Validate(t, a).None? ==> RequestReplay(t, a, policy, now) == Repeated
    ensures !SameRequest(t.requests[r], r, a) ==> RequestReplay(t, a, policy, now).Denied?
  {
    hide Validate, Chained, DecisionOk;
    if q :| q in t.requests && SameRequest(t.requests[q], q, a) {
      assert SameTarget(t.requests[q], t.requests[r]) || q == r;
    }
  }

  /** A decision on a decided proposal writes nothing: the very same decision is answered again, every other is refused. */
  lemma DecisionsAreFinal(t: Tables, d: nat, c: Choice, policy: Policy.Evaluation, now: Time)
    requires Inv(t) && d in t.approvals && t.approvals[d].proposal == c.proposal
    ensures Apply(t, MakeDecision(c, policy, now)) == t
    ensures !SameDecision(t.approvals[d], d, c) ==> Decide(t, c, policy, now).Denied?
    ensures SameDecision(t.approvals[d], d, c) && Decide(t, c, policy, now).Denied? ==>
      Decide(t, c, policy, now).why in {BindingMismatch, PermissionRevoked, CaseBindingChanged, StaleVersion}
  {
    assert forall a :: a in t.approvals && t.approvals[a].proposal == c.proposal ==> a == d;
  }

  /** Nothing once decided or requested is ever changed or withdrawn. */
  ghost predicate Kept(t: Tables, u: Tables) {
    && (forall p :: p in t.proposals ==> p in u.proposals && u.proposals[p] == t.proposals[p])
    && (forall a :: a in t.approvals ==> a in u.approvals && u.approvals[a] == t.approvals[a])
    && (forall r :: r in t.requests ==> r in u.requests && u.requests[r] == t.requests[r])
  }

  lemma StepKeepsRecords(t: Tables, s: Step)
    ensures Kept(t, Apply(t, s))
  {
    hide Validate, IsLatest;
  }

  lemma {:induction false} RecordsAreImmutable(t: Tables, steps: seq<Step>)
    ensures Kept(t, Run(t, steps))
  {
    hide Apply;
    if steps != [] {
      RecordsAreImmutable(t, steps[..|steps| - 1]);
      StepKeepsRecords(Run(t, steps[..|steps| - 1]), steps[|steps| - 1]);
    }
  }

  /** A candidate proposed while its cooldown was still running was stored as blocked, and stays so: it can never be
      approved, neither then nor when the cooldown is long over, and a new proposal of the same investigation is not taken. */
  lemma CooldownProposalIsNeverApproved(t: Tables, steps: seq<Step>, id: nat, c: Choice, policy: Policy.Evaluation, now: Time)
    requires id in t.proposals && t.proposals[id].disposition == Policy.ReplayCandidate
    requires t.proposals[id].status != Policy.RequiresApproval
    requires c.proposal == id
    ensures !Decide(Run(t, steps), c, policy, now).Changed?
    ensures forall s: Submission, other: nat, p: Policy.Evaluation ::
      s.investigation == t.proposals[id].investigation ==> !Submit(Run(t, steps), other, s, p, now).Changed?
  {
    hide Run;
    RecordsAreImmutable(t, steps);
  }

  /** Somebody approves a proposal at some later moment, on what the policy then says of the facts. */
  ghost predicate Approves(t: Tables, steps: seq<Step>, id: nat, c: Choice, facts: Policy.Facts, later: Time) {
    c.proposal == id && c.decision == Approve && Decide(Run(t, steps), c, Policy.Evaluate(facts, later), later).Changed?
  }

  /** When a candidate that meets every other condition is proposed, whether it can ever be approved is decided at that
      moment: it can, whoever tries and whatever happens until then, exactly when its cooldown is over already. */
  lemma ApprovableExactly(t: Tables, id: nat, s: Submission, facts: Policy.Facts, now: Time)
    requires Inv(t) && Policy.Grounded(facts) && s.disposition == Policy.ReplayCandidate
    requires Submit(t, id, s, Policy.Evaluate(facts, now), now).Changed?
    ensures (exists steps, c, later: Time :: Approves(Submit(t, id, s, Policy.Evaluate(facts, now), now).tables, steps, id, c, facts, later))
      <==> Policy.NotBefore(facts.attempts) <= now
  {
    hide Inv;
    var u := Submit(t, id, s, Policy.Evaluate(facts, now), now).tables;
    Policy.RequiresApprovalExactly(facts, now);
    if Policy.NotBefore(facts.attempts) <= now {
      var d := FreshId(u.approvals.Keys);
      var c := Choice(id, None, s.investigation, s.caseId, s.owner, s.actor, d, Approve);
      RipeProposalIsApproved(t, id, s, facts, now, c, now);
      assert Run(u, []) == u;
      assert Approves(u, [], id, c, facts, now);
    } else {
      forall steps, c, later: Time ensures !Approves(u, steps, id, c, facts, later) {
        if c.proposal == id { CooldownProposalIsNeverApproved(u, steps, id, c, Policy.Evaluate(facts, later), later); }
      }
    }
  }

  /** A candidate proposed after its cooldown is approved by any operator throughout the two days of the proposal. */
  lemma RipeProposalIsApproved(t: Tables, id: nat, s: Submission, facts: Policy.Facts, now: Time, c: Choice, later: Time)
    requires Inv(t) && Policy.Grounded(facts) && s.disposition == Policy.ReplayCandidate
    requires Submit(t, id, s, Policy.Evaluate(facts, now), now).Changed?
    requires Policy.NotBefore(facts.attempts) <= now <= later < now + PROPOSAL_LIFETIME_MS
    requires c.proposal == id && c.investigation == s.investigation && c.caseId == s.caseId && c.owner == s.owner
    requires c.actor in t.operators && c.version in {None, Some(1)} && c.decision == Approve && c.decisionId !in t.approvals
    ensures Decide(Submit(t, id, s, Policy.Evaluate(facts, now), now).tables, c, Policy.Evaluate(facts, later), later).Changed?
  {
    hide Policy.Evaluate, Policy.Answers;
    Policy.RequiresApprovalExactly(facts, now);
    Policy.RequiresApprovalExactly(facts, later);
    assert Policy.Evaluate(facts, later).Decided? by { EvaluationIsDecided(facts, now, later); }
    forall a | a in t.approvals ensures t.approvals[a].proposal != id { assert DecisionOk(t, a); }
    var u := Submit(t, id, s, Policy.Evaluate(facts, now), now).tables;
    assert u.proposals[id].status == Policy.RequiresApproval;
    assert Allows(Policy.Evaluate(facts, later));
    assert IsLatest(u, id);
  }

  /** Whether the policy answers at all depends on the cooldown, not on the moment. */
  lemma EvaluationIsDecided(facts: Policy.Facts, now: int, later: int)
    ensures Policy.Evaluate(facts, now).Decided? <==> Policy.Evaluate(facts, later).Decided?
  {
    hide Policy.Reasons;
  }

  lemma {:induction false} FreshId(ids: set<nat>) returns (unused: nat)
    ensures forall id :: id in ids ==> id < unused
  {
    if ids == {} { return 0; }
    var id :| id in ids;
    unused := FreshId(ids - {id});
    if unused <= id { unused := id + 1; }
    assert forall other :: other in ids && other != id ==> other in ids - {id};
  }

  const RATE_LIMITED := Policy.AttemptFact(Rejected, Some(Telegram), Some(Send), Some(429), Some(Policy.Whole(60)), Policy.At(1_000))

  const COOLING := Policy.Facts(
    Policy.ReplayCandidate, Policy.WaitThenReplay, Policy.F01, Policy.RetryRow, Policy.Captured, true,
    Some(Telegram), Some(Send), Some(TELEGRAM_RATE_LIMITED), Some(429), Some(Rejected), [RATE_LIMITED], false,
    Some(Policy.StateFailed), None, true, true, false, false, 0, true, Some(11), Some(12), Some(11), Some(12), Some(13), Some(13))

  const STAFFED := Tables({5}, map[7 := Binding(2, 3, 0, Some(4))], map[], map[], map[])

  const PROPOSED := Submission(5, 8, 7, 2, 21, Policy.ReplayCandidate)

  /** The provider asked for a minute's wait. The candidate is proposed at once, and no decision on it is taken after the
      minute or at any other time; proposed a minute later, it is approved. */
  lemma ProposedTooEarly(steps: seq<Step>, c: Choice, policy: Policy.Evaluation, at: Time)
    ensures STAFFED == Run(EMPTY, [Promote(5), Bind(7, Binding(2, 3, 0, Some(4)))])
    ensures Policy.Grounded(COOLING) && 1_000 < Policy.NotBefore(COOLING.attempts) == 61_000 <= Policy.MAX_DATE_MS
    ensures var r := Submit(STAFFED, 9, PROPOSED, Policy.Evaluate(COOLING, 1_000), 1_000);
      && r.Changed? && r.tables.proposals[9].status == Policy.Blocked
      && (c.proposal == 9 ==> !Decide(Run(r.tables, steps), c, policy, at).Changed?)
    ensures var r := Submit(STAFFED, 9, PROPOSED, Policy.Evaluate(COOLING, 61_000), 61_000);
      && r.Changed?
      && Decide(r.tables, Choice(9, Some(1), 8, 7, 2, 5, 10, Approve), Policy.Evaluate(COOLING, 61_000), 61_000).Changed?
  {
    hide Run, Policy.Evaluate, Policy.Reasons;
    Staffed();
    assert Policy.Grounded(COOLING);
    Policy.RequiresApprovalExactly(COOLING, 1_000);
    Policy.RequiresApprovalExactly(COOLING, 61_000);
    var r := Submit(STAFFED, 9, PROPOSED, Policy.Evaluate(COOLING, 1_000), 1_000);
    if c.proposal == 9 { CooldownProposalIsNeverApproved(r.tables, steps, 9, c, policy, at); }
    RipeProposalIsApproved(STAFFED, 9, PROPOSED, COOLING, 61_000, Choice(9, Some(1), 8, 7, 2, 5, 10, Approve), 61_000);
  }

  lemma Staffed()
    ensures STAFFED == Run(EMPTY, [Promote(5), Bind(7, Binding(2, 3, 0, Some(4)))])
    ensures Inv(STAFFED)
  {
    var steps := [Promote(5), Bind(7, Binding(2, 3, 0, Some(4)))];
    assert steps[..1] == [Promote(5)] && steps[..1][..0] == [];
    assert Run(EMPTY, steps[..1]) == Apply(EMPTY, Promote(5));
  }

  lemma RunMore(t: Tables, steps: seq<Step>, s: Step)
    ensures Run(t, steps + [s]) == Apply(Run(t, steps), s)
  {
    assert (steps + [s])[..|steps|] == steps;
  }

  /** From nothing to a replay: an operator, a case, a candidate past its cooldown, its approval and the request. */
  lemma ChainHappens()
    ensures var ripe := Policy.Evaluate(COOLING, 61_000);
      var steps := [Promote(5), Bind(7, Binding(2, 3, 0, Some(4)))] + [SubmitProposal(9, PROPOSED, ripe, 61_000)]
        + [MakeDecision(Choice(9, Some(1), 8, 7, 2, 5, 10, Approve), ripe, 61_000)] + [AskForReplay(Ask(1, 10, 7, 2, 5, 1), ripe, 61_000)];
      var t := Run(EMPTY, steps);
      && t.proposals.Keys == {9} && t.approvals.Keys == {10} && t.requests.Keys == {1}
      && t.requests[1] == Request(10, 7, 2, 5, 5, 1, Binding(2, 3, 0, Some(4)), 1, 11, 12, 13, 21, 61_000, 172_861_000)
  {
    hide Run, Policy.Evaluate, Policy.Reasons, Submit, Decide, RequestReplay, Single, Chained, DecisionOk;
    var ripe := Policy.Evaluate(COOLING, 61_000);
    var choice, ask := Choice(9, Some(1), 8, 7, 2, 5, 10, Approve), Ask(1, 10, 7, 2, 5, 1);
    Staffed();
    Policy.RequiresApprovalExactly(COOLING, 61_000);
    assert Policy.Grounded(COOLING) && ripe.Decided? && ripe.verdict.status == Policy.RequiresApproval;
    var opening := [Promote(5), Bind(7, Binding(2, 3, 0, Some(4)))];
    RunMore(EMPTY, opening, SubmitProposal(9, PROPOSED, ripe, 61_000));
    SubmitExactly(STAFFED, 9, PROPOSED, ripe, 61_000);
    ApplyKeeps(STAFFED, SubmitProposal(9, PROPOSED, ripe, 61_000));
    var proposed := Apply(STAFFED, SubmitProposal(9, PROPOSED, ripe, 61_000));
    RunMore(EMPTY, opening + [SubmitProposal(9, PROPOSED, ripe, 61_000)], MakeDecision(choice, ripe, 61_000));
    DecideExactly(proposed, choice, ripe, 61_000);
    ApplyKeeps(proposed, MakeDecision(choice, ripe, 61_000));
    var approved := Apply(proposed, MakeDecision(choice, ripe, 61_000));
    RunMore(EMPTY, opening + [SubmitProposal(9, PROPOSED, ripe, 61_000)] + [MakeDecision(choice, ripe, 61_000)],
            AskForReplay(ask, ripe, 61_000));
    RequestExactly(approved, ask, ripe, 61_000);
  }

  /** A request made on what the policy says of some facts is ripe and not over: its window contains that instant. */
  lemma RequestsAreRipe(t: Tables, a: Ask, facts: Policy.Facts, now: Time)
    requires RequestReplay(t, a, Policy.Evaluate(facts, now), now).Changed?
    ensures var r := RequestReplay(t, a, Policy.Evaluate(facts, now), now).tables.requests[a.id];
      r.notBefore <= now < r.expiresAt && Policy.Grounded(facts) && r.notBefore == Policy.NotBefore(facts.attempts)
  {
    hide Validate, Policy.Reasons;
    Policy.RequiresApprovalExactly(facts, now);
  }

  /** A permission that is withdrawn counts at once: who is no operator any more decides and requests nothing, and no replay
      that was approved or requested by that person is authorized. */
  lemma RevocationStops(t: Tables, user: nat, c: Choice, a: Ask, policy: Policy.Evaluation, now: Time,
                        r: nat, run: nat, stage: nat, handlerVersion: Option<Hash>)
    ensures var u := Apply(t, Demote(user));
      && (c.actor == user ==> Decide(u, c, policy, now).Denied?)
      && (a.actor == user ==> RequestReplay(u, a, policy, now).Denied?)
      && (r in t.requests && user in {t.requests[r].approvedBy, t.requests[r].requestedBy} ==>
           !StillAuthorized(u, r, run, stage, handlerVersion, now))
      && u.proposals == t.proposals && u.approvals == t.approvals && u.requests == t.requests && u.operators == t.operators - {user}
  {
  }

  /** What a worker checks when it claims is what was bound when the replay was requested, read again. The bindings on
      record cannot have changed: only permissions, ownership, time and the handler can have. */
  lemma StillAuthorizedExactly(t: Tables, id: nat, run: nat, stage: nat, handlerVersion: Option<Hash>, at: Time)
    requires Inv(t) && id in t.requests
    ensures StillAuthorized(t, id, run, stage, handlerVersion, at) <==>
      (var r := t.requests[id];
       && r.approvedBy in t.operators && r.requestedBy in t.operators
       && r.caseId in t.cases && t.cases[r.caseId] == Binding(r.owner, run, stage, r.binding.execution)
       && at < r.expiresAt && handlerVersion == Some(r.handlerVersion))
  {
    assert Chained(t, id);
  }
}

/** The investigation queue: jobs under leases, three attempts each, reservations against sliding budgets, snapshots. */
module Investigations {
  import opened Domain

  const DAY_MS := 86_400_000
  const LEASE_MS := 90_000
  const MAX_ATTEMPTS := 3

  datatype Decision = Approve | Reject | OwnerAction | Escalate | Resolve | BlockedByPolicy

  datatype Status = Queued | Investigating | Proposed | Errored | Decided(decision: Decision)

  /** Whom and what an investigation is about. */
  datatype Binding = Binding(caseId: nat, run: nat, stage: nat, owner: nat, actor: nat, operator: nat)

  /** A row of the investigation table with the event rows its triggers append: one per status change. */
  datatype Job = Job(
    binding: Binding,
    key: nat,
    status: Status,
    history: seq<Status>,
    token: Option<nat>,
    leaseUntil: Option<Time>,
    attempts: nat,
    createdAt: Time,
    decisionId: Option<nat>)

  /** A row of the budget table: what one claim reserved, for whom, and when. */
  datatype Reservation = Reservation(job: nat, owner: nat, actor: nat, tokens: nat, cents: nat, at: Time)

  /** A reservation of the development evaluation, which shares the allowance. */
  datatype Outside = Outside(tokens: nat, cents: nat, at: Time)

  datatype Limits = Limits(
    maxConcurrency: nat, ownerConcurrency: nat, operatorConcurrency: nat,
    tokensPerAttempt: nat, centsPerAttempt: nat,
    ownerTokens: nat, operatorTokens: nat, ownerCents: nat, operatorCents: nat,
    ownerRequests: nat, operatorRequests: nat)

  datatype Tables = Tables(jobs: map<nat, Job>, budget: seq<Reservation>, snapshots: map<nat, Hash>, outside: seq<Outside>)

  datatype Who = Anyone | Owner(id: nat) | Operator(id: nat)

  datatype Unit = Tokens | Cents

  predicate Active(s: Status) {
    s == Queued || s == Investigating || s == Proposed
  }

  /** The row after a status change, with the event the triggers append. */
  function Moved(j: Job, status: Status): Job {
    j.(status := status, history := if status == j.status then j.history else j.history + [status])
  }

  // ----- sums and counts -----

  predicate For(who: Who, owner: nat, actor: nat) {
    who.Anyone? || who == Owner(owner) || who == Operator(actor)
  }

  function Amount(r: Reservation, unit: Unit): nat {
    if unit == Tokens then r.tokens else r.cents
  }

  function OutsideAmount(r: Outside, unit: Unit): nat {
    if unit == Tokens then r.tokens else r.cents
  }

  /** What was reserved for someone after one instant and not after another. */
  function Reserved(rs: seq<Reservation>, who: Who, unit: Unit, after: int, until: Option<int>): nat {
    if rs == [] then 0
    else
      var r := rs[|rs| - 1];
      Reserved(rs[..|rs| - 1], who, unit, after, until)
      + if For(who, r.owner, r.actor) && r.at > after && (until.None? || r.at <= until.value) then Amount(r, unit) else 0
  }

  function ReservedOutside(rs: seq<Outside>, unit: Unit, after: int, until: Option<int>): nat {
    if rs == [] then 0
    else
      var r := rs[|rs| - 1];
      ReservedOutside(rs[..|rs| - 1], unit, after, until)
      + if r.at > after && (until.None? || r.at <= until.value) then OutsideAmount(r, unit) else 0
  }

  predicate LiveJob(j: Job, now: Time) {
    j.status == Investigating && j.leaseUntil.Some? && j.leaseUntil.value > now
  }

  function Live(t: Tables, who: Who, now: Time): set<nat> {
    set id | id in t.jobs && LiveJob(t.jobs[id], now) && For(who, t.jobs[id].binding.owner, t.jobs[id].binding.actor)
  }

  // ----- transactions -----

  predicate Exhausted(j: Job, now: Time) {
    j.status == Investigating && j.leaseUntil.Some? && j.leaseUntil.value < now && j.attempts >= MAX_ATTEMPTS
  }

  /** Jobs whose last attempt let its lease run out end in error. */
  function ExpireExhausted(t: Tables, now: Time): Tables {
    t.(jobs := map id | id in t.jobs ::
      if Exhausted(t.jobs[id], now) then Released(t.jobs[id], Errored) else t.jobs[id])
  }

  function Released(j: Job, status: Status): Job {
    Moved(j, status).(token := None, leaseUntil := None)
  }

  predicate Fits(t: Tables, who: Who, unit: Unit, now: Time, amount: nat, limit: nat) {
    Reserved(t.budget, who, unit, now - DAY_MS, None) + ReservedOutside(t.outside, unit, now - DAY_MS, None) + amount <= limit
  }

  predicate Claimable(j: Job, now: Time) {
    && (j.status == Queued || (j.status == Investigating && j.leaseUntil.Some? && j.leaseUntil.value < now))
    && j.attempts < MAX_ATTEMPTS
  }

  /** The job may be claimed now: it waits, has attempts left, and every cap and budget has room for it. */
  predicate Eligible(t: Tables, l: Limits, id: nat, now: Time) {
    && id in t.jobs && Claimable(t.jobs[id], now)
    && var o, a := Owner(t.jobs[id].binding.owner), Operator(t.jobs[id].binding.actor);
    && |Live(t, o, now)| < l.ownerConcurrency
    && |Live(t, a, now)| < l.operatorConcurrency
    && Fits(t, o, Tokens, now, l.tokensPerAttempt, l.ownerTokens)
    && Fits(t, a, Tokens, now, l.tokensPerAttempt, l.operatorTokens)
    && Fits(t, o, Cents, now, l.centsPerAttempt, l.ownerCents)
    && Fits(t, a, Cents, now, l.centsPerAttempt, l.operatorCents)
  }

  /** One claim: the job under a fresh lease and what its attempt may cost, reserved for good. */
  function Take(t: Tables, l: Limits, id: nat, token: nat, now: Time): Tables
    requires id in t.jobs
  {
    var j := t.jobs[id];
    t.(jobs := t.jobs[id := Moved(j, Investigating).(
         token := Some(token), leaseUntil := Some(now + LEASE_MS), attempts := j.attempts + 1)],
       budget := t.budget + [Reservation(id, j.binding.owner, j.binding.actor, l.tokensPerAttempt, l.centsPerAttempt, now)])
  }

  function ClaimNext(t: Tables, l: Limits, choice: Option<nat>, token: nat, now: Time): Tables {
    var u := ExpireExhausted(t, now);
    if |Live(u, Anyone, now)| >= l.maxConcurrency || choice.None? || !Eligible(u, l, choice.value, now) then u
    else Take(u, l, choice.value, token, now)
  }

  predicate OwnsLease(t: Tables, id: nat, token: nat, now: Time) {
    id in t.jobs && t.jobs[id].token == Some(token) && LiveJob(t.jobs[id], now)
  }

  /** The owner's snapshot and the proposal; the snapshot table admits one row per investigation. */
  function Finish(t: Tables, id: nat, token: nat, content: Hash, now: Time): Tx<Tables> {
    if !OwnsLease(t, id, token, now) then Stale
    else if id in t.snapshots then ConstraintError
    else Committed(t.(jobs := t.jobs[id := Released(t.jobs[id], Proposed)], snapshots := t.snapshots[id := content]))
  }

  /** The owner gives up; neither the status nor the lease is looked at. */
  function Fail(t: Tables, id: nat, token: nat): Tx<Tables> {
    if id !in t.jobs || t.jobs[id].token != Some(token) then Stale
    else Committed(t.(jobs := t.jobs[id := Released(t.jobs[id], Errored)]))
  }

  function ApplyDecision(t: Tables, id: nat, caseId: nat, owner: nat, decisionId: nat, decision: Decision): Tx<Tables> {
    if id !in t.jobs || t.jobs[id].binding.caseId != caseId || t.jobs[id].binding.owner != owner
      || t.jobs[id].status != Proposed || t.jobs[id].decisionId.Some? then Stale
    else if exists other | other in t.jobs :: t.jobs[other].decisionId == Some(decisionId) then ConstraintError
    else Committed(t.(jobs := t.jobs[id := Moved(t.jobs[id], Decided(decision)).(decisionId := Some(decisionId))]))
  }

  predicate SameRequest(j: Job, b: Binding, key: nat) {
    j.binding.actor == b.actor && j.binding.caseId == b.caseId && j.key == key
  }

  predicate ActiveFor(j: Job, caseId: nat) {
    j.binding.caseId == caseId && Active(j.status)
  }

  function RequestsSince(t: Tables, who: Who, after: int): nat {
    |set id | id in t.jobs && t.jobs[id].createdAt > after && For(who, t.jobs[id].binding.owner, t.jobs[id].binding.actor)|
    + |set i | 0 <= i < |t.outside| && t.outside[i].at > after|
  }

  predicate MayStart(t: Tables, l: Limits, b: Binding, now: Time) {
    && RequestsSince(t, Owner(b.owner), now - DAY_MS) < l.ownerRequests
    && RequestsSince(t, Operator(b.actor), now - DAY_MS) < l.operatorRequests
  }

  /** Why a request goes on to the insertion: its allowance was checked, or it was not, because the request is stored
      already or the case has an active investigation. */
  datatype Grounds = Checked | SawRequest(job: nat) | SawActive(job: nat)

  /** A request between its look-up and its insertion. */
  datatype Pending = Pending(id: nat, binding: Binding, key: nat, now: Time, grounds: Grounds)

  predicate Repeated(t: Tables, b: Binding, key: nat) {
    exists j | j in t.jobs :: SameRequest(t.jobs[j], b, key)
  }

  predicate Occupied(t: Tables, caseId: nat) {
    exists j | j in t.jobs :: ActiveFor(t.jobs[j], caseId)
  }

  /** What a look-up may find: it fails only when the allowance is looked at and used up. */
  predicate MayPend(t: Tables, l: Limits, p: Pending) {
    match p.grounds
    case SawRequest(j) => j in t.jobs && SameRequest(t.jobs[j], p.binding, p.key)
    case SawActive(j) => !Repeated(t, p.binding, p.key) && j in t.jobs && ActiveFor(t.jobs[j], p.binding.caseId)
    case Checked =>
      !Repeated(t, p.binding, p.key) && !Occupied(t, p.binding.caseId) && MayStart(t, l, p.binding, p.now)
  }

  /** No row stands in the way of the insertion. */
  predicate Free(t: Tables, id: nat, b: Binding, key: nat) {
    id !in t.jobs && !Repeated(t, b, key) && !Occupied(t, b.caseId)
  }

  /** The insertion: whatever was looked up before, it inserts exactly when no unique constraint forbids it. */
  function Enter(t: Tables, id: nat, b: Binding, key: nat, now: Time): Tables {
    if Free(t, id, b, key) then t.(jobs := t.jobs[id := Job(b, key, Queued, [Queued], None, None, 0, now, None)]) else t
  }

  // ----- what every row satisfies -----

  /** The shape of a row's life, read off its events. */
  ghost predicate HistoryOk(j: Job) {
    match j.status
    case Queued => j.history == [Queued]
    case Investigating => j.history == [Queued, Investigating]
    case Proposed => j.history == [Queued, Investigating, Proposed]
    case Errored => j.history == [Queued, Investigating, Errored]
    case Decided(d) => j.history == [Queued, Investigating, Proposed, Decided(d)]
  }

  ghost predicate JobOk(t: Tables, id: nat)
    requires id in t.jobs
  {
    var j := t.jobs[id];
    && HistoryOk(j)
    && j.attempts <= MAX_ATTEMPTS
    && (j.status == Queued <==> j.attempts == 0)
    && (j.status == Investigating <==> j.token.Some?)
    && (j.status == Investigating <==> j.leaseUntil.Some?)
    && (j.decisionId.Some? <==> j.status.Decided?)
    && (id in t.snapshots <==> Proposed in j.history)
  }

  /** How often each job was claimed, by its reservations. */
  function Claims(rs: seq<Reservation>): (m: multiset<nat>)
    ensures |m| == |rs|
  {
    if rs == [] then multiset{} else Claims(rs[..|rs| - 1]) + multiset{rs[|rs| - 1].job}
  }

  /** A reservation fit into the budgets over the day before it, on top of all earlier ones. */
  ghost predicate FitsBefore(t: Tables, l: Limits, i: int)
    requires 0 <= i < |t.budget|
  {
    var r, before := t.budget[i], t.(budget := t.budget[..i]);
    && r.tokens == l.tokensPerAttempt && r.cents == l.centsPerAttempt
    && Fits(before, Owner(r.owner), Tokens, r.at, r.tokens, l.ownerTokens)
    && Fits(before, Operator(r.actor), Tokens, r.at, r.tokens, l.operatorTokens)
    && Fits(before, Owner(r.owner), Cents, r.at, r.cents, l.ownerCents)
    && Fits(before, Operator(r.actor), Cents, r.at, r.cents, l.operatorCents)
  }

  ghost predicate BudgetOk(t: Tables, l: Limits) {
    forall i :: 0 <= i < |t.budget| ==> FitsBefore(t, l, i)
  }

  /** Two active investigations of one case. */
  predicate BothActive(a: Job, b: Job) {
    Active(b.status) && ActiveFor(a, b.binding.caseId)
  }

  ghost predicate Keys(t: Tables) {
    && (forall a, b :: a in t.jobs && b in t.jobs && SameRequest(t.jobs[a], t.jobs[b].binding, t.jobs[b].key) ==> a == b)
    && (forall a, b :: a in t.jobs && b in t.jobs && BothActive(t.jobs[a], t.jobs[b]) ==> a == b)
  }

  ghost predicate JobsOk(t: Tables) {
    && (forall id :: id in t.jobs ==> JobOk(t, id))
    && (forall id :: id in t.snapshots ==> id in t.jobs)
  }

  ghost predicate ClaimsOk(t: Tables) {
    forall id :: Claims(t.budget)[id] == if id in t.jobs then t.jobs[id].attempts else 0
  }
}

/** The investigation store over mutable tables, and the poller that drains the queue. */
module InvestigationStore {
  import opened Domain
  import I = Investigations
  import opened R = InvestigationRuns
  import T = InvestigationTheorems

  datatype StartOutcome = Stored(id: nat) | BudgetExhausted | StartConflict | BindingConflict

  datatype DecisionOutcome = Applied | AlreadyApplied | DecisionConflict | InvalidDecision

  function After(tx: Tx<I.Tables>, before: I.Tables): I.Tables {
    if tx.Committed? then tx.state else before
  }

  predicate HasRoom(t: I.Tables, l: I.Limits, now: Time) {
    |I.Live(t, I.Anyone, now)| < l.maxConcurrency
  }

  /** The job may be claimed, and none that may be claimed and is not locked was created earlier. */
  ghost predicate IsOldest(t: I.Tables, l: I.Limits, id: nat, now: Time, locked: set<nat>) {
    && I.Eligible(t, l, id, now)
    && forall other :: other in t.jobs && other !in locked && I.Eligible(t, l, other, now)
         ==> t.jobs[id].createdAt <= t.jobs[other].createdAt
  }

  /** A claim may take this job: there is room, no other transaction has it locked, and none that fits is older. */
  ghost predicate Claimed(t: I.Tables, l: I.Limits, id: nat, now: Time, locked: set<nat>) {
    id !in locked && HasRoom(t, l, now) && IsOldest(t, l, id, now, locked)
  }

  /** The decision names an investigation of this case and owner. */
  predicate DecidesOn(t: I.Tables, id: nat, caseId: nat, owner: nat) {
    id in t.jobs && t.jobs[id].binding.caseId == caseId && t.jobs[id].binding.owner == owner
  }

  /** A row is answered only to whom it is bound to. */
  function AnswerOf(t: I.Tables, row: nat, b: I.Binding): StartOutcome
    requires row in t.jobs
  {
    if t.jobs[row].binding == b then Stored(row) else BindingConflict
  }

  class InvestigationStore {
    const limits: I.Limits
    const outside: seq<I.Outside>
    var jobs: map<nat, I.Job>
    var budget: seq<I.Reservation>
    var snapshots: map<nat, Hash>

    constructor (limits: I.Limits, outside: seq<I.Outside>)
      ensures this.limits == limits && View() == I.Tables(map[], [], map[], outside)
    {
      this.limits, this.outside := limits, outside;
      jobs, budget, snapshots := map[], [], map[];
    }

    function View(): I.Tables
      reads this
    {
      I.Tables(jobs, budget, snapshots, outside)
    }

    /** The first half of a start: why the request may go on to its insertion, or that its allowance is used up. */
    method LookUp(id: nat, b: I.Binding, key: nat, now: Time) returns (p: Option<I.Pending>)
      ensures p.Some? ==>
        && I.MayPend(View(), limits, p.value)
        && p.value.id == id && p.value.binding == b && p.value.key == key && p.value.now == now
      ensures p.None? <==> !I.Repeated(View(), b, key) && !I.Occupied(View(), b.caseId) && !I.MayStart(View(), limits, b, now)
    {
      if j :| j in jobs && I.SameRequest(jobs[j], b, key) { return Some(I.Pending(id, b, key, now, I.SawRequest(j))); }
      if j :| j in jobs && I.ActiveFor(jobs[j], b.caseId) { return Some(I.Pending(id, b, key, now, I.SawActive(j))); }
      return if I.MayStart(View(), limits, b, now) then Some(I.Pending(id, b, key, now, I.Checked)) else None;
    }

    /** The second half, at whatever state the table has come to: a free place is filled, otherwise the row that occupies it
        is answered, but never to somebody it is not bound to. */
    method Insert(p: I.Pending) returns (r: StartOutcome)
      modifies `jobs
      ensures View() == I.Enter(old(View()), p.id, p.binding, p.key, p.now)
      ensures I.Free(old(View()), p.id, p.binding, p.key) ==> r == Stored(p.id)
      ensures !I.Free(old(View()), p.id, p.binding, p.key) ==> View() == old(View())
      ensures r.Stored? ==> r.id in jobs && jobs[r.id].binding == p.binding
      ensures r.Stored? ==> jobs[r.id].key == p.key || I.Active(jobs[r.id].status)
      // A row that repeats the request is answered before one that occupies the case.
      ensures I.Repeated(old(View()), p.binding, p.key) ==>
        exists row :: row in jobs && I.SameRequest(jobs[row], p.binding, p.key) && r == AnswerOf(View(), row, p.binding)
      ensures !I.Repeated(old(View()), p.binding, p.key) && I.Occupied(old(View()), p.binding.caseId) ==>
        exists row :: row in jobs && I.ActiveFor(jobs[row], p.binding.caseId) && r == AnswerOf(View(), row, p.binding)
      ensures r == StartConflict <==>
        p.id in old(jobs) && !I.Repeated(old(View()), p.binding, p.key) && !I.Occupied(old(View()), p.binding.caseId)
      ensures r != BudgetExhausted
    {
      if I.Free(View(), p.id, p.binding, p.key) {
        jobs := jobs[p.id := I.Job(p.binding, p.key, I.Queued, [I.Queued], None, None, 0, p.now, None)];
        return Stored(p.id);
      }
      if row :| row in jobs && I.SameRequest(jobs[row], p.binding, p.key) {
        return if jobs[row].binding == p.binding then Stored(row) else BindingConflict;
      }
      if row :| row in jobs && I.ActiveFor(jobs[row], p.binding.caseId) {
        return if jobs[row].binding == p.binding then Stored(row) else BindingConflict;
      }
      return StartConflict;
    }

    /** A start in which nothing comes between look-up and insertion: a request is stored once, whoever repeats it; a new row
        is within its allowance; nobody gets another's. */
    method Start(id: nat, b: I.Binding, key: nat, now: Time) returns (r: StartOutcome)
      modifies `jobs
      ensures r == BudgetExhausted <==>
        !I.Repeated(old(View()), b, key) && !I.Occupied(old(View()), b.caseId) && !I.MayStart(old(View()), limits, b, now)
      ensures r.Stored? ==> r.id in jobs && jobs[r.id].binding == b && (jobs[r.id].key == key || I.Active(jobs[r.id].status))
      ensures View() != old(View()) ==>
        && r == Stored(id) && id !in old(jobs) && View() == I.Enter(old(View()), id, b, key, now)
        && I.MayStart(old(View()), limits, b, now)
      ensures I.Repeated(old(View()), b, key) ==> View() == old(View()) && (r.Stored? || r == BindingConflict)
    {
      var p := LookUp(id, b, key, now);
      if p.None? { return BudgetExhausted; }
      r := Insert(p.value);
    }

    method Sweep(now: Time)
      modifies `jobs
      ensures View() == I.ExpireExhausted(old(View()), now)
    {
      jobs := I.ExpireExhausted(View(), now).jobs;
    }

    /** The oldest job that fits, among those no other transaction holds locked. */
    method Candidate(now: Time, locked: set<nat>) returns (c: Option<nat>)
      ensures c.Some? ==> Claimed(View(), limits, c.value, now, locked)
      ensures c.None? && HasRoom(View(), limits, now) ==>
        forall other :: other in jobs && other !in locked ==> !I.Eligible(View(), limits, other, now)
    {
      if |I.Live(View(), I.Anyone, now)| >= limits.maxConcurrency { return None; }
      var candidates := set id | id in jobs && id !in locked && I.Eligible(View(), limits, id, now);
      assert forall id :: id in jobs && id !in locked && I.Eligible(View(), limits, id, now) ==> id in candidates;
      c := Oldest(View(), candidates);
    }

    method TakeLease(id: nat, token: nat, now: Time)
      requires id in jobs
      modifies this
      ensures View() == I.Take(old(View()), limits, id, token, now)
    {
      var j := jobs[id];
      jobs := jobs[id := I.Moved(j, I.Investigating).(
        token := Some(token), leaseUntil := Some(now + I.LEASE_MS), attempts := j.attempts + 1)];
      budget := budget + [I.Reservation(id, j.binding.owner, j.binding.actor, limits.tokensPerAttempt, limits.centsPerAttempt, now)];
    }

    /** One claim: exhausted jobs are swept, then the oldest job that fits gets a lease and a reservation. */
    method ClaimNext(token: nat, now: Time, locked: set<nat>) returns (claimed: Option<nat>)
      modifies this
      ensures View() == I.ClaimNext(old(View()), limits, claimed, token, now)
      ensures claimed.Some? ==>
        && Claimed(I.ExpireExhausted(old(View()), now), limits, claimed.value, now, locked)
        && |budget| == |old(budget)| + 1 && claimed.value in jobs && jobs[claimed.value].token == Some(token)
      ensures claimed.None? && HasRoom(I.ExpireExhausted(old(View()), now), limits, now) ==>
        forall other :: other in jobs && other !in locked ==> !I.Eligible(View(), limits, other, now)
      ensures jobs.Keys == old(jobs.Keys)
    {
      hide I.Fits, I.Live;
      Sweep(now);
      claimed := Candidate(now, locked);
      if claimed.Some? { TakeLease(claimed.value, token, now); }
    }

    method Finish(id: nat, token: nat, content: Hash, now: Time) returns (done: bool)
      modifies this
      ensures done == I.Finish(old(View()), id, token, content, now).Committed?
      ensures View() == After(I.Finish(old(View()), id, token, content, now), old(View()))
    {
      if !I.OwnsLease(View(), id, token, now) || id in snapshots { return false; }
      snapshots := snapshots[id := content];
      jobs := jobs[id := I.Released(jobs[id], I.Proposed)];
      return true;
    }

    method Fail(id: nat, token: nat)
      modifies `jobs
      ensures View() == After(I.Fail(old(View()), id, token), old(View()))
    {
      if id in jobs && jobs[id].token == Some(token) {
        jobs := jobs[id := I.Released(jobs[id], I.Errored)];
      }
    }

    /** One decision per proposal: the first is applied, the same one again changes nothing, any other is refused. */
    method ApplyDecision(id: nat, caseId: nat, owner: nat, decisionId: nat, decision: Option<I.Decision>)
      returns (r: DecisionOutcome)
      modifies `jobs
      ensures r == InvalidDecision <==> decision.None?
      ensures decision.Some? ==>
        View() == After(I.ApplyDecision(old(View()), id, caseId, owner, decisionId, decision.value), old(View()))
      ensures decision.Some? ==>
        (r == Applied <==> I.ApplyDecision(old(View()), id, caseId, owner, decisionId, decision.value).Committed?)
      ensures r == Applied <==>
        && decision.Some? && DecidesOn(old(View()), id, caseId, owner)
        && old(jobs)[id].status == I.Proposed && old(jobs)[id].decisionId.None?
        && (forall other :: other in old(jobs) ==> old(jobs)[other].decisionId != Some(decisionId))
      ensures r == AlreadyApplied <==>
        && decision.Some? && DecidesOn(old(View()), id, caseId, owner)
        && old(jobs)[id].decisionId == Some(decisionId) && old(jobs)[id].status == I.Decided(decision.value)
      ensures r == Applied ==>
        && jobs.Keys == old(jobs.Keys) && jobs - {id} == old(jobs) - {id}
        && jobs[id].status == I.Decided(decision.value) && jobs[id].decisionId == Some(decisionId)
      ensures r != Applied ==> View() == old(View())
    {
      if decision.None? { return InvalidDecision; }
      if id in jobs && jobs[id].binding.caseId == caseId && jobs[id].binding.owner == owner {
        if jobs[id].status == I.Proposed && jobs[id].decisionId.None? {
          if exists other | other in jobs :: jobs[other].decisionId == Some(decisionId) { return DecisionConflict; }
          jobs := jobs[id := I.Moved(jobs[id], I.Decided(decision.value)).(decisionId := Some(decisionId))];
          return Applied;
        }
        if jobs[id].decisionId == Some(decisionId) && jobs[id].status == I.Decided(decision.value) { return AlreadyApplied; }
      }
      return DecisionConflict;
    }
  }

  /** The job created first among some. */
  method Oldest(t: I.Tables, ids: set<nat>) returns (oldest: Option<nat>)
    requires ids <= t.jobs.Keys
    ensures oldest.None? <==> ids == {}
    ensures oldest.Some? ==> oldest.value in ids && forall id :: id in ids ==> t.jobs[oldest.value].createdAt <= t.jobs[id].createdAt
  {
    oldest := None;
    var rest := ids;
    while rest != {}
      invariant rest <= ids
      invariant oldest.None? <==> rest == ids
      invariant oldest.Some? ==> oldest.value in ids && forall id :: id in ids - rest ==> t.jobs[oldest.value].createdAt <= t.jobs[id].createdAt
      decreases |rest|
    {
      var id :| id in rest;
      if oldest.None? || t.jobs[id].createdAt < t.jobs[oldest.value].createdAt { oldest := Some(id); }
      rest := rest - {id};
    }
  }

  ghost predicate Valid(store: InvestigationStore, clock: Time, nextToken: nat)
    reads store
  {
    Inv(System(clock, nextToken, store.limits, store.View()))
  }

  /** The jobs after a turn that claimed one of them: its last lease is gone, it ended with this status and another attempt,
      and all the others are as the sweep left them. */
  ghost predicate RanJob(before: map<nat, I.Job>, after: map<nat, I.Job>, id: nat, status: I.Status) {
    && id in before && id in after && after - {id} == before - {id}
    && after[id].status == status && after[id].token == None && after[id].leaseUntil == None
    && after[id].attempts == before[id].attempts + 1
    && after[id].binding == before[id].binding && after[id].key == before[id].key && after[id].createdAt == before[id].createdAt
  }

  /** One turn of the runner: the oldest job that fits is executed, then finished when the execution returned inside its
      ninety seconds, and failed otherwise. Without such a job only the sweep happens. */
  method RunInvestigationOnce(store: InvestigationStore, token: nat, claimedAt: Time, locked: set<nat>,
                              content: Option<Hash>, finishedAt: Time, ghost clock: Time)
    returns (ran: bool, ghost id: nat)
    requires Valid(store, clock, token) && claimedAt <= clock && finishedAt <= clock
    modifies store
    ensures Valid(store, clock, token + 1)
    ensures store.jobs.Keys == old(store.jobs.Keys)
    ensures |store.budget| == |old(store.budget)| + if ran then 1 else 0
    ensures var swept := I.ExpireExhausted(old(store.View()), claimedAt);
      if ran then
        && Claimed(swept, store.limits, id, claimedAt, locked)
        && (if content.Some? && finishedAt < claimedAt + 90_000
            then RanJob(swept.jobs, store.jobs, id, I.Proposed) && store.snapshots == old(store.snapshots)[id := content.value]
            else RanJob(swept.jobs, store.jobs, id, I.Errored) && store.snapshots == old(store.snapshots))
      else
        && store.View() == swept
        && (HasRoom(swept, store.limits, claimedAt) ==>
          forall other :: other in store.jobs && other !in locked ==> !I.Eligible(swept, store.limits, other, claimedAt))
  {
    hide Inv, I.ExpireExhausted, I.Eligible, IsOldest, HasRoom, I.ClaimNext;
    ghost var s := System(clock, token, store.limits, store.View());
    ghost var swept := I.ExpireExhausted(store.View(), claimedAt);
    var job := store.ClaimNext(token, claimedAt, locked);
    ApplyKeeps(s, Poll(job, claimedAt));
    if job.None? {
      OnlySwept(s.tables, s.limits, token, claimedAt);
      return false, 0;
    }
    id := job.value;
    ClaimedJobIsOwn(s, id, token, claimedAt, locked);
    s := s.(tables := store.View(), nextToken := token + 1);
    var done := false;
    if content.Some? { done := store.Finish(job.value, token, content.value, finishedAt); }
    if done {
      ApplyKeeps(s, Propose(job.value, token, content.value, finishedAt));
    } else {
      store.Fail(job.value, token);
      ApplyKeeps(s, GiveUp(job.value, token));
    }
    return true, id;
  }

  /** The claim's own lease runs for ninety seconds, and the job has no snapshot yet. */
  lemma ClaimedJobIsOwn(s: System, id: nat, token: nat, now: Time, locked: set<nat>)
    requires Inv(s) && Claimed(I.ExpireExhausted(s.tables, now), s.limits, id, now, locked)
    ensures var t, swept := I.ClaimNext(s.tables, s.limits, Some(id), token, now), I.ExpireExhausted(s.tables, now);
      && id in t.jobs && t.jobs[id].token == Some(token) && t.jobs[id].status == I.Investigating
      && t.jobs[id].leaseUntil == Some(now + 90_000) && id !in t.snapshots && t.snapshots == s.tables.snapshots
      && id in swept.jobs && t.jobs - {id} == swept.jobs - {id}
      && t.jobs[id].attempts == swept.jobs[id].attempts + 1 && t.jobs[id].binding == swept.jobs[id].binding
      && t.jobs[id].key == swept.jobs[id].key && t.jobs[id].createdAt == swept.jobs[id].createdAt
  {
    hide I.Fits, I.Live, Inv;
    UnfinishedHasNoSnapshot(s, id);
  }

  lemma UnfinishedHasNoSnapshot(s: System, id: nat)
    requires Inv(s) && id in s.tables.jobs && s.tables.jobs[id].status in {I.Queued, I.Investigating}
    ensures id !in s.tables.snapshots
  {
    assert I.JobOk(s.tables, id);
  }

  lemma OnlySwept(t: I.Tables, l: I.Limits, token: nat, now: Time)
    ensures I.ClaimNext(t, l, None, token, now) == I.ExpireExhausted(t, now)
    ensures I.ExpireExhausted(t, now).budget == t.budget
  {
  }

  /** One look of the drain at the world: whether the service is enabled or asked to stop, and what a turn would meet. */
  datatype Turn = Turn(enabled: bool, stop: bool, wait: nat, claimedAt: Time, finishedAt: Time, locked: set<nat>, content: Option<Hash>)

  function Earlier(a: Time, b: Time): Time {
    if a < b then a else b
  }

  class Poller {
    var stopping: bool
    var polling: bool

    constructor ()
      ensures !stopping && !polling
    {
      stopping, polling := false, false;
    }

    method Stop()
      modifies `stopping
      ensures stopping
    {
      stopping := true;
    }

    /** Claims and runs jobs until none can be claimed, the service is disabled or it is being stopped. With no new jobs
        it always ends, after at most as many turns as attempts were left, and at most one drain runs at a time. A drain
        that is neither disabled nor stopped goes on until no job fits, except those other transactions hold locked. */
    method Poll(store: InvestigationStore, start: Time, firstToken: nat, enabled: bool, world: nat -> Turn)
      returns (turns: nat, clock: Time, token: nat)
      requires Valid(store, start, firstToken)
      modifies this, store
      ensures polling == old(polling)
      ensures old(stopping) ==> stopping
      ensures !old(polling) && !old(stopping) && enabled ==> (stopping <==> world(turns).stop)
      ensures old(polling) || !enabled ==> stopping == old(stopping)
      ensures old(polling) || old(stopping) || !enabled ==> turns == 0 && store.View() == old(store.View())
      ensures turns <= T.Remaining(old(store.View()))
      ensures turns == |store.budget| - |old(store.budget)|
      ensures Valid(store, clock, token)
      ensures !old(polling) && !old(stopping) && enabled && world(turns).enabled && !stopping ==>
        var at := Earlier(world(turns).claimedAt, clock);
        HasRoom(store.View(), store.limits, at) ==>
          forall id :: id in store.jobs && id !in world(turns).locked ==> !I.Eligible(store.View(), store.limits, id, at)
    {
      hide Inv;
      turns, clock, token := 0, start, firstToken;
      RemainingAtLeast0(store, start, firstToken);
      if polling || stopping || !enabled { return; }
      polling := true;
      while true
        invariant Valid(store, clock, token)
        invariant store.jobs.Keys == old(store.jobs.Keys) && turns == |store.budget| - |old(store.budget)|
        invariant !stopping
        invariant polling
        decreases T.Remaining(store.View())
      {
        RemainingAtLeast0(store, clock, token);
        SameKeysSameSize(store.jobs, old(store.jobs));
        var turn := world(turns);
        if turn.stop { stopping := true; }
        if stopping || !turn.enabled { break; }
        TickKeeps(System(clock, token, store.limits, store.View()), turn.wait);
        clock := clock + turn.wait;
        var ran, _ := RunInvestigationOnce(store, token, Earlier(turn.claimedAt, clock), turn.locked, turn.content,
                                           Earlier(turn.finishedAt, clock), clock);
        token := token + 1;
        SameKeysSameSize(store.jobs, old(store.jobs));
        RemainingAtLeast0(store, clock, token);
        if !ran { break; }
        turns := turns + 1;
      }
      polling := false;
      RemainingAtLeast0(store, clock, token);
      SameKeysSameSize(store.jobs, old(store.jobs));
    }
  }

  lemma SameKeysSameSize(a: map<nat, I.Job>, b: map<nat, I.Job>)
    requires a.Keys == b.Keys
    ensures |a| == |b|
  {
    assert |a| == |a.Keys| && |b| == |b.Keys|;
  }

  lemma RemainingAtLeast0(store: InvestigationStore, clock: Time, token: nat)
    requires Valid(store, clock, token)
    ensures T.Remaining(store.View()) >= 0
  {
    T.RowsOf(System(clock, token, store.limits, store.View()));
    T.RemainingIsNatural(store.View());
  }
}

/** Every run of the investigation queue: pollers, owners that crash or come late, operators, and time. */
module InvestigationRuns {
  import opened Domain
  import opened Investigations

  datatype System = System(clock: Time, nextToken: nat, limits: Limits, tables: Tables)

  /** One transaction, or the passing of time. A transaction's own time is when it began: it may lie before the clock, and
      before the times of transactions that committed earlier. */
  datatype Event =
    | Tick(ms: nat)
    // The insertion of a requested job; whether its look-up allowed it is the matter of RequestAllowance.
    | RequestJob(id: nat, binding: Binding, key: nat, now: Time)
    | Poll(choice: Option<nat>, now: Time)
    | Propose(id: nat, token: nat, content: Hash, now: Time)
    | GiveUp(id: nat, token: nat)
    | Judge(id: nat, caseId: nat, owner: nat, decisionId: nat, decision: Decision)

  function Committing(s: System, tx: Tx<Tables>): System {
    if tx.Committed? then s.(tables := tx.state) else s
  }

  function Apply(s: System, e: Event): System {
    match e
    case Tick(ms) => s.(clock := s.clock + ms)
    case RequestJob(id, b, key, now) => if now <= s.clock then s.(tables := Enter(s.tables, id, b, key, now)) else s
    case Poll(choice, now) =>
      if now <= s.clock
      then s.(tables := ClaimNext(s.tables, s.limits, choice, s.nextToken, now), nextToken := s.nextToken + 1) else s
    case Propose(id, token, content, now) => if now <= s.clock then Committing(s, Finish(s.tables, id, token, content, now)) else s
    case GiveUp(id, token) => Committing(s, Fail(s.tables, id, token))
    case Judge(id, caseId, owner, decisionId, decision) =>
      Committing(s, ApplyDecision(s.tables, id, caseId, owner, decisionId, decision))
  }

  function Run(s: System, events: seq<Event>): System {
    if events == [] then s else Apply(Run(s, events[..|events| - 1]), events[|events| - 1])
  }

  predicate Init(s: System) {
    s.tables.jobs == map[] && s.tables.budget == [] && s.tables.snapshots == map[]
  }

  // ----- the invariant -----

  function Cap(l: Limits, who: Who): nat {
    match who
    case Anyone => l.maxConcurrency
    case Owner(_) => l.ownerConcurrency
    case Operator(_) => l.operatorConcurrency
  }

  ghost predicate Capped(t: Tables, l: Limits, who: Who, at: Time) {
    |Live(t, who, at)| <= Cap(l, who)
  }

  ghost predicate CapsOk(t: Tables, l: Limits, clock: Time) {
    forall who, at: Time :: at >= clock ==> Capped(t, l, who, at)
  }

  ghost predicate TokensOk(t: Tables, nextToken: nat) {
    forall id :: id in t.jobs && t.jobs[id].token.Some? ==> t.jobs[id].token.value < nextToken
  }

  ghost predicate Inv(s: System) {
    && JobsOk(s.tables) && Keys(s.tables) && ClaimsOk(s.tables) && BudgetOk(s.tables, s.limits)
    && CapsOk(s.tables, s.limits, s.clock) && TokensOk(s.tables, s.nextToken)
  }

  // ----- live leases -----

  lemma LiveShrinks(t: Tables, u: Tables, who: Who, at: Time)
    requires forall id :: id in u.jobs && LiveJob(u.jobs[id], at) ==>
      id in t.jobs && LiveJob(t.jobs[id], at) && t.jobs[id].binding == u.jobs[id].binding
    ensures |Live(u, who, at)| <= |Live(t, who, at)|
  {
    Subset(Live(u, who, at), Live(t, who, at));
  }

  lemma Subset(a: set<nat>, b: set<nat>)
    requires a <= b
    ensures |a| <= |b|
  {
    assert b == a + (b - a);
  }

  /** A lease that is live at a later instant was live before. */
  lemma LiveEarlier(t: Tables, who: Who, now: Time, at: Time)
    requires now <= at
    ensures |Live(t, who, at)| <= |Live(t, who, now)|
  {
    Subset(Live(t, who, at), Live(t, who, now));
  }

  ghost predicate NoNewLeases(t: Tables, u: Tables) {
    forall id :: id in u.jobs && u.jobs[id].leaseUntil.Some? && u.jobs[id].status == Investigating ==>
      id in t.jobs && t.jobs[id].leaseUntil == u.jobs[id].leaseUntil && t.jobs[id].status == Investigating
      && t.jobs[id].binding == u.jobs[id].binding
  }

  lemma CapsKept(t: Tables, u: Tables, l: Limits, clock: Time)
    requires CapsOk(t, l, clock) && NoNewLeases(t, u)
    ensures CapsOk(u, l, clock)
  {
    forall who, at: Time | at >= clock ensures Capped(u, l, who, at) {
      assert Capped(t, l, who, at);
      LiveShrinks(t, u, who, at);
    }
  }

  // ----- what a transaction keeps -----

  /** Everything but the caps, which depend on the clock. */
  ghost predicate RowsOk(t: Tables, l: Limits, nextToken: nat) {
    JobsOk(t) && Keys(t) && ClaimsOk(t) && BudgetOk(t, l) && TokensOk(t, nextToken)
  }

  /** A job changed in status but not in identity, and no job appeared. */
  ghost predicate SameJobs(t: Tables, u: Tables) {
    && u.jobs.Keys == t.jobs.Keys
    && (forall id :: id in t.jobs ==>
      && u.jobs[id].binding == t.jobs[id].binding && u.jobs[id].key == t.jobs[id].key
      && (Active(u.jobs[id].status) ==> Active(t.jobs[id].status)))
  }

  lemma KeysKept(t: Tables, u: Tables)
    requires Keys(t) && SameJobs(t, u)
    ensures Keys(u)
  {
  }

  lemma BudgetKept(t: Tables, u: Tables, l: Limits)
    requires BudgetOk(t, l) && u.budget == t.budget && u.outside == t.outside
    ensures BudgetOk(u, l)
  {
    forall i | 0 <= i < |u.budget| ensures FitsBefore(u, l, i) { assert FitsBefore(t, l, i); }
  }

  /** Reservations stay as they are, and so do the attempts they count. */
  lemma ClaimsKept(t: Tables, u: Tables)
    requires ClaimsOk(t) && u.budget == t.budget
    requires t.jobs.Keys <= u.jobs.Keys
    requires forall id :: id in u.jobs ==> u.jobs[id].attempts == if id in t.jobs then t.jobs[id].attempts else 0
    ensures ClaimsOk(u)
  {
    hide Claims;
  }

  lemma TokensKept(t: Tables, u: Tables, n: nat)
    requires TokensOk(t, n)
    requires forall id :: id in u.jobs && u.jobs[id].token.Some? ==> id in t.jobs && t.jobs[id].token == u.jobs[id].token
    ensures TokensOk(u, n)
  {
  }

  /** One job changed, and it is consistent. */
  lemma JobsKept(t: Tables, u: Tables, id: nat)
    requires JobsOk(t) && id in u.jobs && JobOk(u, id)
    requires forall k :: k in u.jobs && k != id ==> k in t.jobs && u.jobs[k] == t.jobs[k]
    requires forall k :: k in t.jobs ==> k in u.jobs
    requires forall k :: k != id ==> (k in u.snapshots <==> k in t.snapshots)
    ensures JobsOk(u)
  {
    hide HistoryOk;
    forall k | k in u.jobs ensures JobOk(u, k) { if k != id { assert JobOk(t, k); } }
  }

  lemma ExpiredJobOk(t: Tables, id: nat, now: Time)
    requires JobsOk(t) && id in t.jobs
    ensures JobOk(ExpireExhausted(t, now), id)
  {
    assert JobOk(t, id);
  }

  lemma ExpireKeeps(t: Tables, l: Limits, n: nat, now: Time)
    requires RowsOk(t, l, n)
    ensures RowsOk(ExpireExhausted(t, now), l, n)
    ensures NoNewLeases(t, ExpireExhausted(t, now)) && SameJobs(t, ExpireExhausted(t, now))
  {
    hide BudgetOk, Keys, ClaimsOk, JobOk, TokensOk;
    var u := ExpireExhausted(t, now);
    KeysKept(t, u);
    BudgetKept(t, u, l);
    ClaimsKept(t, u);
    TokensKept(t, u, n);
    forall id | id in u.jobs ensures JobOk(u, id) { ExpiredJobOk(t, id, now); }
  }

  lemma TakeKeeps(t: Tables, l: Limits, id: nat, token: nat, now: Time)
    requires RowsOk(t, l, token) && Eligible(t, l, id, now)
    ensures RowsOk(Take(t, l, id, token, now), l, token + 1)
  {
    hide BudgetOk, Keys, ClaimsOk, JobsOk, Fits, Live;
    var u := Take(t, l, id, token, now);
    KeysKept(t, u);
    TakeFits(t, l, id, token, now);
    TakenJobOk(t, l, id, token, now);
    JobsKept(t, u, id);
    TakeCounts(t, l, id, token, now);
  }

  lemma TakenJobOk(t: Tables, l: Limits, id: nat, token: nat, now: Time)
    requires JobsOk(t) && Eligible(t, l, id, now)
    ensures JobOk(Take(t, l, id, token, now), id)
  {
    hide Fits, Live;
    assert JobOk(t, id);
  }

  lemma TakeCounts(t: Tables, l: Limits, id: nat, token: nat, now: Time)
    requires ClaimsOk(t) && id in t.jobs
    ensures ClaimsOk(Take(t, l, id, token, now))
  {
    var u := Take(t, l, id, token, now);
    assert u.budget[..|u.budget| - 1] == t.budget;
  }

  lemma TakeFits(t: Tables, l: Limits, id: nat, token: nat, now: Time)
    requires BudgetOk(t, l) && Eligible(t, l, id, now)
    ensures BudgetOk(Take(t, l, id, token, now), l)
  {
    hide Live, BudgetOk, Reserved, ReservedOutside;
    var u := Take(t, l, id, token, now);
    assert u.budget[..|t.budget|] == t.budget;
    assert FitsBefore(u, l, |t.budget|);
    forall i | 0 <= i < |t.budget| ensures FitsBefore(u, l, i) {
      EarlierFits(t, l, i);
      assert u.budget[..i] == t.budget[..i];
    }
    AllFit(u, l);
  }

  lemma EarlierFits(t: Tables, l: Limits, i: int)
    requires BudgetOk(t, l) && 0 <= i < |t.budget|
    ensures FitsBefore(t, l, i)
  {
  }

  lemma AllFit(t: Tables, l: Limits)
    requires forall i :: 0 <= i < |t.budget| ==> FitsBefore(t, l, i)
    ensures BudgetOk(t, l)
  {
  }

  /** A claim fits under every cap at every instant from then on. */
  lemma TakeKeepsCaps(t: Tables, l: Limits, id: nat, token: nat, now: Time, clock: Time)
    requires CapsOk(t, l, clock) && Eligible(t, l, id, now) && |Live(t, Anyone, now)| < l.maxConcurrency && now <= clock
    ensures CapsOk(Take(t, l, id, token, now), l, clock)
  {
    hide Fits;
    var u := Take(t, l, id, token, now);
    var b := t.jobs[id].binding;
    forall who, at: Time | at >= clock ensures Capped(u, l, who, at) {
      if For(who, b.owner, b.actor) {
        LiveEarlier(t, who, now, at);
        assert Live(u, who, at) <= Live(t, who, at) + {id};
        Subset(Live(u, who, at), Live(t, who, at) + {id});
      } else {
        assert Capped(t, l, who, at);
        assert Live(u, who, at) <= Live(t, who, at);
        Subset(Live(u, who, at), Live(t, who, at));
      }
    }
  }

  lemma PollKeeps(s: System, choice: Option<nat>, now: Time)
    requires Inv(s) && now <= s.clock
    ensures Inv(Apply(s, Poll(choice, now)))
  {
    hide BudgetOk, Keys, JobsOk, ClaimsOk, TokensOk, CapsOk, Eligible;
    var u := ExpireExhausted(s.tables, now);
    ExpireKeeps(s.tables, s.limits, s.nextToken, now);
    CapsKept(s.tables, u, s.limits, s.clock);
    if |Live(u, Anyone, now)| < s.limits.maxConcurrency && choice.Some? && Eligible(u, s.limits, choice.value, now) {
      TakeKeeps(u, s.limits, choice.value, s.nextToken, now);
      TakeKeepsCaps(u, s.limits, choice.value, s.nextToken, now, s.clock);
    } else {
      MoreTokens(u, s.nextToken);
    }
  }

  lemma MoreTokens(t: Tables, n: nat)
    requires TokensOk(t, n)
    ensures TokensOk(t, n + 1)
  {
  }

  lemma CommittedJobOk(s: System, e: Event)
    requires JobsOk(s.tables) && (e.Propose? || e.GiveUp? || e.Judge?) && e.id in s.tables.jobs
    ensures e.id in Apply(s, e).tables.jobs && JobOk(Apply(s, e).tables, e.id)
  {
    assert JobOk(s.tables, e.id);
  }

  /** What ending a lease, proposing or deciding changes. */
  lemma CommitTouches(s: System, e: Event)
    requires JobsOk(s.tables) && (e.Propose? || e.GiveUp? || e.Judge?) && e.id in s.tables.jobs
    ensures var t, u := s.tables, Apply(s, e).tables;
      && u.budget == t.budget && u.outside == t.outside
      && (forall k :: k != e.id ==> (k in u.snapshots <==> k in t.snapshots))
      && u.jobs == t.jobs[e.id := u.jobs[e.id]]
      && u.jobs[e.id].binding == t.jobs[e.id].binding && u.jobs[e.id].key == t.jobs[e.id].key
      && u.jobs[e.id].attempts == t.jobs[e.id].attempts
      && (u.jobs[e.id] == t.jobs[e.id] || (u.jobs[e.id].token.None? && u.jobs[e.id].status != Investigating))
      && (Active(u.jobs[e.id].status) ==> Active(t.jobs[e.id].status))
  {
    assert JobOk(s.tables, e.id);
    assert s.tables.jobs == s.tables.jobs[e.id := s.tables.jobs[e.id]];
  }

  /** Ending a lease, proposing and deciding keep every table consistent. */
  lemma CommitKeeps(s: System, e: Event)
    requires Inv(s) && (e.Propose? || e.GiveUp? || e.Judge?)
    ensures Inv(Apply(s, e))
  {
    hide BudgetOk, Keys, CapsOk, ClaimsOk, TokensOk, JobOk;
    var t, u := s.tables, Apply(s, e).tables;
    if e.id in t.jobs {
      CommitTouches(s, e);
      CommittedJobOk(s, e);
      CommitRows(s, u, e.id);
    } else {
      assert Apply(s, e) == s;
    }
  }

  lemma CommitRows(s: System, u: Tables, id: nat)
    requires Inv(s) && id in s.tables.jobs && id in u.jobs && JobOk(u, id)
    requires u.budget == s.tables.budget && u.outside == s.tables.outside
    requires forall k :: k != id ==> (k in u.snapshots <==> k in s.tables.snapshots)
    requires u.jobs == s.tables.jobs[id := u.jobs[id]]
    requires u.jobs[id].binding == s.tables.jobs[id].binding && u.jobs[id].key == s.tables.jobs[id].key
    requires u.jobs[id].attempts == s.tables.jobs[id].attempts
    requires u.jobs[id] == s.tables.jobs[id] || (u.jobs[id].token.None? && u.jobs[id].status != Investigating)
    requires Active(u.jobs[id].status) ==> Active(s.tables.jobs[id].status)
    ensures Inv(s.(tables := u))
  {
    hide BudgetOk, Keys, CapsOk, ClaimsOk, TokensOk, JobOk, JobsOk;
    JobsKept(s.tables, u, id);
    KeysKept(s.tables, u);
    BudgetKept(s.tables, u, s.limits);
    CapsKept(s.tables, u, s.limits, s.clock);
    ClaimsKept(s.tables, u);
    TokensKept(s.tables, u, s.nextToken);
  }

  lemma RequestKeeps(s: System, id: nat, b: Binding, key: nat, now: Time)
    requires Inv(s)
    ensures Inv(Apply(s, RequestJob(id, b, key, now)))
  {
    hide BudgetOk, CapsOk, ClaimsOk, TokensOk, JobsOk, Keys;
    var t, u := s.tables, Apply(s, RequestJob(id, b, key, now)).tables;
    if u != t {
      JobsNamed(t, id);
      assert JobOk(u, id);
      JobsKept(t, u, id);
      StartKeepsKeys(t, u, id, b, key);
      BudgetKept(t, u, s.limits);
      CapsKept(t, u, s.limits, s.clock);
      ClaimsKept(t, u);
      TokensKept(t, u, s.nextToken);
    }
  }

  lemma JobsNamed(t: Tables, id: nat)
    requires JobsOk(t) && id !in t.jobs
    ensures id !in t.snapshots
  {
  }

  lemma StartKeepsKeys(t: Tables, u: Tables, id: nat, b: Binding, key: nat)
    requires Keys(t) && id !in t.jobs && id in u.jobs && u.jobs == t.jobs[id := u.jobs[id]]
    requires u.jobs[id].binding == b && u.jobs[id].key == key
    requires forall j :: j in t.jobs ==> !SameRequest(t.jobs[j], b, key) && !ActiveFor(t.jobs[j], b.caseId)
    ensures Keys(u)
  {
  }

  lemma TickKeeps(s: System, ms: nat)
    requires Inv(s)
    ensures Inv(Apply(s, Tick(ms)))
  {
    hide BudgetOk, Keys, JobsOk, ClaimsOk, TokensOk;
  }

  lemma ApplyKeeps(s: System, e: Event)
    requires Inv(s)
    ensures Inv(Apply(s, e))
  {
    hide Inv, ClaimNext, Enter;
    match e
    case Tick(ms) => TickKeeps(s, ms);
    case RequestJob(id, b, key, now) => RequestKeeps(s, id, b, key, now);
    case Poll(choice, now) => if now <= s.clock { PollKeeps(s, choice, now); }
    case _ => CommitKeeps(s, e);
  }

  lemma {:induction false} RunKeeps(s: System, events: seq<Event>)
    requires Inv(s)
    ensures Inv(Run(s, events))
  {
    hide Inv, Apply;
    if events != [] {
      RunKeeps(s, events[..|events| - 1]);
      ApplyKeeps(Run(s, events[..|events| - 1]), events[|events| - 1]);
    }
  }

  lemma Reachable(s: System, events: seq<Event>)
    requires Init(s)
    ensures Inv(Run(s, events))
  {
    forall who, at: Time ensures Capped(s.tables, s.limits, who, at) { assert Live(s.tables, who, at) == {}; }
    RunKeeps(s, events);
  }
}

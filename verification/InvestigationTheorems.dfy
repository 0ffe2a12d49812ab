/** What is promised of every run of the investigation queue. */
module InvestigationTheorems {
  import opened Domain
  import opened Investigations
  import opened InvestigationRuns

  // ----- when a job may be claimed, in numbers -----

  /** The tokens reserved since an instant for one owner or operator, with those of the evaluation. */
  function TokensSince(t: Tables, who: Who, after: int): nat {
    Sum(t.budget, (r: Reservation) => if For(who, r.owner, r.actor) && r.at > after then r.tokens else 0)
    + Sum(t.outside, (r: Outside) => if r.at > after then r.tokens else 0)
  }

  function CentsSince(t: Tables, who: Who, after: int): nat {
    Sum(t.budget, (r: Reservation) => if For(who, r.owner, r.actor) && r.at > after then r.cents else 0)
    + Sum(t.outside, (r: Outside) => if r.at > after then r.cents else 0)
  }

  function Sum<T(!new)>(items: seq<T>, amount: T -> nat): nat {
    if items == [] then 0 else Sum(items[..|items| - 1], amount) + amount(items[|items| - 1])
  }

  lemma {:induction false} ReservedIsSum(rs: seq<Reservation>, who: Who, after: int)
    ensures Reserved(rs, who, Tokens, after, None)
      == Sum(rs, (r: Reservation) => if For(who, r.owner, r.actor) && r.at > after then r.tokens else 0)
    ensures Reserved(rs, who, Cents, after, None)
      == Sum(rs, (r: Reservation) => if For(who, r.owner, r.actor) && r.at > after then r.cents else 0)
  {
    if rs != [] { ReservedIsSum(rs[..|rs| - 1], who, after); }
  }

  lemma {:induction false} OutsideIsSum(rs: seq<Outside>, after: int)
    ensures ReservedOutside(rs, Tokens, after, None) == Sum(rs, (r: Outside) => if r.at > after then r.tokens else 0)
    ensures ReservedOutside(rs, Cents, after, None) == Sum(rs, (r: Outside) => if r.at > after then r.cents else 0)
  {
    if rs != [] { OutsideIsSum(rs[..|rs| - 1], after); }
  }

  /** A job may be claimed exactly if it waits, or its ninety seconds are over, for the first, second or third time, and its
      owner and its operator have a lease and, over the last 24 hours, the tokens and the cents of one attempt to spare. */
  lemma EligibleExactly(t: Tables, l: Limits, id: nat, now: Time)
    requires id in t.jobs
    ensures var j, since := t.jobs[id], now - 86_400_000;
      Eligible(t, l, id, now) <==>
        && (j.status == Queued || (j.status == Investigating && j.leaseUntil.Some? && j.leaseUntil.value < now)) && j.attempts < 3
        && |Live(t, Owner(j.binding.owner), now)| < l.ownerConcurrency
        && |Live(t, Operator(j.binding.actor), now)| < l.operatorConcurrency
        && TokensSince(t, Owner(j.binding.owner), since) + l.tokensPerAttempt <= l.ownerTokens
        && TokensSince(t, Operator(j.binding.actor), since) + l.tokensPerAttempt <= l.operatorTokens
        && CentsSince(t, Owner(j.binding.owner), since) + l.centsPerAttempt <= l.ownerCents
        && CentsSince(t, Operator(j.binding.actor), since) + l.centsPerAttempt <= l.operatorCents
  {
    hide Reserved, ReservedOutside, Live, Sum;
    var o, a, since := Owner(t.jobs[id].binding.owner), Operator(t.jobs[id].binding.actor), now - 86_400_000;
    ReservedIsSum(t.budget, o, since);
    ReservedIsSum(t.budget, a, since);
    OutsideIsSum(t.outside, since);
  }

  // ----- sliding budgets -----

  function LimitOf(l: Limits, who: Who, unit: Unit): nat
    requires !who.Anyone?
  {
    match who
    case Owner(_) => if unit == Tokens then l.ownerTokens else l.ownerCents
    case Operator(_) => if unit == Tokens then l.operatorTokens else l.operatorCents
  }

  /** What was reserved for someone in the day that begins after an instant. */
  function InWindow(t: Tables, who: Who, unit: Unit, after: int): nat {
    Reserved(t.budget, who, unit, after, Some(after + 86_400_000))
  }

  function OutsideInWindow(t: Tables, unit: Unit, after: int): nat {
    ReservedOutside(t.outside, unit, after, Some(after + 86_400_000))
  }

  lemma {:induction false} WiderReserves(rs: seq<Reservation>, who: Who, unit: Unit, after: int, until: int, earlier: int)
    requires earlier <= after
    ensures Reserved(rs, who, unit, after, Some(until)) <= Reserved(rs, who, unit, earlier, None)
  {
    if rs != [] { WiderReserves(rs[..|rs| - 1], who, unit, after, until, earlier); }
  }

  lemma {:induction false} WiderReservesOutside(rs: seq<Outside>, unit: Unit, after: int, until: int, earlier: int)
    requires earlier <= after
    ensures ReservedOutside(rs, unit, after, Some(until)) <= ReservedOutside(rs, unit, earlier, None)
  {
    if rs != [] { WiderReservesOutside(rs[..|rs| - 1], unit, after, until, earlier); }
  }

  /** The last reservation made in a window saw all the others in it: none of them is a day older than itself. Claims may
      carry the times of transactions that began in any order; the argument does not need a monotone clock. */
  lemma {:induction false} WindowFits(t: Tables, l: Limits, who: Who, unit: Unit, after: int)
    requires BudgetOk(t, l) && !who.Anyone?
    ensures InWindow(t, who, unit, after) == 0
      || InWindow(t, who, unit, after) + OutsideInWindow(t, unit, after) <= LimitOf(l, who, unit)
    decreases |t.budget|
  {
    hide BudgetOk, Fits;
    if t.budget != [] {
      var n := |t.budget| - 1;
      var r, shorter := t.budget[n], t.(budget := t.budget[..n]);
      if For(who, r.owner, r.actor) && after < r.at <= after + DAY_MS {
        LastFits(t, l, who, unit, after);
      } else {
        PrefixOk(t, l, n);
        WindowFits(shorter, l, who, unit, after);
      }
    }
  }

  lemma LastFits(t: Tables, l: Limits, who: Who, unit: Unit, after: int)
    requires BudgetOk(t, l) && !who.Anyone? && t.budget != []
    requires var r := t.budget[|t.budget| - 1]; For(who, r.owner, r.actor) && after < r.at <= after + DAY_MS
    ensures InWindow(t, who, unit, after) + OutsideInWindow(t, unit, after) <= LimitOf(l, who, unit)
  {
    hide BudgetOk;
    var n := |t.budget| - 1;
    var r := t.budget[n];
    EarlierFits(t, l, n);
    WiderReserves(t.budget[..n], who, unit, after, after + DAY_MS, r.at - DAY_MS);
    WiderReservesOutside(t.outside, unit, after, after + DAY_MS, r.at - DAY_MS);
  }

  lemma PrefixOk(t: Tables, l: Limits, n: nat)
    requires BudgetOk(t, l) && n <= |t.budget|
    ensures BudgetOk(t.(budget := t.budget[..n]), l)
  {
    hide BudgetOk, Fits;
    var u := t.(budget := t.budget[..n]);
    forall i | 0 <= i < |u.budget| ensures FitsBefore(u, l, i) {
      EarlierFits(t, l, i);
      assert u.budget[..i] == t.budget[..i];
      FitsBeforePrefix(t, u, l, i);
    }
    AllFit(u, l);
  }

  lemma FitsBeforePrefix(t: Tables, u: Tables, l: Limits, i: int)
    requires 0 <= i < |t.budget| && i < |u.budget| && FitsBefore(t, l, i)
    requires u.budget[..i] == t.budget[..i] && u.budget[i] == t.budget[i] && u.outside == t.outside && u.jobs == t.jobs
    ensures FitsBefore(u, l, i)
  {
  }

  /** In every run, whatever any owner or operator reserved in any 24 hours, together with the evaluation's reservations
      of those hours, stays within the budget: in tokens and in cents. */
  lemma SlidingBudget(s: System, events: seq<Event>)
    requires Init(s)
    ensures var t := Run(s, events);
      forall who: Who, unit: Unit, after: int :: !who.Anyone? ==>
        InWindow(t.tables, who, unit, after) == 0
        || InWindow(t.tables, who, unit, after) + OutsideInWindow(t.tables, unit, after) <= LimitOf(s.limits, who, unit)
  {
    hide Run, BudgetOk, InWindow, OutsideInWindow;
    Reachable(s, events);
    LimitsFixed(s, events);
    var t := Run(s, events);
    forall who: Who, unit: Unit, after: int | !who.Anyone?
      ensures InWindow(t.tables, who, unit, after) == 0
        || InWindow(t.tables, who, unit, after) + OutsideInWindow(t.tables, unit, after) <= LimitOf(s.limits, who, unit)
    {
      WindowFits(t.tables, t.limits, who, unit, after);
    }
  }

  lemma {:induction false} LimitsFixed(s: System, events: seq<Event>)
    ensures Run(s, events).limits == s.limits && Run(s, events).tables.outside == s.tables.outside
  {
    hide Fits, Eligible;
    if events != [] { LimitsFixed(s, events[..|events| - 1]); }
  }

  // ----- leases, attempts, snapshots -----

  /** At every instant from now on, live leases stay within the global, owner and operator caps. */
  lemma LeasesCapped(s: System, events: seq<Event>, who: Who, at: Time)
    requires Init(s) && at >= Run(s, events).clock
    ensures |Live(Run(s, events).tables, who, at)| <= Cap(s.limits, who)
  {
    hide Run, Live;
    Reachable(s, events);
    LimitsFixed(s, events);
    assert Capped(Run(s, events).tables, s.limits, who, at);
  }

  /** No job is claimed more than three times; each claim is one reservation, never refunded. */
  lemma AtMostThreeClaims(s: System, events: seq<Event>, id: nat)
    requires Init(s)
    ensures Claims(Run(s, events).tables.budget)[id] <= 3
  {
    hide Run, Claims;
    Reachable(s, events);
    var t := Run(s, events).tables;
    if id in t.jobs { assert JobOk(t, id); }
  }

  /** Each investigation's events tell one life; its one snapshot exists exactly if it ever reached proposed; no case has
      two active investigations, and no request is stored twice. */
  lemma EveryJobConsistent(s: System, events: seq<Event>)
    requires Init(s)
    ensures var t := Run(s, events).tables;
      && (forall id :: id in t.jobs ==> HistoryOk(t.jobs[id]) && (id in t.snapshots <==> Proposed in t.jobs[id].history))
      && (forall id :: id in t.snapshots ==> id in t.jobs)
      && Keys(t)
  {
    hide Run, HistoryOk;
    Reachable(s, events);
    var t := Run(s, events).tables;
    forall id | id in t.jobs ensures HistoryOk(t.jobs[id]) && (id in t.snapshots <==> Proposed in t.jobs[id].history) {
      assert JobOk(t, id);
    }
  }

  /** A token that is not the job's any more, because its lease was taken over or ended. */
  ghost predicate Superseded(s: System, id: nat, token: nat) {
    token < s.nextToken && !(id in s.tables.jobs && s.tables.jobs[id].token == Some(token))
  }

  lemma SupersededStays(s: System, e: Event, id: nat, token: nat)
    requires Superseded(s, id, token)
    ensures Superseded(Apply(s, e), id, token)
  {
    hide Fits, Eligible, Live;
  }

  /** A superseded token can never finish, nor fail, the job: not now and not after any further events. */
  lemma {:induction false} SupersededNeverFinishes(s: System, events: seq<Event>, id: nat, token: nat, content: Hash, now: Time)
    requires Superseded(s, id, token)
    ensures Superseded(Run(s, events), id, token)
    ensures Finish(Run(s, events).tables, id, token, content, now) == Stale
    ensures Fail(Run(s, events).tables, id, token) == Stale
  {
    hide Apply;
    if events != [] {
      SupersededNeverFinishes(s, events[..|events| - 1], id, token, content, now);
      SupersededStays(Run(s, events[..|events| - 1]), events[|events| - 1], id, token);
    }
  }

  /** The token is the job's, under a lease that ends at an instant, since its n-th claim. */
  ghost predicate Holds(s: System, id: nat, token: nat, lease: Time, n: nat) {
    && id in s.tables.jobs && token < s.nextToken
    && var j := s.tables.jobs[id];
    && j.token == Some(token) && j.leaseUntil == Some(lease) && j.attempts == n && j.status == Investigating
  }

  /** The token is not the job's any more: it was claimed again, or ended. */
  ghost predicate Gone(s: System, id: nat, token: nat, n: nat) {
    && Superseded(s, id, token) && id in s.tables.jobs
    && var j := s.tables.jobs[id];
    && j.attempts >= n && (j.attempts > n || (j.status != Investigating && j.status != Queued))
  }

  lemma HeldOrGone(s: System, e: Event, id: nat, token: nat, lease: Time, n: nat)
    requires Holds(s, id, token, lease, n)
    ensures Holds(Apply(s, e), id, token, lease, n) || Gone(Apply(s, e), id, token, n)
  {
    hide Fits, Live;
  }

  lemma GoneStays(s: System, e: Event, id: nat, token: nat, n: nat)
    requires Gone(s, id, token, n)
    ensures Gone(Apply(s, e), id, token, n)
  {
    hide Fits, Live, Superseded;
    SupersededStays(s, e, id, token);
  }

  /** A current token keeps the lease it was claimed with until it is lost for good. */
  lemma {:induction false} LeaseNeverChanges(s: System, events: seq<Event>, id: nat, token: nat, lease: Time, n: nat)
    requires Holds(s, id, token, lease, n)
    ensures Holds(Run(s, events), id, token, lease, n) || Gone(Run(s, events), id, token, n)
  {
    hide Apply, Holds, Gone;
    if events != [] {
      var before := Run(s, events[..|events| - 1]);
      LeaseNeverChanges(s, events[..|events| - 1], id, token, lease, n);
      if Holds(before, id, token, lease, n) { HeldOrGone(before, events[|events| - 1], id, token, lease, n); }
      else { GoneStays(before, events[|events| - 1], id, token, n); }
    }
  }

  /** An expired token never finishes: whatever happens after the claim, no finish under it succeeds from the end of its
      lease on, whether the token is still the job's or was taken over. */
  lemma ExpiredNeverFinishes(s: System, events: seq<Event>, id: nat, token: nat, lease: Time, n: nat, content: Hash, now: Time)
    requires Holds(s, id, token, lease, n) || Superseded(s, id, token)
    requires now >= lease
    ensures Finish(Run(s, events).tables, id, token, content, now) == Stale
  {
    hide Run;
    if Holds(s, id, token, lease, n) {
      LeaseNeverChanges(s, events, id, token, lease, n);
    } else {
      SupersededNeverFinishes(s, events, id, token, content, now);
    }
  }

  /** Giving up asks for less than finishing: at any time after its claim, within its lease or long after it, an owner's
      failure is recorded exactly as long as the job has neither been claimed again nor ended. */
  lemma FailsExactlyUntilTakenOver(s: System, events: seq<Event>, id: nat, token: nat, lease: Time, n: nat)
    requires Holds(s, id, token, lease, n)
    ensures id in Run(s, events).tables.jobs
    ensures var j := Run(s, events).tables.jobs[id];
      Fail(Run(s, events).tables, id, token).Committed? <==> j.attempts == n && j.status == Investigating
  {
    hide Run;
    LeaseNeverChanges(s, events, id, token, lease, n);
  }

  // ----- a claim protects its owner -----

  /** The event by which a job got this token. */
  ghost predicate ClaimedBy(s: System, e: Event, id: nat, token: nat) {
    && e.Poll? && e.now <= s.clock && e.choice == Some(id) && token == s.nextToken
    && id in Apply(s, e).tables.jobs && Apply(s, e).tables.jobs[id].token == Some(token)
  }

  lemma ClaimStartsLease(s: System, e: Event, id: nat, token: nat)
    requires TokensOk(s.tables, s.nextToken) && ClaimedBy(s, e, id, token)
    ensures Holds(Apply(s, e), id, token, e.now + 90_000, Apply(s, e).tables.jobs[id].attempts)
  {
    hide Fits, Live;
  }

  /** The owner ends its own claim. */
  predicate EndsOwn(e: Event, id: nat, token: nat) {
    (e.Propose? || e.GiveUp?) && e.id == id && e.token == token
  }

  lemma OnlyOwnerEnds(s: System, e: Event, id: nat, token: nat, lease: Time, n: nat)
    requires Holds(s, id, token, lease, n) && s.clock <= lease && !EndsOwn(e, id, token)
    ensures Holds(Apply(s, e), id, token, lease, n)
  {
    hide Fits, Live;
  }

  lemma {:induction false} ClockMonotone(s: System, events: seq<Event>, k: nat)
    requires k <= |events|
    ensures Run(s, events[..k]).clock <= Run(s, events).clock
    decreases |events|
  {
    if k == |events| {
      assert events[..k] == events;
    } else {
      assert events[..|events| - 1][..k] == events[..k];
      ClockMonotone(s, events[..|events| - 1], k);
    }
  }

  lemma {:induction false} HeldThroughout(s: System, events: seq<Event>, id: nat, token: nat, lease: Time, n: nat)
    requires Holds(s, id, token, lease, n) && Run(s, events).clock <= lease
    requires forall i :: 0 <= i < |events| ==> !EndsOwn(events[i], id, token)
    ensures Holds(Run(s, events), id, token, lease, n)
  {
    hide Holds, Apply;
    if events != [] {
      ClockMonotone(s, events, |events| - 1);
      HeldThroughout(s, events[..|events| - 1], id, token, lease, n);
      OnlyOwnerEnds(Run(s, events[..|events| - 1]), events[|events| - 1], id, token, lease, n);
    }
  }

  /** A claim protects its owner for exactly ninety seconds: until the clock has passed them, and unless the owner itself
      finished or failed, the job is still its own after whatever else happened, live before the last instant, and open to
      another claim or to the final sweep only after it. */
  lemma LeaseProtectsOwner(s: System, claim: Event, events: seq<Event>, id: nat, token: nat)
    requires TokensOk(s.tables, s.nextToken) && ClaimedBy(s, claim, id, token)
    requires forall i :: 0 <= i < |events| ==> !EndsOwn(events[i], id, token)
    requires Run(Apply(s, claim), events).clock <= claim.now + 90_000
    ensures var t := Run(Apply(s, claim), events);
      && id in t.tables.jobs && t.tables.jobs[id].token == Some(token)
      && (forall at: Time :: LiveJob(t.tables.jobs[id], at) <==> at < claim.now + 90_000)
      && (forall at: Time :: Claimable(t.tables.jobs[id], at) || Exhausted(t.tables.jobs[id], at) <==> at > claim.now + 90_000)
  {
    hide Run, Apply;
    ClaimStartsLease(s, claim, id, token);
    HeldThroughout(Apply(s, claim), events, id, token, claim.now + 90_000, Apply(s, claim).tables.jobs[id].attempts);
  }

  /** What is never taken back: a finished job's snapshot, a job's row, its reservations. */
  ghost predicate Kept(t: Tables, u: Tables) {
    && t.jobs.Keys <= u.jobs.Keys
    && (forall id :: id in t.snapshots ==> id in u.snapshots && u.snapshots[id] == t.snapshots[id])
    && t.budget <= u.budget
  }

  lemma EventKeeps(s: System, e: Event)
    ensures Kept(s.tables, Apply(s, e).tables)
  {
    hide Fits, Eligible, Live;
  }

  lemma {:induction false} NothingTakenBack(s: System, events: seq<Event>)
    ensures Kept(s.tables, Run(s, events).tables)
  {
    hide Apply;
    if events != [] {
      NothingTakenBack(s, events[..|events| - 1]);
      EventKeeps(Run(s, events[..|events| - 1]), events[|events| - 1]);
    }
  }

  // ----- draining -----

  /** A multiset that holds none of a set's elements more than three times, and nothing else. */
  lemma {:induction false} AtMostThreeEach(m: multiset<nat>, ids: set<nat>)
    requires forall id :: m[id] <= if id in ids then MAX_ATTEMPTS else 0
    ensures |m| <= MAX_ATTEMPTS * |ids|
    decreases |ids|
  {
    if ids == {} {
      assert m == multiset{};
    } else {
      var id :| id in ids;
      AtMostThreeEach(m[id := 0], ids - {id});
    }
  }

  /** What may still be claimed: the attempts left, over all jobs. */
  function Remaining(t: Tables): int {
    MAX_ATTEMPTS * |t.jobs| - |t.budget|
  }

  lemma RemainingIsNatural(t: Tables)
    requires JobsOk(t) && ClaimsOk(t)
    ensures Remaining(t) >= 0
  {
    hide Claims;
    forall id ensures Claims(t.budget)[id] <= if id in t.jobs.Keys then MAX_ATTEMPTS else 0 {
      if id in t.jobs { assert JobOk(t, id); }
    }
    AtMostThreeEach(Claims(t.budget), t.jobs.Keys);
  }

  lemma EventDrains(s: System, e: Event)
    requires !e.RequestJob?
    ensures Apply(s, e).tables.jobs.Keys == s.tables.jobs.Keys
  {
    hide Fits, Live;
    var t, u := s.tables, Apply(s, e).tables;
    forall id ensures id in u.jobs.Keys <==> id in t.jobs.Keys { }
  }

  lemma {:induction false} JobsFixed(s: System, events: seq<Event>)
    requires forall i :: 0 <= i < |events| ==> !events[i].RequestJob?
    ensures Run(s, events).tables.jobs.Keys == s.tables.jobs.Keys
  {
    hide Apply;
    if events != [] {
      JobsFixed(s, events[..|events| - 1]);
      EventDrains(Run(s, events[..|events| - 1]), events[|events| - 1]);
    }
  }

  /** When no jobs arrive, all pollers together claim no more often than attempts are left, in any interleaving. */
  lemma ClaimsAreBounded(s: System, events: seq<Event>)
    requires Inv(s) && forall i :: 0 <= i < |events| ==> !events[i].RequestJob?
    ensures |Run(s, events).tables.budget| - |s.tables.budget| <= Remaining(s.tables)
  {
    hide Inv, Run, BudgetOk, Keys, JobsOk, ClaimsOk, CapsOk, TokensOk;
    JobsFixed(s, events);
    RunKeeps(s, events);
    RowsOf(Run(s, events));
    RemainingIsNatural(Run(s, events).tables);
    assert |Run(s, events).tables.jobs| == |Run(s, events).tables.jobs.Keys| == |s.tables.jobs.Keys| == |s.tables.jobs|;
  }

  lemma RowsOf(s: System)
    requires Inv(s)
    ensures JobsOk(s.tables) && ClaimsOk(s.tables)
  {
  }
}

/** The configured limits of the investigation agent, and the ceiling on what one attempt may cost. */
module OperationalLimits {
  import opened Domain
  import opened Investigations
  import opened InvestigationRuns
  import opened InvestigationTheorems

  const TOKENS_PER_ATTEMPT := 64_000
  const GLOBAL_CONCURRENCY := 2

  /** A deployment value: absent, an integer, or something else. */
  datatype Setting = Unset | Whole(n: int) | NotWhole

  /** The deployment, with money as exact amounts in dollars per million tokens. */
  datatype Deployment = Deployment(
    enabled: bool, supportedModel: bool, inputRate: Option<real>, outputRate: Option<real>, modelTimeout: Setting,
    ownerRequests: Setting, operatorRequests: Setting, ownerConcurrency: Setting, operatorConcurrency: Setting,
    ownerTokens: Setting, operatorTokens: Setting, ownerCents: Setting, operatorCents: Setting)

  function Bounded(s: Setting, fallback: nat, maximum: nat): (r: Option<nat>)
    requires 1 <= fallback <= maximum
    ensures r.Some? ==> 1 <= r.value <= maximum
  {
    var value := if s.Unset? then Whole(fallback) else s;
    if value.Whole? && 1 <= value.n <= maximum then Some(value.n) else None
  }

  function PositiveMoney(amount: Option<real>): Option<real> {
    if amount.Some? && 0.0 < amount.value <= 100000.0 then amount else None
  }

  function Larger(a: real, b: real): real {
    if a < b then b else a
  }

  function Ceiling(x: real): int {
    -((-x).Floor)
  }

  /** The full price of an attempt in cents at the dearer of the two rates, and at least one cent. */
  function CostCeiling(tokens: nat, inputRate: real, outputRate: real): nat
    requires inputRate >= 0.0 && outputRate >= 0.0
  {
    var cents := Ceiling(tokens as real * Larger(inputRate, outputRate) / 10000.0);
    if cents < 1 then 1 else cents
  }

  /** A value that is absent or within its bounds. */
  predicate InBounds(s: Setting, maximum: nat) {
    s == Unset || (s.Whole? && 1 <= s.n <= maximum)
  }

  function Chosen(s: Setting, fallback: int): int {
    if s.Whole? then s.n else fallback
  }

  /** A rate that covers the standard price of the model. */
  predicate Covers(rate: Option<real>, price: real) {
    rate.Some? && price <= rate.value <= 100000.0
  }

  /** The deployments that get limits at all. */
  predicate Acceptable(d: Deployment) {
    && InBounds(d.modelTimeout, 45_000)
    && InBounds(d.ownerRequests, 1_000) && InBounds(d.operatorRequests, 1_000)
    && InBounds(d.ownerConcurrency, 10) && InBounds(d.operatorConcurrency, 10)
    && InBounds(d.ownerTokens, 1_000_000) && InBounds(d.operatorTokens, 1_000_000)
    && (d.enabled ==>
      && d.supportedModel && Covers(d.inputRate, 0.30) && Covers(d.outputRate, 2.50)
      && InBounds(d.ownerCents, 1_000_000) && InBounds(d.operatorCents, 1_000_000))
  }

  /** A deployment gets limits exactly when each of its values is in bounds, and each limit is its own value or, where there
      is none, its default. While the agent is disabled money plays no part. */
  method OperationalLimits(d: Deployment) returns (r: Option<Limits>)
    ensures r.Some? <==> Acceptable(d)
    ensures r.Some? ==>
      && r.value.maxConcurrency == 2 && r.value.tokensPerAttempt == 64_000
      && r.value.ownerRequests == Chosen(d.ownerRequests, 20) && r.value.operatorRequests == Chosen(d.operatorRequests, 20)
      && r.value.ownerConcurrency == Chosen(d.ownerConcurrency, 2) && r.value.operatorConcurrency == Chosen(d.operatorConcurrency, 2)
      && r.value.ownerTokens == Chosen(d.ownerTokens, 256_000) && r.value.operatorTokens == Chosen(d.operatorTokens, 256_000)
    ensures r.Some? && d.enabled ==>
      && r.value.ownerCents == Chosen(d.ownerCents, 100) && r.value.operatorCents == Chosen(d.operatorCents, 100)
      && r.value.centsPerAttempt == CostCeiling(64_000, d.inputRate.value, d.outputRate.value)
    ensures r.Some? && !d.enabled ==> r.value.centsPerAttempt == r.value.ownerCents == r.value.operatorCents == 0
  {
    if d.enabled && !d.supportedModel { return None; }
    var rates := (0.0, 0.0);
    if d.enabled {
      var input, output := PositiveMoney(d.inputRate), PositiveMoney(d.outputRate);
      if input.None? || output.None? { return None; }
      if input.value < 0.30 || output.value < 2.50 { return None; }
      rates := (input.value, output.value);
    }
    if Bounded(d.modelTimeout, 15_000, 45_000).None? { return None; }
    var requests := (Bounded(d.ownerRequests, 20, 1000), Bounded(d.operatorRequests, 20, 1000));
    var concurrency := (Bounded(d.ownerConcurrency, 2, 10), Bounded(d.operatorConcurrency, 2, 10));
    var tokens := (Bounded(d.ownerTokens, 256_000, 1_000_000), Bounded(d.operatorTokens, 256_000, 1_000_000));
    var cents := if d.enabled then (Bounded(d.ownerCents, 100, 1_000_000), Bounded(d.operatorCents, 100, 1_000_000))
                 else (Some(0), Some(0));
    if requests.0.None? || requests.1.None? || concurrency.0.None? || concurrency.1.None?
      || tokens.0.None? || tokens.1.None? || cents.0.None? || cents.1.None? { return None; }
    return Some(Limits(GLOBAL_CONCURRENCY, concurrency.0.value, concurrency.1.value, TOKENS_PER_ATTEMPT,
      if d.enabled then CostCeiling(TOKENS_PER_ATTEMPT, rates.0, rates.1) else 0,
      tokens.0.value, tokens.1.value, cents.0.value, cents.1.value, requests.0.value, requests.1.value));
  }

  // ----- what an attempt may really cost -----

  /** What an attempt that used these tokens costs, in cents. */
  function RealCost(input: nat, output: nat, inputRate: real, outputRate: real): real {
    (input as real * inputRate + output as real * outputRate) / 10000.0
  }

  lemma Scale(n: nat, rate: real, larger: real)
    requires 0.0 <= rate <= larger
    ensures n as real * rate <= n as real * larger
  {
    assert n as real * (larger - rate) >= 0.0;
  }

  lemma MoreTokens(m: nat, n: nat, rate: real)
    requires m <= n && rate >= 0.0
    ensures m as real * rate <= n as real * rate
  {
    assert (n - m) as real * rate >= 0.0;
    assert n as real == m as real + (n - m) as real;
  }

  lemma SplitCosts(tokens: nat, input: nat, output: nat, inputRate: real, outputRate: real, dearer: real)
    requires input + output <= tokens && 0.0 <= inputRate <= dearer && 0.0 <= outputRate <= dearer
    ensures input as real * inputRate + output as real * outputRate <= tokens as real * dearer
  {
    Scale(input, inputRate, dearer);
    Scale(output, outputRate, dearer);
    Distribute(input, output, dearer);
    MoreTokens(input + output, tokens, dearer);
    AddBoth(input as real * inputRate, output as real * outputRate, input as real * dearer, output as real * dearer,
            tokens as real * dearer);
  }

  lemma AddBoth(a: real, b: real, c: real, d: real, total: real)
    requires a <= c && b <= d && c + d <= total
    ensures a + b <= total
  {
  }

  lemma Distribute(a: nat, b: nat, rate: real)
    ensures a as real * rate + b as real * rate == (a + b) as real * rate
  {
    assert (a + b) as real == a as real + b as real;
  }

  lemma Divide(a: real, b: real)
    requires a <= b
    ensures a / 10000.0 <= b / 10000.0
  {
  }

  /** The reservation covers any split of the attempt's tokens into input and output. */
  lemma CeilingCoversEverySplit(tokens: nat, input: nat, output: nat, inputRate: real, outputRate: real)
    requires input + output <= tokens && inputRate >= 0.0 && outputRate >= 0.0
    ensures RealCost(input, output, inputRate, outputRate) <= CostCeiling(tokens, inputRate, outputRate) as real
  {
    var dearer := Larger(inputRate, outputRate);
    SplitCosts(tokens, input, output, inputRate, outputRate, dearer);
    Divide(input as real * inputRate + output as real * outputRate, tokens as real * dearer);
    assert tokens as real * dearer / 10000.0 <= CostCeiling(tokens, inputRate, outputRate) as real;
  }

  /** And no smaller whole number of cents does, unless it is less than one. */
  lemma CeilingIsLeast(tokens: nat, inputRate: real, outputRate: real, cents: nat)
    requires inputRate >= 0.0 && outputRate >= 0.0 && cents >= 1
    requires forall input: nat, output: nat :: input + output <= tokens ==> RealCost(input, output, inputRate, outputRate) <= cents as real
    ensures CostCeiling(tokens, inputRate, outputRate) <= cents
  {
    assert RealCost(tokens, 0, inputRate, outputRate) == tokens as real * inputRate / 10000.0;
    assert RealCost(0, tokens, inputRate, outputRate) == tokens as real * outputRate / 10000.0;
    assert tokens as real * Larger(inputRate, outputRate) / 10000.0 <= cents as real;
  }

  /** What the attempts behind a list of reservations really cost in a window, given what each used. */
  function Spent(rs: seq<Reservation>, used: seq<(nat, nat)>, who: Who, after: int, until: int, rates: (real, real)): real
    requires |used| == |rs|
  {
    if rs == [] then 0.0
    else
      var r, u := rs[|rs| - 1], used[|rs| - 1];
      Spent(rs[..|rs| - 1], used[..|rs| - 1], who, after, until, rates)
      + if For(who, r.owner, r.actor) && after < r.at <= until then RealCost(u.0, u.1, rates.0, rates.1) else 0.0
  }

  lemma {:induction false} SpentWithinReserved(rs: seq<Reservation>, used: seq<(nat, nat)>, who: Who, after: int, until: int,
                                              rates: (real, real))
    requires |used| == |rs| && rates.0 >= 0.0 && rates.1 >= 0.0
    requires forall i :: 0 <= i < |rs| ==> rs[i].cents == CostCeiling(TOKENS_PER_ATTEMPT, rates.0, rates.1)
    requires forall i :: 0 <= i < |used| ==> used[i].0 + used[i].1 <= TOKENS_PER_ATTEMPT
    ensures Spent(rs, used, who, after, until, rates) <= Reserved(rs, who, Cents, after, Some(until)) as real
  {
    hide CostCeiling, RealCost;
    if rs != [] {
      var n := |rs| - 1;
      SpentWithinReserved(rs[..n], used[..n], who, after, until, rates);
      CeilingCoversEverySplit(TOKENS_PER_ATTEMPT, used[n].0, used[n].1, rates.0, rates.1);
    }
  }

  /** Hence what anyone's attempts really cost in any 24 hours stays within the spend budget, however they used their
      tokens. */
  lemma RealSpendWithinBudget(s: System, events: seq<Event>, used: seq<(nat, nat)>, who: Who, after: int, rates: (real, real))
    requires Init(s) && !who.Anyone? && rates.0 >= 0.0 && rates.1 >= 0.0
    requires s.limits.centsPerAttempt == CostCeiling(TOKENS_PER_ATTEMPT, rates.0, rates.1)
    requires |used| == |Run(s, events).tables.budget|
    requires forall i :: 0 <= i < |used| ==> used[i].0 + used[i].1 <= TOKENS_PER_ATTEMPT
    ensures Spent(Run(s, events).tables.budget, used, who, after, after + DAY_MS, rates)
      <= LimitOf(s.limits, who, Cents) as real
  {
    hide Run, Spent, Reserved, CostCeiling, BudgetOk;
    SlidingBudget(s, events);
    Reachable(s, events);
    LimitsFixed(s, events);
    var t := Run(s, events);
    forall i | 0 <= i < |t.tables.budget| ensures t.tables.budget[i].cents == CostCeiling(TOKENS_PER_ATTEMPT, rates.0, rates.1) {
      EarlierFits(t.tables, t.limits, i);
    }
    SpentWithinReserved(t.tables.budget, used, who, after, after + DAY_MS, rates);
    assert InWindow(t.tables, who, Cents, after) <= LimitOf(s.limits, who, Cents);
  }
}

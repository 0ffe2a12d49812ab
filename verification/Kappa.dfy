/** Cohen's kappa over pairs of ratings, in exact arithmetic. */
module Kappa {
  import opened Domain

  type Pair = (bool, bool)

  function Count(pairs: seq<Pair>, left: bool, right: bool): nat {
    if pairs == [] then 0
    else (if pairs[0] == (left, right) then 1 else 0) + Count(pairs[1..], left, right)
  }

  /** How many pairs satisfy a test, as a filter's length. */
  function Filtered(pairs: seq<Pair>, test: Pair -> bool): (n: nat)
    ensures n <= |pairs|
  {
    if pairs == [] then 0 else (if test(pairs[0]) then 1 else 0) + Filtered(pairs[1..], test)
  }

  predicate Same(p: Pair) { p.0 == p.1 }

  predicate LeftTrue(p: Pair) { p.0 }

  predicate RightTrue(p: Pair) { p.1 }

  function Share(n: nat, total: nat): real
    requires total > 0
  {
    n as real / total as real
  }

  function Observed(pairs: seq<Pair>): real
    requires pairs != []
  {
    Share(Filtered(pairs, Same), |pairs|)
  }

  function Expected(pairs: seq<Pair>): real
    requires pairs != []
  {
    var left, right := Share(Filtered(pairs, LeftTrue), |pairs|), Share(Filtered(pairs, RightTrue), |pairs|);
    left * right + (1.0 - left) * (1.0 - right)
  }

  function CohenKappa(pairs: seq<Pair>): (r: Option<real>)
    ensures r.None? <==> pairs == []
  {
    if pairs == [] then None
    else if Expected(pairs) == 1.0 then Some(if Observed(pairs) == 1.0 then 1.0 else 0.0)
    else Some((Observed(pairs) - Expected(pairs)) / (1.0 - Expected(pairs)))
  }

  // ----- counts -----

  /** Each pair is of exactly one of the four kinds. */
  lemma OneKind(p: Pair)
    ensures (if p == (true, true) then 1 else 0) + (if p == (true, false) then 1 else 0)
          + (if p == (false, true) then 1 else 0) + (if p == (false, false) then 1 else 0) == 1
    ensures (if Same(p) then 1 else 0) == (if p == (true, true) then 1 else 0) + (if p == (false, false) then 1 else 0)
    ensures (if LeftTrue(p) then 1 else 0) == (if p == (true, true) then 1 else 0) + (if p == (true, false) then 1 else 0)
    ensures (if RightTrue(p) then 1 else 0) == (if p == (true, true) then 1 else 0) + (if p == (false, true) then 1 else 0)
  {
    if p.0 {
      if p.1 { assert p == (true, true); } else { assert p == (true, false); }
    } else {
      if p.1 { assert p == (false, true); } else { assert p == (false, false); }
    }
  }

  lemma {:induction false} CountsAddUp(pairs: seq<Pair>)
    ensures Count(pairs, true, true) + Count(pairs, true, false) + Count(pairs, false, true) + Count(pairs, false, false) == |pairs|
    ensures Filtered(pairs, Same) == Count(pairs, true, true) + Count(pairs, false, false)
    ensures Filtered(pairs, LeftTrue) == Count(pairs, true, true) + Count(pairs, true, false)
    ensures Filtered(pairs, RightTrue) == Count(pairs, true, true) + Count(pairs, false, true)
  {
    if pairs != [] {
      CountsAddUp(pairs[1..]);
      OneKind(pairs[0]);
    }
  }

  lemma {:induction false} AgreementByCounts(pairs: seq<Pair>)
    ensures Count(pairs, true, false) == 0 && Count(pairs, false, true) == 0 <==> forall p :: p in pairs ==> p.0 == p.1
  {
    if pairs != [] {
      AgreementByCounts(pairs[1..]);
      assert pairs == [pairs[0]] + pairs[1..];
    }
  }

  // ----- arithmetic -----

  /** The two differences the coefficient is made of, in the shares of the four kinds of pairs. */
  lemma Differences(x: real, y: real, z: real, w: real)
    requires x + y + z + w == 1.0
    ensures var e := (x + y) * (x + z) + (1.0 - (x + y)) * (1.0 - (x + z));
      && 1.0 - e == (x + y) * (y + w) + (z + w) * (x + z)
      && x + w - e == 2.0 * (x * w - y * z)
  {
    assert 1.0 - (x + y) == z + w && 1.0 - (x + z) == y + w;
    var one := (x + y) + (z + w);
    assert one == 1.0;
    assert (x + y) * (x + z) + (x + y) * (y + w) == (x + y) * 1.0;
    assert (z + w) * (x + z) + (z + w) * (y + w) == (z + w) * 1.0;
    assert x + w == (x + w) * (x + y + z + w);
  }

  lemma NonNegative(a: real, b: real)
    requires a >= 0.0 && b >= 0.0
    ensures a * b >= 0.0
  {
  }

  lemma Square(a: real)
    ensures a * a >= 0.0
  {
  }

  /** What separates the coefficient's numerator from its denominator: above it, just the share of disagreements. */
  lemma Bounds(x: real, y: real, z: real, w: real)
    requires x >= 0.0 && y >= 0.0 && z >= 0.0 && w >= 0.0 && x + y + z + w == 1.0
    ensures var num, den := 2.0 * (x * w - y * z), (x + y) * (y + w) + (z + w) * (x + z);
      den - num == y + z && -den <= num <= den
  {
    var num, den := 2.0 * (x * w - y * z), (x + y) * (y + w) + (z + w) * (x + z);
    assert den - num == (y + z) * (x + y + z + w);
    assert den + num == 4.0 * (x * w) + (y + z) * (x + w) + (y - z) * (y - z);
    NonNegative(x, w);
    NonNegative(y + z, x + w);
    Square(y - z);
  }

  lemma Quotient(num: real, den: real)
    requires -den <= num <= den && den > 0.0
    ensures -1.0 <= num / den <= 1.0
    ensures num / den == 1.0 <==> num == den
  {
    assert num == (num / den) * den;
  }

  lemma SharesOf(pairs: seq<Pair>)
    requires pairs != []
    ensures var x, y, z, w := Share(Count(pairs, true, true), |pairs|), Share(Count(pairs, true, false), |pairs|),
                              Share(Count(pairs, false, true), |pairs|), Share(Count(pairs, false, false), |pairs|);
      && x >= 0.0 && y >= 0.0 && z >= 0.0 && w >= 0.0 && x + y + z + w == 1.0
      && Observed(pairs) == x + w
      && Expected(pairs) == (x + y) * (x + z) + (1.0 - (x + y)) * (1.0 - (x + z))
      && (y == 0.0 <==> Count(pairs, true, false) == 0) && (z == 0.0 <==> Count(pairs, false, true) == 0)
  {
    hide Count, Filtered, Share;
    CountsAddUp(pairs);
    FourShares(Count(pairs, true, true), Count(pairs, true, false), Count(pairs, false, true), Count(pairs, false, false), |pairs|);
  }

  lemma FourShares(a: nat, b: nat, c: nat, d: nat, n: nat)
    requires n > 0 && a + b + c + d == n
    ensures var x, y, z, w := Share(a, n), Share(b, n), Share(c, n), Share(d, n);
      && x >= 0.0 && y >= 0.0 && z >= 0.0 && w >= 0.0 && x + y + z + w == 1.0
      && Share(a + d, n) == x + w && Share(a + b, n) == x + y && Share(a + c, n) == x + z
      && (y == 0.0 <==> b == 0) && (z == 0.0 <==> c == 0)
  {
    hide Share;
    AddShares(a, d, n);
    AddShares(a, b, n);
    AddShares(a, c, n);
    AddShares(b, c, n);
    AddShares(a + d, b + c, n);
    WholeShare(n);
    ZeroShare(a, n);
    ZeroShare(b, n);
    ZeroShare(c, n);
    ZeroShare(d, n);
  }

  lemma ShareTimes(a: nat, n: nat)
    requires n > 0
    ensures Share(a, n) * n as real == a as real
  {
  }

  lemma Grows(a: real, n: real)
    requires a > 0.0 && n > 0.0
    ensures a * n > 0.0
  {
  }

  lemma TimesTotal(p: real, q: real, n: real)
    requires n > 0.0 && p < q
    ensures p * n < q * n
  {
    Grows(q - p, n);
    assert (q - p) * n == q * n - p * n;
  }

  lemma CancelTotal(p: real, q: real, n: real)
    requires n > 0.0 && p * n == q * n
    ensures p == q
  {
    if p < q { TimesTotal(p, q, n); }
    if q < p { TimesTotal(q, p, n); }
  }

  lemma WholeShare(n: nat)
    requires n > 0
    ensures Share(n, n) == 1.0
  {
    hide Share;
    ShareTimes(n, n);
    assert 1.0 * n as real == n as real;
    CancelTotal(Share(n, n), 1.0, n as real);
  }

  lemma Distribute(p: real, q: real, n: real)
    ensures (p + q) * n == p * n + q * n
  {
  }

  lemma AddShares(a: nat, b: nat, n: nat)
    requires n > 0
    ensures Share(a, n) + Share(b, n) == Share(a + b, n)
  {
    hide Share;
    ShareTimes(a, n);
    ShareTimes(b, n);
    ShareTimes(a + b, n);
    assert (a + b) as real == a as real + b as real;
    Distribute(Share(a, n), Share(b, n), n as real);
    CancelTotal(Share(a, n) + Share(b, n), Share(a + b, n), n as real);
  }

  lemma ZeroShare(a: nat, n: nat)
    requires n > 0
    ensures Share(a, n) >= 0.0
    ensures Share(a, n) == 0.0 <==> a == 0
  {
    ShareTimes(a, n);
  }

  /** For every non-empty list of pairs the coefficient lies between -1 and 1, it is 1 exactly when all pairs agree, and when
      the expected agreement is 1 so is the observed one: the fallback value 0 is never taken. */
  lemma KappaBounds(pairs: seq<Pair>)
    requires pairs != []
    ensures CohenKappa(pairs).Some? && -1.0 <= CohenKappa(pairs).value <= 1.0
    ensures CohenKappa(pairs).value == 1.0 <==> forall p :: p in pairs ==> p.0 == p.1
    ensures Expected(pairs) == 1.0 ==> Observed(pairs) == 1.0
  {
    hide Observed, Expected, Share, Count;
    var x, y, z, w := Share(Count(pairs, true, true), |pairs|), Share(Count(pairs, true, false), |pairs|),
                      Share(Count(pairs, false, true), |pairs|), Share(Count(pairs, false, false), |pairs|);
    SharesOf(pairs);
    Differences(x, y, z, w);
    Bounds(x, y, z, w);
    AgreementByCounts(pairs);
    var num, den := Observed(pairs) - Expected(pairs), 1.0 - Expected(pairs);
    assert num == 2.0 * (x * w - y * z) && den == (x + y) * (y + w) + (z + w) * (x + z);
    if Expected(pairs) != 1.0 {
      assert den > 0.0;
      Quotient(num, den);
    }
  }

  lemma KappaByShares(pairs: seq<Pair>)
    requires pairs != []
    ensures var x, y, z, w := Share(Count(pairs, true, true), |pairs|), Share(Count(pairs, true, false), |pairs|),
                              Share(Count(pairs, false, true), |pairs|), Share(Count(pairs, false, false), |pairs|);
      CohenKappa(pairs).Some? && CohenKappa(pairs).value * ((x + y) * (y + w) + (z + w) * (x + z)) == 2.0 * (x * w - y * z)
  {
    hide Observed, Expected, Share, Count;
    var x, y, z, w := Share(Count(pairs, true, true), |pairs|), Share(Count(pairs, true, false), |pairs|),
                      Share(Count(pairs, false, true), |pairs|), Share(Count(pairs, false, false), |pairs|);
    SharesOf(pairs);
    Differences(x, y, z, w);
    Bounds(x, y, z, w);
    var num, den := Observed(pairs) - Expected(pairs), 1.0 - Expected(pairs);
    assert num == 2.0 * (x * w - y * z) && den == (x + y) * (y + w) + (z + w) * (x + z);
    if Expected(pairs) != 1.0 { Undivide(num, den); } else { assert den == 0.0 && num == 0.0; }
  }

  lemma Undivide(num: real, den: real)
    requires den != 0.0
    ensures num / den * den == num
  {
  }

  lemma Scaled(p: real, q: real, n: real)
    ensures p * q * (n * n) == (p * n) * (q * n)
  {
  }

  lemma ScaledSum(k: real, e: real, f: real, g: real, h: real, m: real)
    requires k * (e + f) == 2.0 * (g - h)
    ensures k * (e * m + f * m) == 2.0 * (g * m - h * m)
  {
    assert e * m + f * m == (e + f) * m;
    assert k * ((e + f) * m) == (k * (e + f)) * m;
  }

  /** The coefficient in the counts of the four kinds of pairs: how far agreement exceeds what the two raters' shares alone
      make expect, of all it could. */
  lemma KappaByCounts(pairs: seq<Pair>)
    requires pairs != []
    ensures var a, b, c, d := Count(pairs, true, true) as real, Count(pairs, true, false) as real,
                              Count(pairs, false, true) as real, Count(pairs, false, false) as real;
      CohenKappa(pairs).Some? && CohenKappa(pairs).value * ((a + b) * (b + d) + (c + d) * (a + c)) == 2.0 * (a * d - b * c)
  {
    hide CohenKappa, Share, Count;
    var n := |pairs|;
    var r := n as real;
    var x, y, z, w := Share(Count(pairs, true, true), n), Share(Count(pairs, true, false), n),
                      Share(Count(pairs, false, true), n), Share(Count(pairs, false, false), n);
    KappaByShares(pairs);
    ShareTimes(Count(pairs, true, true), n);
    ShareTimes(Count(pairs, true, false), n);
    ShareTimes(Count(pairs, false, true), n);
    ShareTimes(Count(pairs, false, false), n);
    ScaledSum(CohenKappa(pairs).value, (x + y) * (y + w), (z + w) * (x + z), x * w, y * z, r * r);
    Scaled(x + y, y + w, r);
    Scaled(z + w, x + z, r);
    Scaled(x, w, r);
    Scaled(y, z, r);
    Distribute(x, y, r);
    Distribute(y, w, r);
    Distribute(z, w, r);
    Distribute(x, z, r);
  }
}

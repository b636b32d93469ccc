/**
 * Shared vocabulary of the decision scripts: optional and failing results,
 * the inverter action words, and the few numeric primitives whose Python
 * semantics differ from plain arithmetic on `real` (truncating `int()`,
 * the `% 24` hour wrap, `**` with a natural exponent).
 */
module Common {

  datatype Option<+T> = None | Some(value: T)

  /** The Python exceptions a script can raise and not catch. */
  datatype PyError =
    | ValueError     // max()/min() of an empty list
    | TypeError      // an operation applied to a value of the wrong type
    | KeyError       // a missing dictionary key looked up with []
    | IndexError     // a list position outside the list
    | NameError      // a variable read before any statement assigned it
    | AttributeError // a method called on a value that does not have it

  datatype Result<+T> = Ok(value: T) | Err(error: PyError)

  /** The `action` words the scripts hand back to the host. */
  datatype Action = Auto | Import | Export | Charge | Discharge | Fullstop | AutoApiCurtail
  {
    function Text(): string {
      match this
      case Auto => "auto"
      case Import => "import"
      case Export => "export"
      case Charge => "charge"
      case Discharge => "discharge"
      case Fullstop => "fullstop"
      case AutoApiCurtail => "auto_api_curtail"
    }
  }

  /** The weather class of tomorrow's solar forecast. */
  datatype SolarClass = Sunny | Normal | Rainy

  /** Classes ordered by how much sun they promise. */
  function SolarRank(c: SolarClass): nat
  {
    match c
    case Rainy => 0
    case Normal => 1
    case Sunny => 2
  }

  /** The `solar` mode words. */
  datatype SolarMode = SolarExport | Curtail | Maximize

  function Min(a: real, b: real): real { if a <= b then a else b }
  function Max(a: real, b: real): real { if a >= b then a else b }
  function MinInt(a: int, b: int): int { if a <= b then a else b }
  function MaxInt(a: int, b: int): int { if a >= b then a else b }

  /** `b ** n` for a natural exponent. */
  function Pow(b: real, n: nat): real
  {
    if n == 0 then 1.0 else b * Pow(b, n - 1)
  }

  lemma {:induction false} PowPositive(b: real, n: nat)
    requires b > 0.0
    ensures Pow(b, n) > 0.0
  {
    if n > 0 {
      PowPositive(b, n - 1);
    }
  }

  /** a * x <= a * y for a non-negative factor a. */
  lemma MulMonotone(a: real, x: real, y: real)
    requires a >= 0.0 && x <= y
    ensures a * x <= a * y
  {
    assert a * y - a * x == a * (y - x);
  }

  lemma MulPositive(a: real, b: real)
    requires a > 0.0 && b > 0.0
    ensures a * b > 0.0
  {
  }

  lemma {:induction false} PowAtMostOne(b: real, n: nat)
    requires 0.0 < b <= 1.0
    ensures 0.0 < Pow(b, n) <= 1.0
  {
    if n > 0 {
      PowAtMostOne(b, n - 1);
      var p := Pow(b, n - 1);
      assert Pow(b, n) == b * p;
      MulMonotone(b, p, 1.0);
      assert b * 1.0 == b;
      MulPositive(b, p);
    }
  }

  lemma {:induction false} PowAtLeastOne(b: real, n: nat)
    requires b >= 1.0
    ensures Pow(b, n) >= 1.0
  {
    if n > 0 {
      PowAtLeastOne(b, n - 1);
      MulMonotone(b, 1.0, Pow(b, n - 1));
    }
  }

  /** Multiplying a positive amount by a factor in (0, 1) makes it strictly smaller. */
  lemma ShrinkStep(b: real, p: real, q: real)
    requires 0.0 < b
    requires b < 1.0
    requires p > 0.0
    requires q == b * p
    ensures 0.0 < q
    ensures q < p
  {
    var c := 1.0 - b;
    assert c * p > 0.0;
    assert p - q == c * p;
  }

  /** A factor below 1 shrinks strictly with every further power. */
  lemma {:induction false} PowShrinks(b: real, i: nat, j: nat)
    requires 0.0 < b < 1.0
    requires i < j
    ensures 0.0 < Pow(b, j) < Pow(b, i) <= 1.0
  {
    PowAtMostOne(b, i);
    PowAtMostOne(b, j - 1);
    PowStep(b, j);
    if j - 1 > i {
      PowShrinks(b, i, j - 1);
    }
  }

  lemma PowStep(b: real, n: nat)
    requires 0.0 < b < 1.0 && n > 0
    ensures 0.0 < Pow(b, n)
    ensures Pow(b, n) < Pow(b, n - 1)
  {
    PowPositive(b, n - 1);
    ShrinkStep(b, Pow(b, n - 1), Pow(b, n));
  }

  /** Python's `int(x)` on a float: truncation toward zero. */
  function PyInt(x: real): (r: int)
    ensures x >= 0.0 ==> r as real <= x < r as real + 1.0
    ensures x < 0.0 ==> r as real - 1.0 < x <= r as real
  {
    if x >= 0.0 then x.Floor else -((-x).Floor)
  }

  /**
   * `max(1, int(x + 0.999))`, the scripts' rounding of an energy/rate
   * quotient to a whole number of half-hour periods. It is at least one,
   * never more than `x + 0.999` above one, and more than `x - 0.001`: it is
   * an exact ceiling only away from the last thousandth below an integer.
   */
  function PeriodsFor(x: real): (r: int)
    ensures r >= 1
    ensures r as real <= Max(1.0, x + 0.999)
    ensures r as real > x - 0.001
  {
    MaxInt(1, PyInt(x + 0.999))
  }

  /** 1.0005 needs two whole periods, but the rounding grants one. */
  lemma PeriodsForIsNotCeiling()
    ensures PeriodsFor(1.0005) == 1
    ensures 1.0005 > 1.0
  {
    assert PyInt(1.0005 + 0.999) == 1;
  }

  /** Python's `x % 24` on a float: the result lies in [0, 24) and differs from x by a multiple of 24. */
  function Mod24(x: real): (r: real)
    ensures 0.0 <= r < 24.0
    ensures 0.0 <= x < 24.0 ==> r == x
    ensures ((x - r) / 24.0).Floor as real == (x - r) / 24.0
  {
    x - 24.0 * (x / 24.0).Floor as real
  }

  /** `max(s)` of a non-empty list. */
  function MaxOf(s: seq<real>): (m: real)
    requires |s| > 0
    ensures m in s
    ensures forall i :: 0 <= i < |s| ==> s[i] <= m
  {
    if |s| == 1 then s[0]
    else
      var t := MaxOf(s[1..]);
      assert forall i :: 1 <= i < |s| ==> s[i] == s[1..][i - 1];
      if s[0] >= t then s[0] else t
  }

  /** Python's `max(s)`: a ValueError on an empty list. */
  function PyMax(s: seq<real>): (r: Result<real>)
    ensures r.Err? <==> |s| == 0
    ensures r.Err? ==> r.error == ValueError
    ensures r.Ok? ==> r.value in s && forall i :: 0 <= i < |s| ==> s[i] <= r.value
  {
    if |s| == 0 then Err(ValueError) else Ok(MaxOf(s))
  }

  /** `min(s)` of a non-empty list. */
  function MinOf(s: seq<real>): (m: real)
    requires |s| > 0
    ensures m in s
    ensures forall i :: 0 <= i < |s| ==> m <= s[i]
  {
    if |s| == 1 then s[0]
    else
      var t := MinOf(s[1..]);
      assert forall i :: 1 <= i < |s| ==> s[i] == s[1..][i - 1];
      if s[0] <= t then s[0] else t
  }

  function Sum(s: seq<real>): real
  {
    if |s| == 0 then 0.0 else s[0] + Sum(s[1..])
  }

  /** Every entry between lo and hi puts the sum between |s|·lo and |s|·hi. */
  lemma {:induction false} SumBounds(s: seq<real>, lo: real, hi: real)
    requires forall i :: 0 <= i < |s| ==> lo <= s[i] <= hi
    ensures |s| as real * lo <= Sum(s) <= |s| as real * hi
  {
    if |s| > 0 {
      SumBounds(s[1..], lo, hi);
    }
  }

  lemma DivMonotone(a: real, b: real, n: real)
    requires n > 0.0 && a <= b
    ensures a / n <= b / n
  {
    assert b / n - a / n == (b - a) / n;
  }

  lemma QuotientBetween(total: real, n: real, lo: real, hi: real)
    requires n > 0.0
    requires n * lo <= total <= n * hi
    ensures lo <= total / n <= hi
  {
    DivMonotone(n * lo, total, n);
    DivMonotone(total, n * hi, n);
    assert (n * lo) / n == lo;
    assert (n * hi) / n == hi;
  }

  /** m is the mean of the non-empty list s: m times the length is the sum. */
  predicate IsMeanOf(m: real, s: seq<real>)
  {
    |s| > 0 && m * |s| as real == Sum(s)
  }

  /** The mean of a non-empty list whose entries lie between lo and hi lies there too. */
  lemma MeanBetween(s: seq<real>, lo: real, hi: real)
    requires |s| > 0
    requires forall i :: 0 <= i < |s| ==> lo <= s[i] <= hi
    ensures lo <= Sum(s) / |s| as real <= hi
    ensures IsMeanOf(Sum(s) / |s| as real, s)
  {
    SumBounds(s, lo, hi);
    QuotientBetween(Sum(s), |s| as real, lo, hi);
  }

  /** `[v for v in s if v > 0]` */
  function Positives(s: seq<real>): (r: seq<real>)
    ensures forall x :: x in r <==> x in s && x > 0.0
    ensures |r| <= |s|
  {
    if |s| == 0 then []
    else (if s[0] > 0.0 then [s[0]] else []) + Positives(s[1..])
  }

  /** Number of entries of s strictly below v. */
  function CountBelow(s: seq<real>, v: real): (n: nat)
    ensures n <= |s|
  {
    if |s| == 0 then 0 else (if s[0] < v then 1 else 0) + CountBelow(s[1..], v)
  }

  /** Number of entries of s strictly above v. */
  function CountAbove(s: seq<real>, v: real): (n: nat)
    ensures n <= |s|
  {
    if |s| == 0 then 0 else (if s[0] > v then 1 else 0) + CountAbove(s[1..], v)
  }

  /** An entry of s is never above itself, so fewer than |s| entries lie above any member. */
  lemma {:induction false} CountAboveMember(s: seq<real>, v: real)
    requires v in s
    ensures CountAbove(s, v) < |s|
  {
    if s[0] != v {
      CountAboveMember(s[1..], v);
    }
  }

  /**
   * `[s[i] * factor ** i for i in range(len(s))]`: the exponential
   * uncertainty discount every script applies to its price forecasts.
   */
  function Discounted(s: seq<real>, factor: real): (r: seq<real>)
    ensures |r| == |s|
    ensures forall i :: 0 <= i < |s| ==> r[i] == s[i] * Pow(factor, i)
  {
    seq(|s|, i requires 0 <= i < |s| => s[i] * Pow(factor, i))
  }

  /** r is a prefix of s with entry i scaled by factor^i. */
  predicate ScaledPrefix(r: seq<real>, s: seq<real>, factor: real)
  {
    |r| <= |s| && forall i :: 0 <= i < |r| ==> r[i] == s[i] * Pow(factor, i)
  }

  /** The first n entries (all, when fewer) of a list, entry i scaled by factor^i. */
  function DiscountFirst(s: seq<real>, n: nat, factor: real): (r: seq<real>)
    ensures |r| == MinInt(n, |s|)
    ensures ScaledPrefix(r, s, factor)
  {
    var k := if n <= |s| then n else |s|;
    DiscountedPrefix(s, k, factor);
    Discounted(s[..k], factor)
  }

  /** Discounting the first n entries of a list gives the first n entries discounted. */
  lemma DiscountedPrefix(s: seq<real>, n: nat, factor: real)
    requires n <= |s|
    ensures |Discounted(s[..n], factor)| == n
    ensures forall i :: 0 <= i < n ==> Discounted(s[..n], factor)[i] == s[i] * Pow(factor, i)
  {
    var d := Discounted(s[..n], factor);
    forall i | 0 <= i < n
      ensures d[i] == s[i] * Pow(factor, i)
    {
      assert s[..n][i] == s[i];
    }
  }

  /** A shrinking factor never raises a positive price, and lowers every later one strictly. */
  lemma DiscountedShrinks(s: seq<real>, factor: real, i: nat)
    requires 0.0 < factor < 1.0
    requires i < |s| && s[i] > 0.0
    ensures 0.0 < Discounted(s, factor)[i] <= s[i]
    ensures i > 0 ==> Discounted(s, factor)[i] < s[i]
  {
    var p := Pow(factor, i);
    PowAtMostOne(factor, i);
    MulPositive(s[i], p);
    MulMonotone(s[i], p, 1.0);
    if i > 0 {
      PowShrinks(factor, 0, i);
      ShrinkStep(p, s[i], p * s[i]);
    }
  }

  /** A growing factor never lowers a non-negative price. */
  lemma DiscountedGrows(s: seq<real>, factor: real, i: nat)
    requires factor >= 1.0
    requires i < |s| && s[i] >= 0.0
    ensures Discounted(s, factor)[i] >= s[i]
  {
    PowAtLeastOne(factor, i);
    MulMonotone(s[i], 1.0, Pow(factor, i));
  }

  /** Python's `s.index(min(s))`: the first position holding the minimum. */
  function IndexOfMin(s: seq<real>): (k: nat)
    requires |s| > 0
    ensures k < |s|
    ensures s[k] == MinOf(s)
    ensures forall j :: 0 <= j < k ==> s[j] > s[k]
  {
    FirstIndexOf(s, MinOf(s))
  }

  function FirstIndexOf(s: seq<real>, v: real): (k: nat)
    requires v in s
    ensures k < |s| && s[k] == v
    ensures forall j :: 0 <= j < k ==> s[j] != v
  {
    if s[0] == v then 0 else 1 + FirstIndexOf(s[1..], v)
  }

  /** `sub in s` for Python strings. */
  predicate Contains(s: string, sub: string)
    decreases |s|
  {
    |sub| <= |s| && (s[..|sub|] == sub || Contains(s[1..], sub))
  }

  /** Every character of a substring occurs in the string that contains it. */
  lemma {:induction false} ContainsChars(s: string, sub: string)
    requires Contains(s, sub)
    ensures forall c :: c in sub ==> c in s
    decreases |s|
  {
    if s[..|sub|] == sub {
      forall c | c in sub ensures c in s {
        var k :| 0 <= k < |sub| && sub[k] == c;
        assert s[k] == c;
      }
    } else {
      ContainsChars(s[1..], sub);
      forall c | c in sub ensures c in s {
        var k :| 0 <= k < |s[1..]| && s[1..][k] == c;
        assert s[k + 1] == c;
      }
    }
  }

  /** A string that holds `sub` at offset `k` contains it. */
  lemma {:induction false} ContainsAt(s: string, sub: string, k: nat)
    requires k + |sub| <= |s| && s[k..k + |sub|] == sub
    ensures Contains(s, sub)
    decreases k
  {
    if k > 0 {
      assert s[1..][k - 1..k - 1 + |sub|] == s[k..k + |sub|];
      ContainsAt(s[1..], sub, k - 1);
    } else {
      assert s[..|sub|] == s[0..0 + |sub|];
    }
  }

  /** A string missing one of the characters of `sub` does not contain it. */
  lemma MissingChar(s: string, sub: string, c: char)
    requires c in sub && c !in s
    ensures !Contains(s, sub)
  {
    if Contains(s, sub) {
      ContainsChars(s, sub);
    }
  }
}

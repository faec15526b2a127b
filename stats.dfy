/** The statistics cards: `StatsCards` in `src/components/Charts.jsx`
    (total, daily average, peak, lowest) and its variant in `src/SimpleApp.jsx`
    (total, daily average, peak, with missing counts read as 0).

    A JavaScript number result that is not an integer is `NaN` or an infinity:
    the sum of a series with a missing count is `NaN`, the average of an empty
    series is `0 / 0`, and `Math.max()` / `Math.min()` of nothing are
    `-Infinity` / `Infinity`. */
module Stats {
  import opened Wrappers

  datatype Number = NaN | Infinity(positive: bool) | Int(v: int)

  function Sum(cs: seq<int>): int {
    if cs == [] then 0 else Sum(cs[..|cs| - 1]) + cs[|cs| - 1]
  }

  /** `Math.max(...cs)` of a non-empty list. */
  function MaxOf(cs: seq<int>): (m: int)
    requires |cs| > 0
    ensures m in cs
    ensures forall i :: 0 <= i < |cs| ==> cs[i] <= m
  {
    if |cs| == 1 then cs[0]
    else
      var m := MaxOf(cs[..|cs| - 1]);
      assert cs == cs[..|cs| - 1] + [cs[|cs| - 1]];
      if cs[|cs| - 1] > m then cs[|cs| - 1] else m
  }

  /** `Math.min(...cs)` of a non-empty list. */
  function MinOf(cs: seq<int>): (m: int)
    requires |cs| > 0
    ensures m in cs
    ensures forall i :: 0 <= i < |cs| ==> m <= cs[i]
  {
    if |cs| == 1 then cs[0]
    else
      var m := MinOf(cs[..|cs| - 1]);
      assert cs == cs[..|cs| - 1] + [cs[|cs| - 1]];
      if cs[|cs| - 1] < m then cs[|cs| - 1] else m
  }

  /** `Math.round(t / n)`: the nearest integer, halves rounded up. */
  function RoundDiv(t: int, n: int): int
    requires n > 0
  {
    (2 * t + n) / (2 * n)
  }

  lemma MulLe(a: int, b: int, c: int)
    requires a >= 0 && b <= c
    ensures a * b <= a * c
  {
  }

  lemma DivBounds(a: int, d: int, q: int)
    requires d > 0
    ensures d * q <= a ==> q <= a / d
    ensures a < d * (q + 1) ==> a / d <= q
  {
    var r := a / d;
    assert a == d * r + a % d && 0 <= a % d < d;
    if r + 1 <= q {
      MulLe(d, r + 1, q);
    }
    if q + 1 <= r {
      MulLe(d, q + 1, r);
    }
  }

  /** `RoundDiv(t, n)` is the integer nearest to `t / n`, a half rounded up:
      `r - 1/2 <= t / n < r + 1/2`. */
  lemma RoundDivNearest(t: int, n: int)
    requires n > 0
    ensures var r := RoundDiv(t, n); 2 * n * r - n <= 2 * t < 2 * n * r + n
  {
    var a, d := 2 * t + n, 2 * n;
    var r := a / d;
    assert a == d * r + a % d && 0 <= a % d < d;
  }

  lemma MinMaxPrefix(cs: seq<int>)
    requires |cs| > 1
    ensures MinOf(cs) <= MinOf(cs[..|cs| - 1]) && MaxOf(cs[..|cs| - 1]) <= MaxOf(cs)
  {
    var p := cs[..|cs| - 1];
    var i :| 0 <= i < |p| && p[i] == MinOf(p);
    assert cs[i] == p[i];
    var j :| 0 <= j < |p| && p[j] == MaxOf(p);
    assert cs[j] == p[j];
  }

  /** The total lies between `n` times the lowest and `n` times the peak. */
  lemma {:induction false} SumBounds(cs: seq<int>)
    requires |cs| > 0
    ensures |cs| * MinOf(cs) <= Sum(cs) <= |cs| * MaxOf(cs)
  {
    if |cs| > 1 {
      var p, x := cs[..|cs| - 1], cs[|cs| - 1];
      var lo, hi, k := MinOf(cs), MaxOf(cs), |p|;
      SumBounds(p);
      MinMaxPrefix(cs);
      assert lo <= x <= hi;
      assert Sum(cs) == Sum(p) + x;
      BoundsStep(k, lo, hi, MinOf(p), MaxOf(p), Sum(p), x);
    }
  }

  lemma BoundsStep(k: nat, lo: int, hi: int, pLo: int, pHi: int, s: int, x: int)
    requires k * pLo <= s <= k * pHi
    requires lo <= pLo && pHi <= hi && lo <= x <= hi
    ensures (k + 1) * lo <= s + x <= (k + 1) * hi
  {
    MulLe(k, lo, pLo);
    MulLe(k, pHi, hi);
    assert (k + 1) * lo == k * lo + lo;
    assert (k + 1) * hi == k * hi + hi;
  }

  lemma RoundBetween(s: int, n: int, lo: int, hi: int)
    requires n > 0 && n * lo <= s <= n * hi
    ensures lo <= RoundDiv(s, n) <= hi
  {
    assert 2 * n * lo <= 2 * s + n;
    assert 2 * s + n < 2 * n * (hi + 1);
    DivBounds(2 * s + n, 2 * n, lo);
    DivBounds(2 * s + n, 2 * n, hi);
  }

  /** The daily average lies between the lowest and the peak day. */
  lemma AverageBetween(cs: seq<int>)
    requires |cs| > 0
    ensures MinOf(cs) <= RoundDiv(Sum(cs), |cs|) <= MaxOf(cs)
  {
    SumBounds(cs);
    RoundBetween(Sum(cs), |cs|, MinOf(cs), MaxOf(cs));
  }

  // ---------------------------------------------------------------------
  // src/components/Charts.jsx

  datatype Cards = Cards(total: Number, average: Number, peak: Number, lowest: Number)

  predicate AllPresent(cs: seq<Option<int>>) {
    forall i :: 0 <= i < |cs| ==> cs[i].Some?
  }

  function Values(cs: seq<Option<int>>): (vs: seq<int>)
    requires AllPresent(cs)
  {
    seq(|cs|, i requires 0 <= i < |cs| => cs[i].value)
  }

  /** The four cards of `Charts.jsx`; `None` is an entry without a `count`. */
  function ChartCards(cs: seq<Option<int>>): Cards {
    if !AllPresent(cs) then Cards(NaN, NaN, NaN, NaN)
    else
      var vs := Values(cs);
      if vs == [] then Cards(Int(0), NaN, Infinity(false), Infinity(true))
      else Cards(Int(Sum(vs)), Int(RoundDiv(Sum(vs), |vs|)), Int(MaxOf(vs)), Int(MinOf(vs)))
  }

  /** With every count present and at least one day, the cards are numbers and
      ordered: lowest <= average <= peak; a missing count turns all four into
      `NaN`; an empty series gives a total of 0 and no other number. */
  lemma ChartCardsShape(cs: seq<Option<int>>)
    ensures AllPresent(cs) && cs != [] ==>
      var c := ChartCards(cs);
      c.total.Int? && c.average.Int? && c.peak.Int? && c.lowest.Int? &&
      c.lowest.v <= c.average.v <= c.peak.v &&
      (forall i :: 0 <= i < |cs| ==> c.lowest.v <= cs[i].value <= c.peak.v)
    ensures !AllPresent(cs) ==> ChartCards(cs) == Cards(NaN, NaN, NaN, NaN)
    ensures cs == [] ==> ChartCards(cs) == Cards(Int(0), NaN, Infinity(false), Infinity(true))
  {
    if AllPresent(cs) && cs != [] {
      var vs := Values(cs);
      AverageBetween(vs);
      assert forall i :: 0 <= i < |cs| ==> vs[i] == cs[i].value;
    }
  }

  /** The fallback of `CountryDistributionChart`: one slice, "Multiple
      Countries", holding the total with missing counts read as 0. */
  function FallbackCountrySlice(cs: seq<Option<int>>): (string, int) {
    ("Multiple Countries", Sum(OrZero(cs)))
  }

  // ---------------------------------------------------------------------
  // src/SimpleApp.jsx

  /** `item.count || 0` for each entry. */
  function OrZero(cs: seq<Option<int>>): (vs: seq<int>)
    ensures |vs| == |cs|
  {
    seq(|cs|, i requires 0 <= i < |cs| => if cs[i].Some? then cs[i].value else 0)
  }

  datatype SimpleCards = SimpleCards(total: int, average: Number, peak: Number)

  /** The three cards of `SimpleApp.jsx`; `None` when `data.series` is missing,
      which renders nothing. */
  function SimpleAppCards(series: Option<seq<Option<int>>>): Option<SimpleCards> {
    if series.None? then None
    else
      var vs := OrZero(series.value);
      if vs == [] then Some(SimpleCards(0, NaN, Infinity(false)))
      else Some(SimpleCards(Sum(vs), Int(RoundDiv(Sum(vs), |vs|)), Int(MaxOf(vs))))
  }

  /** When every count is present the two components agree on the cards they
      share; where `Charts.jsx` shows `NaN` for a missing count, `SimpleApp.jsx`
      counts it as 0 and still shows numbers. */
  lemma SimpleAppAgreesWithCharts(cs: seq<Option<int>>)
    ensures AllPresent(cs) ==>
      var s, c := SimpleAppCards(Some(cs)).value, ChartCards(cs);
      c.total == Int(s.total) && c.average == s.average && c.peak == s.peak
    ensures !AllPresent(cs) ==>
      var s := SimpleAppCards(Some(cs)).value;
      ChartCards(cs).total == NaN && s.average.Int? && s.peak.Int? && s.average.v <= s.peak.v
  {
    if AllPresent(cs) {
      assert OrZero(cs) == Values(cs);
    } else {
      var vs := OrZero(cs);
      AverageBetween(vs);
    }
  }
}

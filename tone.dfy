/** Tone classification: the popup labels of `App.jsx`, the five-band
    `getToneDescription` of `AppFinal.jsx` and `AppSimple.jsx`, the labelled
    description of `AppWithAuth.jsx`, and the bucket counts of
    `ToneAnalysisChart` in `src/components/Charts.jsx`.

    A tone read from an event is a number, `null`, or missing (`undefined`).
    JavaScript compares `null` as `0` and `undefined` as `NaN`, for which every
    comparison is false. */
module Tone {

  datatype Tone = Missing | Null | Num(x: real)

  /** `tone > c`. */
  predicate Above(t: Tone, c: real) {
    match t
    case Missing => false
    case Null => 0.0 > c
    case Num(x) => x > c
  }

  /** `tone >= c`. */
  predicate AtLeast(t: Tone, c: real) {
    match t
    case Missing => false
    case Null => 0.0 >= c
    case Num(x) => x >= c
  }

  /** `tone < c`. */
  predicate Below(t: Tone, c: real) {
    match t
    case Missing => false
    case Null => 0.0 < c
    case Num(x) => x < c
  }

  predicate Truthy(t: Tone) {
    t.Num? && t.x != 0.0
  }

  /** The number a tone compares as, when it compares as one. */
  function AsNumber(t: Tone): real
    requires !t.Missing?
  {
    if t.Null? then 0.0 else t.x
  }

  datatype Band = Negative | Neutral | Positive

  function BandLabel(b: Band): string {
    match b
    case Negative => "Negative"
    case Neutral => "Neutral"
    case Positive => "Positive"
  }

  /** The label under the tone in the `App.jsx` popup:
      `tone > 2 ? "Positive" : tone < -2 ? "Negative" : "Neutral"`. */
  function ThreeBand(t: Tone): Band {
    if Above(t, 2.0) then Positive
    else if Below(t, -2.0) then Negative
    else Neutral
  }

  datatype FiveBand = VeryNegative | SomewhatNegative | Middle | SomewhatPositive | VeryPositive

  /** `getToneDescription` of `AppFinal.jsx` and `AppSimple.jsx`. */
  function Describe(t: Tone): FiveBand {
    if Above(t, 5.0) then VeryPositive
    else if Above(t, 2.0) then SomewhatPositive
    else if AtLeast(t, -2.0) then Middle
    else if Above(t, -5.0) then SomewhatNegative
    else VeryNegative
  }

  function FiveLabel(b: FiveBand): string {
    match b
    case VeryPositive => "Very Positive"
    case SomewhatPositive => "Positive"
    case Middle => "Neutral"
    case SomewhatNegative => "Negative"
    case VeryNegative => "Very Negative"
  }

  /** The three bands the five bands fall into. */
  function Coarsen(b: FiveBand): Band {
    match b
    case VeryPositive => Positive
    case SomewhatPositive => Positive
    case Middle => Neutral
    case SomewhatNegative => Negative
    case VeryNegative => Negative
  }

  /** The five bands in order, most negative first. */
  function Rank(b: FiveBand): nat {
    match b
    case VeryNegative => 0
    case SomewhatNegative => 1
    case Middle => 2
    case SomewhatPositive => 3
    case VeryPositive => 4
  }

  /** The five-band description refines the three-band popup label for every
      tone that compares as a number; a missing tone is the one disagreement. */
  lemma DescribeRefinesThreeBand(t: Tone)
    ensures Coarsen(Describe(t)) == ThreeBand(t) <==> !t.Missing?
  {
  }

  /** A missing tone fails every comparison and falls through to the last
      case: "Very Negative", while the `App.jsx` popup says "Neutral". */
  lemma MissingToneIsVeryNegative()
    ensures FiveLabel(Describe(Missing)) == "Very Negative"
    ensures BandLabel(ThreeBand(Missing)) == "Neutral"
    ensures FiveLabel(Describe(Null)) == "Neutral"
  {
  }

  /** A higher tone never gets a more negative description. */
  lemma DescribeMonotone(x: real, y: real)
    requires x <= y
    ensures Rank(Describe(Num(x))) <= Rank(Describe(Num(y)))
  {
  }

  /** The band edges: 5 and 2 belong to the band below them, -2 to Neutral,
      -5 to Very Negative. */
  lemma DescribeEdges()
    ensures Describe(Num(5.0)) == SomewhatPositive
    ensures Describe(Num(2.0)) == Middle
    ensures Describe(Num(-2.0)) == Middle
    ensures Describe(Num(-5.0)) == VeryNegative
  {
  }

  // ---------------------------------------------------------------------
  // AppWithAuth.jsx

  /** `getToneDescription` of `AppWithAuth.jsx`: 'N/A' for `null` and
      `undefined`, otherwise the band and the value. */
  datatype AuthDescription = NotAvailable | Described(band: Band, value: real)

  function AuthDescribe(t: Tone): AuthDescription {
    match t
    case Missing => NotAvailable
    case Null => NotAvailable
    case Num(x) =>
      if x > 2.0 then Described(Positive, x)
      else if x < -2.0 then Described(Negative, x)
      else Described(Neutral, x)
  }

  /** On a number the description carries the popup band and the value itself;
      `null`, which the popup reads as 0 and labels "Neutral", is 'N/A' here. */
  lemma AuthDescribeAgrees(t: Tone)
    ensures AuthDescribe(t).NotAvailable? <==> !t.Num?
    ensures t.Num? ==> AuthDescribe(t) == Described(ThreeBand(t), t.x)
    ensures t.Null? ==> ThreeBand(t) == Neutral
  {
  }

  // ---------------------------------------------------------------------
  // ToneAnalysisChart (src/components/Charts.jsx)

  /** `tone || 0`. */
  function OrZero(t: Tone): real {
    if Truthy(t) then t.x else 0.0
  }

  /** The bar a tone value counts towards. */
  function BandOf(x: real): Band {
    if x < -2.0 then Negative else if x > 2.0 then Positive else Neutral
  }

  /** The bar one search item counts towards. */
  function ChartBucket(t: Tone): Band {
    BandOf(OrZero(t))
  }

  /** The chart puts every event in the band the `App.jsx` popup shows for it,
      a missing tone included. */
  lemma ChartAgreesWithPopup(t: Tone)
    ensures ChartBucket(t) == ThreeBand(t)
  {
  }

  /** `tone_avg || averageTone || avg_tone || 0` of the stats fallback. */
  function SeriesTone(toneAvg: Tone, averageTone: Tone, avgTone: Tone): real {
    if Truthy(toneAvg) then toneAvg.x
    else if Truthy(averageTone) then averageTone.x
    else if Truthy(avgTone) then avgTone.x
    else 0.0
  }

  /** The fallback takes the first of the three fields holding a non-zero
      number, and 0 when none does. */
  lemma SeriesToneFirstTruthy(a: Tone, b: Tone, c: Tone)
    ensures var r := SeriesTone(a, b, c);
      (r == 0.0 <==> !Truthy(a) && !Truthy(b) && !Truthy(c)) &&
      (r != 0.0 ==> (Truthy(a) && r == a.x) || (!Truthy(a) && Truthy(b) && r == b.x) ||
                    (!Truthy(a) && !Truthy(b) && Truthy(c) && r == c.x))
  {
  }

  datatype Counts = Counts(negative: nat, neutral: nat, positive: nat)

  function Tally(c: Counts, b: Band): Counts {
    match b
    case Negative => c.(negative := c.negative + 1)
    case Neutral => c.(neutral := c.neutral + 1)
    case Positive => c.(positive := c.positive + 1)
  }

  /** The three bars for a list of bands. */
  function BucketCounts(bs: seq<Band>): Counts {
    if bs == [] then Counts(0, 0, 0)
    else Tally(BucketCounts(bs[..|bs| - 1]), bs[|bs| - 1])
  }

  function CountOf(bs: seq<Band>, b: Band): nat {
    if bs == [] then 0
    else CountOf(bs[..|bs| - 1], b) + (if bs[|bs| - 1] == b then 1 else 0)
  }

  /** The `forEach` that fills `toneRanges` from the search items. */
  method CountTones(tones: seq<Tone>) returns (c: Counts)
    ensures c == BucketCounts(seq(|tones|, i requires 0 <= i < |tones| => ChartBucket(tones[i])))
    ensures c.negative + c.neutral + c.positive == |tones|
  {
    ghost var bands := seq(|tones|, i requires 0 <= i < |tones| => ChartBucket(tones[i]));
    c := Counts(0, 0, 0);
    var i := 0;
    while i < |tones|
      invariant 0 <= i <= |tones|
      invariant c == BucketCounts(bands[..i])
    {
      var x := OrZero(tones[i]);
      if x < -2.0 {
        c := c.(negative := c.negative + 1);
      } else if x > 2.0 {
        c := c.(positive := c.positive + 1);
      } else {
        c := c.(neutral := c.neutral + 1);
      }
      assert bands[..i + 1][..i] == bands[..i];
      i := i + 1;
    }
    assert bands[..i] == bands;
    BucketCountsSum(bands);
  }

  /** The `forEach` of the stats fallback, over each series entry's
      `tone_avg`, `averageTone` and `avg_tone`. */
  method CountSeriesTones(series: seq<(Tone, Tone, Tone)>) returns (c: Counts)
    ensures c == BucketCounts(seq(|series|, i requires 0 <= i < |series| =>
                  BandOf(SeriesTone(series[i].0, series[i].1, series[i].2))))
    ensures c.negative + c.neutral + c.positive == |series|
  {
    ghost var bands := seq(|series|, i requires 0 <= i < |series| =>
                         BandOf(SeriesTone(series[i].0, series[i].1, series[i].2)));
    c := Counts(0, 0, 0);
    var i := 0;
    while i < |series|
      invariant 0 <= i <= |series|
      invariant c == BucketCounts(bands[..i])
    {
      var tone := SeriesTone(series[i].0, series[i].1, series[i].2);
      if tone < -2.0 {
        c := c.(negative := c.negative + 1);
      } else if tone > 2.0 {
        c := c.(positive := c.positive + 1);
      } else {
        c := c.(neutral := c.neutral + 1);
      }
      assert bands[..i + 1][..i] == bands[..i];
      i := i + 1;
    }
    assert bands[..i] == bands;
    BucketCountsSum(bands);
  }

  /** Every item lands in exactly one bar: the bars add up to the item count,
      and each bar counts the items of its band. */
  lemma {:induction false} BucketCountsSum(bs: seq<Band>)
    ensures var c := BucketCounts(bs); c.negative + c.neutral + c.positive == |bs|
    ensures var c := BucketCounts(bs);
      c.negative == CountOf(bs, Negative) && c.neutral == CountOf(bs, Neutral) && c.positive == CountOf(bs, Positive)
  {
    if bs != [] {
      BucketCountsSum(bs[..|bs| - 1]);
    }
  }

  /** The bars do not depend on the order of the items. */
  lemma {:induction false} BucketCountsAppend(bs: seq<Band>, cs: seq<Band>)
    ensures var a, b, r := BucketCounts(bs), BucketCounts(cs), BucketCounts(bs + cs);
      r == Counts(a.negative + b.negative, a.neutral + b.neutral, a.positive + b.positive)
  {
    if cs != [] {
      assert (bs + cs)[..|bs + cs| - 1] == bs + cs[..|cs| - 1];
      BucketCountsAppend(bs, cs[..|cs| - 1]);
    } else {
      assert bs + cs == bs;
    }
  }

  lemma BucketCountsSwap(bs: seq<Band>, cs: seq<Band>)
    ensures BucketCounts(bs + cs) == BucketCounts(cs + bs)
  {
    BucketCountsAppend(bs, cs);
    BucketCountsAppend(cs, bs);
  }

  /** Tones -6, -3, 0, 3, 6 give two negative, one neutral, two positive. */
  lemma CountExample()
    ensures BucketCounts([ChartBucket(Num(-6.0)), ChartBucket(Num(-3.0)), ChartBucket(Num(0.0)),
                          ChartBucket(Num(3.0)), ChartBucket(Num(6.0))]) == Counts(2, 1, 2)
  {
    var bs := [Negative, Negative, Neutral, Positive, Positive];
    assert bs == [ChartBucket(Num(-6.0)), ChartBucket(Num(-3.0)), ChartBucket(Num(0.0)),
                  ChartBucket(Num(3.0)), ChartBucket(Num(6.0))];
    assert BucketCounts(bs[..1]) == Counts(1, 0, 0) by { assert bs[..1][..0] == []; }
    assert BucketCounts(bs[..2]) == Counts(2, 0, 0) by { assert bs[..2][..1] == bs[..1]; }
    assert BucketCounts(bs[..3]) == Counts(2, 1, 0) by { assert bs[..3][..2] == bs[..2]; }
    assert BucketCounts(bs[..4]) == Counts(2, 1, 1) by { assert bs[..4][..3] == bs[..3]; }
    assert bs[..5] == bs;
  }
}

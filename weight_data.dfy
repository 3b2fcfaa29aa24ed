/** lib/mock/weightData.ts: the mock weight series of the chart, 90 days
    up to today with a 7-day moving average. Weights are kept in tenths of
    a kilogram (the source rounds every weight to one decimal), days are day
    numbers, and the `Math.random()` draws are an input, one per day in
    order. */
module MockWeightData {
  import opened Wrappers
  import opened Numeric

  const GoalWeight := 75
  const StartWeight := 85
  const DaysToGenerate := 90
  const WindowDays := 7

  /** One point of the series; the moving average is in tenths too. */
  datatype WeightData = WeightData(day: int, weightTenths: int, movingAverage: Option<int>)

  /** The weight of the `k`-th day (0 the oldest) for the random draw `r`,
      in tenths: a straight line from 85 kg losing 60% of the way to the
      goal, plus up to 0.75 kg either way, rounded to one decimal. */
  function MockWeightTenths(k: nat, r: real): int {
    var trend := StartWeight as real - (k as real / (DaysToGenerate - 1) as real) * (StartWeight - GoalWeight) as real * 0.6;
    var fluctuation := (r - 0.5) * 1.5;
    RoundHalfUp((trend + fluctuation) * 10.0)
  }

  /** With draws in [0, 1) every weight lies between 78.3 and 85.7 kg. */
  lemma MockWeightRange(k: nat, r: real)
    requires k < DaysToGenerate && 0.0 <= r < 1.0
    ensures 783 <= MockWeightTenths(k, r) <= 857
  {
    var trend := StartWeight as real - (k as real / (DaysToGenerate - 1) as real) * (StartWeight - GoalWeight) as real * 0.6;
    assert 0.0 <= k as real / 89.0 <= 1.0;
    assert 79.0 <= trend <= 85.0;
  }

  /** The weights of all 90 days, oldest first. */
  function MockWeights(random: seq<real>): (w: seq<int>)
    requires |random| == DaysToGenerate
    ensures |w| == DaysToGenerate
    ensures forall k | 0 <= k < DaysToGenerate :: w[k] == MockWeightTenths(k, random[k])
  {
    seq(DaysToGenerate, k requires 0 <= k < DaysToGenerate => MockWeightTenths(k, random[k]))
  }

  function Sum(s: seq<int>): int {
    if s == [] then 0 else Sum(s[..|s| - 1]) + s[|s| - 1]
  }

  /** The 7-day moving average at day `k`: the mean of days `k-6..k`,
      rounded to one decimal. */
  function WindowAverage(w: seq<int>, k: nat): int
    requires WindowDays - 1 <= k < |w|
  {
    RoundHalfUp(Sum(w[k - (WindowDays - 1)..k + 1]) as real / WindowDays as real)
  }

  lemma {:induction false} SumBetween(s: seq<int>, lo: int, hi: int)
    requires forall j | 0 <= j < |s| :: lo <= s[j] <= hi
    ensures |s| * lo <= Sum(s) <= |s| * hi
  {
    if s != [] {
      var n := |s|;
      SumBetween(s[..n - 1], lo, hi);
      assert (n - 1) * lo + lo == n * lo;
      assert (n - 1) * hi + hi == n * hi;
    }
  }

  /** The moving average stays within the lightest and heaviest weight of
      its window. */
  lemma WindowAverageBetween(w: seq<int>, k: nat, lo: int, hi: int)
    requires WindowDays - 1 <= k < |w|
    requires forall j | k - (WindowDays - 1) <= j <= k :: lo <= w[j] <= hi
    ensures lo <= WindowAverage(w, k) <= hi
  {
    var window := w[k - (WindowDays - 1)..k + 1];
    SumBetween(window, lo, hi);
    assert 7.0 * lo as real <= Sum(window) as real <= 7.0 * hi as real;
  }

  /** A constant week averages to that weight. */
  lemma ConstantWeekAverage(w: seq<int>, k: nat, x: int)
    requires WindowDays - 1 <= k < |w|
    requires forall j | k - (WindowDays - 1) <= j <= k :: w[j] == x
    ensures WindowAverage(w, k) == x
  {
    WindowAverageBetween(w, k, x, x);
  }

  function WeightsOf(s: seq<WeightData>): (w: seq<int>)
    ensures |w| == |s| && forall j | 0 <= j < |s| :: w[j] == s[j].weightTenths
  {
    seq(|s|, j requires 0 <= j < |s| => s[j].weightTenths)
  }

  /** `generateMockData`, with `today` the current day and `random` the
      draws. The series has 90 points on consecutive days ending today, each
      with the weight of its draw; the first six have no average, and every
      later one the average of its week. */
  method GenerateMockData(today: int, random: seq<real>) returns (data: seq<WeightData>)
    requires |random| == DaysToGenerate
    ensures |data| == DaysToGenerate
    ensures data[DaysToGenerate - 1].day == today
    ensures forall k | 0 <= k < DaysToGenerate - 1 :: data[k + 1].day == data[k].day + 1
    ensures WeightsOf(data) == MockWeights(random)
    ensures forall k | 0 <= k < WindowDays - 1 :: data[k].movingAverage.None?
    ensures forall k | WindowDays - 1 <= k < DaysToGenerate :: data[k].movingAverage == Some(WindowAverage(MockWeights(random), k))
  {
    data := [];
    var i := DaysToGenerate - 1;
    while i >= 0
      invariant -1 <= i <= DaysToGenerate - 1
      invariant |data| == DaysToGenerate - 1 - i
      invariant forall k | 0 <= k < |data| ::
        data[k] == WeightData(today - (DaysToGenerate - 1 - k), MockWeightTenths(k, random[k]), None)
    {
      var k := DaysToGenerate - 1 - i;
      data := data + [WeightData(today - i, MockWeightTenths(k, random[k]), None)];
      i := i - 1;
    }
    ghost var w := MockWeights(random);
    assert WeightsOf(data) == w;
    i := WindowDays - 1;
    while i < |data|
      invariant WindowDays - 1 <= i <= |data| == DaysToGenerate
      invariant WeightsOf(data) == w
      invariant forall k | 0 <= k < |data| :: data[k].day == today - (DaysToGenerate - 1 - k)
      invariant forall k | 0 <= k < WindowDays - 1 :: data[k].movingAverage.None?
      invariant forall k | WindowDays - 1 <= k < i :: data[k].movingAverage == Some(WindowAverage(w, k))
    {
      var window := data[i - (WindowDays - 1)..i + 1];
      assert WeightsOf(window) == w[i - (WindowDays - 1)..i + 1];
      var sum := Sum(WeightsOf(window));
      data := data[i := data[i].(movingAverage := Some(RoundHalfUp(sum as real / WindowDays as real)))];
      assert WeightsOf(data) == w;
      i := i + 1;
    }
  }
}

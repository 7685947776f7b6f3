/**
 * `generateInsights` of the mood analysis view: averages of the mood, sleep and energy
 * ratings over the entries, and a trend comparing the first and last mood. Ratings
 * are reals and evaluated exactly.
 */
module MoodInsights {

  datatype MoodEntry = MoodEntry(date: string, mood: real, energy: real, sleep: real,
                                 activities: seq<string>, triggers: seq<string>, notes: string)

  datatype Trend = Up | Down | Stable

  datatype Insights = Insights(averageMood: real, moodTrend: Trend, sleepQuality: real,
                               energyLevel: real, topTriggers: seq<string>,
                               helpfulActivities: seq<string>)

  /** `reduce((sum, x) => sum + x, 0)`: the left-to-right sum. */
  function Sum(xs: seq<real>): real
    decreases |xs|
  {
    if xs == [] then 0.0 else Sum(xs[..|xs| - 1]) + xs[|xs| - 1]
  }

  function Mean(xs: seq<real>): real
    requires |xs| > 0
  {
    Sum(xs) / |xs| as real
  }

  function Moods(data: seq<MoodEntry>): (r: seq<real>)
    ensures |r| == |data| && forall i :: 0 <= i < |data| ==> r[i] == data[i].mood
  {
    seq(|data|, i requires 0 <= i < |data| => data[i].mood)
  }

  function Sleeps(data: seq<MoodEntry>): (r: seq<real>)
    ensures |r| == |data| && forall i :: 0 <= i < |data| ==> r[i] == data[i].sleep
  {
    seq(|data|, i requires 0 <= i < |data| => data[i].sleep)
  }

  function Energies(data: seq<MoodEntry>): (r: seq<real>)
    ensures |r| == |data| && forall i :: 0 <= i < |data| ==> r[i] == data[i].energy
  {
    seq(|data|, i requires 0 <= i < |data| => data[i].energy)
  }

  /** The nested ternary: up when the mood rose, down when it fell, stable otherwise. */
  function TrendOf(moodStart: real, moodEnd: real): (t: Trend)
    ensures t == Up <==> moodEnd > moodStart
    ensures t == Down <==> moodEnd < moodStart
    ensures t == Stable <==> moodEnd == moodStart
  {
    if moodEnd > moodStart then Up else if moodEnd < moodStart then Down else Stable
  }

  /** The fixed lists the view reports whatever the data. */
  const TopTriggers: seq<string> := ["Work Stress", "Social Events"]
  const HelpfulActivities: seq<string> := ["Exercise", "Meditation"]

  /** `generateInsights`; it reads the first entry and divides by the count, so needs one entry. */
  function GenerateInsights(data: seq<MoodEntry>): (r: Insights)
    requires |data| > 0
    ensures r.averageMood * |data| as real == Sum(Moods(data))
    ensures r.sleepQuality * |data| as real == Sum(Sleeps(data))
    ensures r.energyLevel * |data| as real == Sum(Energies(data))
    ensures r.moodTrend == TrendOf(data[0].mood, data[|data| - 1].mood)
    ensures r.topTriggers == TopTriggers && r.helpfulActivities == HelpfulActivities
  {
    Insights(Mean(Moods(data)), TrendOf(data[0].mood, data[|data| - 1].mood),
             Mean(Sleeps(data)), Mean(Energies(data)), TopTriggers, HelpfulActivities)
  }

  /** A sum of `n` values that all lie in [lo, hi] lies in [n * lo, n * hi]. */
  lemma {:induction false} SumBounds(xs: seq<real>, lo: real, hi: real)
    requires forall i :: 0 <= i < |xs| ==> lo <= xs[i] <= hi
    ensures |xs| as real * lo <= Sum(xs) <= |xs| as real * hi
    decreases |xs|
  {
    if xs != [] {
      var init := xs[..|xs| - 1];
      assert forall i :: 0 <= i < |init| ==> init[i] == xs[i];
      SumBounds(init, lo, hi);
      assert |xs| as real * lo == |init| as real * lo + lo;
      assert |xs| as real * hi == |init| as real * hi + hi;
    }
  }

  /** A mean of values in [lo, hi] lies in [lo, hi]. */
  lemma MeanBounds(xs: seq<real>, lo: real, hi: real)
    requires |xs| > 0
    requires forall i :: 0 <= i < |xs| ==> lo <= xs[i] <= hi
    ensures lo <= Mean(xs) <= hi
  {
    SumBounds(xs, lo, hi);
    var n := |xs| as real;
    assert Mean(xs) * n == Sum(xs);
  }

  /** Moods drawn from [1, 5], as the mock generator draws them, average within [1, 5]. */
  lemma AverageMoodInRatingRange(data: seq<MoodEntry>)
    requires |data| > 0
    requires forall i :: 0 <= i < |data| ==> 1.0 <= data[i].mood <= 5.0
    ensures 1.0 <= GenerateInsights(data).averageMood <= 5.0
  {
    MeanBounds(Moods(data), 1.0, 5.0);
  }

  /** The trend ignores every entry but the first and the last. */
  lemma TrendOnlyFromEnds(data: seq<MoodEntry>, other: seq<MoodEntry>)
    requires |data| > 0 && |other| > 0
    requires data[0].mood == other[0].mood && data[|data| - 1].mood == other[|other| - 1].mood
    ensures GenerateInsights(data).moodTrend == GenerateInsights(other).moodTrend
  {
  }
}

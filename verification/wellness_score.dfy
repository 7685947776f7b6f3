/**
 * The composite wellness score of the mental-wellness page and its four display bands.
 *
 * The page weighs five 1..10 self-ratings (mood 0.25, inverted anxiety 0.25, sleep 0.20,
 * energy 0.15, focus 0.15), scales the weighted sum by 10 and rounds it with `Math.round`.
 * The model evaluates this in exact integer arithmetic: ten times the scaled sum is the
 * integer `ScoreTenths`, and `Math.round` (round half up) of `n / 10` is `(n + 5) / 10`
 * with floor division.
 */
module WellnessScore {

  /** Lowest and highest value the page's rating sliders produce. */
  const MinRating := 1
  const MaxRating := 10

  predicate IsRating(v: int) {
    MinRating <= v <= MaxRating
  }

  /** Ten times the weighted, scaled sum: the score in tenths of a point. */
  function ScoreTenths(mood: int, anxiety: int, sleep: int, energy: int, focus: int): int {
    25 * mood + 25 * (10 - anxiety) + 20 * sleep + 15 * energy + 15 * focus
  }

  /** `getWellnessScore`: the scaled weighted sum, rounded to the nearest integer, halves up. */
  function Score(mood: int, anxiety: int, sleep: int, energy: int, focus: int): (r: int)
    ensures 10 * r - 5 <= ScoreTenths(mood, anxiety, sleep, energy, focus) < 10 * r + 5
  {
    (ScoreTenths(mood, anxiety, sleep, energy, focus) + 5) / 10
  }

  /** For slider inputs the score lies in [8, 98], inside the advertised 0..100. */
  lemma ScoreRange(mood: int, anxiety: int, sleep: int, energy: int, focus: int)
    requires IsRating(mood) && IsRating(anxiety) && IsRating(sleep)
    requires IsRating(energy) && IsRating(focus)
    ensures 8 <= Score(mood, anxiety, sleep, energy, focus) <= 98
    ensures 0 <= Score(mood, anxiety, sleep, energy, focus) <= 100
  {
  }

  /**
   * The score is non-decreasing in mood, sleep, energy and focus and non-increasing
   * in anxiety: a better rating on any slider never lowers it.
   */
  lemma ScoreMonotone(mood: int, anxiety: int, sleep: int, energy: int, focus: int,
                      mood': int, anxiety': int, sleep': int, energy': int, focus': int)
    requires mood <= mood' && anxiety >= anxiety' && sleep <= sleep'
    requires energy <= energy' && focus <= focus'
    ensures Score(mood, anxiety, sleep, energy, focus) <= Score(mood', anxiety', sleep', energy', focus')
  {
  }

  /** The page's default ratings (mood 7, anxiety 3, sleep 8, energy 6, focus 7) score 71. */
  lemma DefaultScore()
    ensures Score(7, 3, 8, 6, 7) == 71
  {
  }

  /** The four labels of the score badge. */
  datatype Band = Excellent | Good | Fair | NeedsAttention

  /** Threshold lookup: 80 and above, 60 and above, 40 and above, the rest. */
  function BandOf(score: int): (b: Band)
    ensures b == Excellent <==> score >= 80
    ensures b == Good <==> 60 <= score < 80
    ensures b == Fair <==> 40 <= score < 60
    ensures b == NeedsAttention <==> score < 40
  {
    if score >= 80 then Excellent
    else if score >= 60 then Good
    else if score >= 40 then Fair
    else NeedsAttention
  }

  /** Text shown on the badge. */
  function BandLabel(b: Band): string {
    match b
    case Excellent => "Excellent"
    case Good => "Good"
    case Fair => "Fair"
    case NeedsAttention => "Needs Attention"
  }

  /** Position of a band from worst (0) to best (3). */
  function Rank(b: Band): nat {
    match b
    case NeedsAttention => 0
    case Fair => 1
    case Good => 2
    case Excellent => 3
  }

  /** A higher score never lands in a worse band. */
  lemma BandMonotone(score: int, score': int)
    requires score <= score'
    ensures Rank(BandOf(score)) <= Rank(BandOf(score'))
  {
  }

  /** Distinct bands carry distinct labels, so the badge identifies the band. */
  lemma BandLabelsDistinct(b: Band, b': Band)
    requires b != b'
    ensures BandLabel(b) != BandLabel(b')
  {
  }
}

/**
 * The label shown next to each self-rating on the mental-wellness page (and put into
 * the prompt for the assistant). Each metric has a five-entry table keyed 1, 3, 5, 7, 9;
 * the page finds the entry whose key equals the rating and falls back to "N/A".
 */
module RatingLabels {
  import opened Wrappers
  import SeqSearch

  datatype Metric = Mood | Anxiety | Sleep | Energy | Focus

  /** Keys of every table, in `Object.entries` order. */
  const Keys: seq<int> := [1, 3, 5, 7, 9]

  /** Labels of each table, in key order. */
  function Labels(m: Metric): (ls: seq<string>)
    ensures |ls| == |Keys|
    ensures forall i :: 0 <= i < |ls| ==> ls[i] != ""
  {
    match m
    case Mood => ["Very Low", "Low", "Neutral", "Good", "Excellent"]
    case Anxiety => ["None", "Mild", "Moderate", "High", "Severe"]
    case Sleep => ["Poor", "Fair", "Average", "Good", "Excellent"]
    case Energy => ["Exhausted", "Tired", "Neutral", "Energetic", "Very Energetic"]
    case Focus => ["Distracted", "Somewhat Focused", "Moderately Focused", "Focused", "Highly Focused"]
  }

  /** The table as `Object.entries` lists it: (key, label) pairs. */
  function Entries(m: Metric): (es: seq<(int, string)>)
    ensures |es| == |Keys|
    ensures forall i :: 0 <= i < |es| ==> es[i] == (Keys[i], Labels(m)[i])
  {
    var ls := Labels(m);
    [(1, ls[0]), (3, ls[1]), (5, ls[2]), (7, ls[3]), (9, ls[4])]
  }

  /**
   * `Object.entries(labels).find(([key]) => Number(key) === value)?.[1] || 'N/A'`:
   * the label of the matching entry, or "N/A" when there is none or it is empty.
   */
  function RatingLabel(m: Metric, value: int): (r: string)
    ensures value in Keys ==> r == Labels(m)[(value - 1) / 2]
    ensures value !in Keys ==> r == "N/A"
  {
    var found := SeqSearch.Find(Entries(m), (e: (int, string)) => e.0 == value);
    match found
    case Some(e) => if e.1 != "" then e.1 else "N/A"
    case None => "N/A"
  }

  /** The even slider values get no label of their own. */
  lemma EvenRatingsUnlabelled(m: Metric, value: int)
    requires 1 <= value <= 10 && value % 2 == 0
    ensures RatingLabel(m, value) == "N/A"
  {
  }

  /** The page's default mood rating (7) is labelled "Good". */
  lemma DefaultMoodLabel()
    ensures RatingLabel(Mood, 7) == "Good"
  {
  }
}

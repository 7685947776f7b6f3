/**
 * The cycle visualizer: a fixed table of four phases, each covering a range of cycle
 * days, the lookup of the phase containing the current day, and which phase the
 * information panel shows.
 */
module CyclePhases {
  import opened Wrappers
  import SeqSearch

  /** One phase; it covers cycle days `firstDay` through `lastDay`. */
  datatype Phase = Phase(name: string, description: string, color: string,
                         firstDay: int, lastDay: int, symptoms: seq<string>)

  predicate Covers(p: Phase, day: int) {
    p.firstDay <= day <= p.lastDay
  }

  const Table: seq<Phase> := [
    Phase("Menstrual Phase", "The uterine lining is shed, resulting in menstrual bleeding",
          "rgb(244, 63, 94)", 1, 5, ["Cramps", "Fatigue", "Mood changes"]),
    Phase("Follicular Phase", "Follicles in the ovary develop and estrogen levels rise",
          "rgb(251, 146, 60)", 6, 13, ["Increased energy", "Improved mood", "Skin clarity"]),
    Phase("Ovulation Phase", "A mature egg is released from the ovary",
          "rgb(34, 197, 94)", 14, 16, ["Mild cramping", "Increased libido", "Clear discharge"]),
    Phase("Luteal Phase", "The body prepares for possible pregnancy",
          "rgb(147, 51, 234)", 17, 28, ["Breast tenderness", "Bloating", "Mood changes"])
  ]

  /** Some phase of the table covers `day`. */
  predicate InSomePhase(day: int) {
    exists i :: 0 <= i < |Table| && Covers(Table[i], day)
  }

  /** The table's ranges are pairwise disjoint and together cover exactly days 1..28. */
  lemma TablePartitionsDays()
    ensures forall i, j, d :: 0 <= i < j < |Table| && Covers(Table[i], d) ==> !Covers(Table[j], d)
    ensures forall d :: InSomePhase(d) <==> 1 <= d <= 28
  {
    forall d ensures InSomePhase(d) <==> 1 <= d <= 28 {
      if 1 <= d <= 5 { assert Covers(Table[0], d); }
      else if 6 <= d <= 13 { assert Covers(Table[1], d); }
      else if 14 <= d <= 16 { assert Covers(Table[2], d); }
      else if 17 <= d <= 28 { assert Covers(Table[3], d); }
    }
  }

  /** `cyclePhases.find(...)`: the phase whose range contains `day`, if any. */
  function PhaseOf(day: int): (r: Option<Phase>)
    ensures r.Some? ==> Covers(r.value, day) && r.value in Table
    ensures r.None? <==> day < 1 || day > 28
  {
    TablePartitionsDays();
    SeqSearch.Find(Table, (p: Phase) => Covers(p, day))
  }

  /** For a day of 1..28 the lookup returns the one phase of the table whose range holds it. */
  lemma PhaseOfUnique(day: int, i: nat)
    requires i < |Table| && Covers(Table[i], day)
    ensures PhaseOf(day) == Some(Table[i])
  {
    TablePartitionsDays();
    var r := PhaseOf(day);
    var k :| 0 <= k < |Table| && Table[k] == r.value;
    assert i == k;
  }

  /**
   * The effect run when the current day changes: a day of 0 is falsy and leaves the
   * current phase alone; any other day replaces it with its lookup.
   */
  function UpdatedCurrentPhase(current: Option<Phase>, day: int): (r: Option<Phase>)
    ensures day == 0 ==> r == current
    ensures day != 0 ==> r == PhaseOf(day)
  {
    if day != 0 then PhaseOf(day) else current
  }

  /** Days past 28, reachable with cycles of up to 35 days, clear the current phase. */
  lemma LongCycleDaysHaveNoPhase(current: Option<Phase>, day: int)
    requires 28 < day <= 35
    ensures UpdatedCurrentPhase(current, day) == None
  {
  }

  /** The panel shows the clicked phase if one was clicked, otherwise the current one. */
  function DisplayedPhase(selected: Option<Phase>, current: Option<Phase>): (r: Option<Phase>)
    ensures selected.Some? ==> r == selected
    ensures selected.None? ==> r == current
  {
    if selected.Some? then selected else current
  }

  /**
   * After the current day changes, the panel shows a phase holding that day unless one
   * was clicked; a clicked phase stays on the panel whatever the day.
   */
  lemma PanelAfterDayChange(selected: Option<Phase>, current: Option<Phase>, day: int)
    ensures selected.Some? ==> DisplayedPhase(selected, UpdatedCurrentPhase(current, day)) == selected
    ensures selected.None? && 1 <= day <= 28 ==>
      var r := DisplayedPhase(selected, UpdatedCurrentPhase(current, day));
      r.Some? && Covers(r.value, day) && r.value in Table
  {
  }
}

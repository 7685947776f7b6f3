/**
 * The menstruation tracker page's state: the selected calendar day, the daily-log
 * form, the log of recorded days, the first logged period start, the cycle length
 * and the current cycle day shown on the Cycle View tab.
 */
module CycleTracker {
  import opened Wrappers
  import opened CycleMath
  import Symptoms

  /** The cycle length slider runs from 21 to 35 days; the page starts at 28. */
  const MinCycleLength := 21
  const MaxCycleLength := 35

  class Tracker {
    var selectedDate: int
    var cycleDays: seq<CycleDay>
    var painLevel: int
    var flow: Flow
    var mood: string
    var cycleLength: int
    var lastPeriodStart: Option<int>
    var selectedSymptoms: seq<string>
    var currentCycleDay: int

    /**
     * The period start is set exactly when something has been logged, and it is
     * the date of the first log entry; the cycle length stays on the slider's range.
     */
    ghost predicate Valid()
      reads this
    {
      && (lastPeriodStart.None? <==> cycleDays == [])
      && (cycleDays != [] ==> lastPeriodStart == Some(cycleDays[0].date))
      && MinCycleLength <= cycleLength <= MaxCycleLength
    }

    /** The page opens on today with an empty log, a default form and day 1. */
    constructor (today: int)
      ensures Valid()
      ensures selectedDate == today && cycleDays == [] && lastPeriodStart == None
      ensures painLevel == 0 && flow == Medium && mood == "normal" && selectedSymptoms == []
      ensures cycleLength == 28 && currentCycleDay == 1
    {
      selectedDate, cycleDays := today, [];
      painLevel, flow, mood := 0, Medium, "normal";
      cycleLength, lastPeriodStart := 28, None;
      selectedSymptoms, currentCycleDay := [], 1;
    }

    /** Picking a day on the calendar. */
    method SelectDate(date: int)
      requires Valid()
      modifies this`selectedDate
      ensures Valid() && selectedDate == date
    {
      selectedDate := date;
    }

    /** Moving the cycle length slider. */
    method SetCycleLength(days: int)
      requires Valid() && MinCycleLength <= days <= MaxCycleLength
      modifies this`cycleLength
      ensures Valid() && cycleLength == days
    {
      cycleLength := days;
    }

    /** Ticking or unticking a symptom checkbox in the form. */
    method ToggleSymptom(symptom: string)
      requires Valid()
      modifies this`selectedSymptoms
      ensures Valid()
      ensures selectedSymptoms == Symptoms.Toggle(old(selectedSymptoms), symptom)
    {
      selectedSymptoms := Symptoms.Toggle(selectedSymptoms, symptom);
    }

    /**
     * `addCycleDay`: append the form as an entry for the selected day, take that day
     * as the period start if none is set yet, and clear the form.
     */
    method AddCycleDay()
      requires Valid()
      modifies this`cycleDays, this`lastPeriodStart, this`painLevel, this`flow, this`mood,
               this`selectedSymptoms
      ensures Valid()
      ensures cycleDays == old(cycleDays) +
                [CycleDay(selectedDate, old(flow), old(selectedSymptoms), old(painLevel), old(mood))]
      ensures lastPeriodStart == if old(lastPeriodStart).None? then Some(selectedDate)
                                 else old(lastPeriodStart)
      ensures painLevel == 0 && flow == Medium && mood == "normal" && selectedSymptoms == []
    {
      var entry := CycleDay(selectedDate, flow, selectedSymptoms, painLevel, mood);
      cycleDays := cycleDays + [entry];
      if lastPeriodStart.None? {
        lastPeriodStart := Some(selectedDate);
      }
      painLevel, flow, mood, selectedSymptoms := 0, Medium, "normal", [];
    }

    /**
     * The effect that recomputes the current cycle day (the clock is the parameter
     * `today`); without a period start the day keeps its previous value.
     */
    method RefreshCycleDay(today: int)
      requires Valid()
      modifies this`currentCycleDay
      ensures Valid()
      ensures lastPeriodStart.None? ==> currentCycleDay == old(currentCycleDay)
      ensures lastPeriodStart.Some? ==>
                currentCycleDay == CurrentCycleDay(lastPeriodStart.value, today, cycleLength)
      ensures lastPeriodStart.Some? ==> 1 <= currentCycleDay <= cycleLength
    {
      if lastPeriodStart.Some? {
        currentCycleDay := CurrentCycleDay(lastPeriodStart.value, today, cycleLength);
      }
    }

    /** How the calendar marks `date` given the page's current state. */
    function DateHighlight(date: int): (h: Highlight)
      reads this
      ensures lastPeriodStart.None? ==> h.Logged? || h == Plain
    {
      ClassifyDate(date, cycleDays, FertilityWindow(lastPeriodStart, cycleLength))
    }
  }
}

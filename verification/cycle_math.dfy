/**
 * Date arithmetic of the menstruation tracker. Dates are calendar days numbered
 * consecutively (day `n + 1` is the day after day `n`); a cycle length is a number of days.
 */
module CycleMath {
  import opened Wrappers
  import SeqSearch

  datatype Flow = Light | Medium | Heavy

  /** One logged day, as the Log Day button records it. */
  datatype CycleDay = CycleDay(date: int, flow: Flow, symptoms: seq<string>, painLevel: int, mood: string)

  /** JavaScript's `%`: the remainder takes the sign of the dividend. */
  function JsRem(a: int, b: int): (r: int)
    requires b > 0
    ensures a >= 0 ==> 0 <= r < b
    ensures a < 0 ==> -b < r <= 0
    ensures var q := if a >= 0 then a / b else -((-a) / b); a == q * b + r
  {
    if a >= 0 then a % b else -((-a) % b)
  }

  /** The current cycle day as the page computes it: `(daysSinceStart % cycleLength) + 1`. */
  function CycleDayAsWritten(start: int, today: int, cycleLength: int): (r: int)
    requires cycleLength >= 1
    ensures var q := if today >= start then (today - start) / cycleLength
                     else -((start - today) / cycleLength);
            today - start == q * cycleLength + (r - 1)
    ensures today - start >= 0 ==> 0 <= r - 1 < cycleLength
    ensures today - start < 0 ==> -cycleLength < r - 1 <= 0
  {
    JsRem(today - start, cycleLength) + 1
  }

  /** With a start on or before today the page's formula is a day of the cycle. */
  lemma AsWrittenInCycleForPastStart(start: int, today: int, cycleLength: int)
    requires cycleLength >= 1 && start <= today
    ensures 1 <= CycleDayAsWritten(start, today, cycleLength) <= cycleLength
  {
  }

  /**
   * A start date after today yields a cycle day of 0 or below, except Day 1 when the
   * start lies a whole number of cycles ahead.
   */
  lemma AsWrittenFutureStart(start: int, today: int, cycleLength: int)
    requires cycleLength >= 1 && start > today
    ensures 2 - cycleLength <= CycleDayAsWritten(start, today, cycleLength) <= 1
    ensures CycleDayAsWritten(start, today, cycleLength) == 1 <==> (start - today) % cycleLength == 0
  {
  }

  /** Logging tomorrow as the period start shows "Day 0" in a 28-day cycle. */
  lemma AsWrittenDayZero()
    ensures CycleDayAsWritten(1, 0, 28) == 0
  {
  }

  /**
   * The current cycle day with the remainder taken modulo the cycle length
   * (floor division): the position of `today` in the cycle that began at `start`.
   */
  function CurrentCycleDay(start: int, today: int, cycleLength: int): (r: int)
    requires cycleLength >= 1
    ensures 1 <= r <= cycleLength
    ensures exists cycles :: today - start == cycles * cycleLength + (r - 1)
  {
    var cycles := (today - start) / cycleLength;
    assert today - start == cycles * cycleLength + (today - start) % cycleLength;
    (today - start) % cycleLength + 1
  }

  /** Both formulas agree whenever the start is not in the future. */
  lemma CycleDayAgreesForPastStart(start: int, today: int, cycleLength: int)
    requires cycleLength >= 1 && start <= today
    ensures CurrentCycleDay(start, today, cycleLength) == CycleDayAsWritten(start, today, cycleLength)
  {
  }

  /** The remainder is determined by any decomposition `a == q * L + m` with `0 <= m < L`. */
  lemma {:induction false} RemainderOfDecomposition(a: int, L: int, q: int, m: int)
    requires L >= 1 && 0 <= m < L && a == q * L + m
    ensures a % L == m
  {
    var q0, m0 := a / L, a % L;
    assert a == q0 * L + m0;
    var k := q - q0;
    assert k * L == m0 - m;
    if k != 0 {
      assert false;
    }
  }

  /** The current cycle day advances by one each day and wraps from the last day to day 1. */
  lemma {:induction false} CycleDayAdvances(start: int, today: int, cycleLength: int)
    requires cycleLength >= 1
    ensures var d := CurrentCycleDay(start, today, cycleLength);
            CurrentCycleDay(start, today + 1, cycleLength) == if d == cycleLength then 1 else d + 1
  {
    var d := CurrentCycleDay(start, today, cycleLength);
    var q := (today - start) / cycleLength;
    assert today - start == q * cycleLength + (d - 1);
    if d == cycleLength {
      RemainderOfDecomposition(today + 1 - start, cycleLength, q + 1, 0);
    } else {
      RemainderOfDecomposition(today + 1 - start, cycleLength, q, d);
    }
  }

  /** Predicted ovulation day and the fertile days around it. */
  datatype Window = Window(ovulationDay: int, fertilityStart: int, fertilityEnd: int)

  /** Shape shared by every prediction: five days before ovulation through the day after. */
  predicate WellShaped(w: Window) {
    w.fertilityStart == w.ovulationDay - 5 && w.fertilityEnd == w.ovulationDay + 1
  }

  /** `calculateFertilityWindow` as written: ovulation `floor(cycleLength / 2) - 14` days after the start. */
  function FertilityWindowAsWritten(lastPeriodStart: Option<int>, cycleLength: int): (r: Option<Window>)
    ensures r.None? <==> lastPeriodStart.None?
    ensures r.Some? ==> WellShaped(r.value)
    ensures r.Some? ==> r.value.ovulationDay - lastPeriodStart.value == cycleLength / 2 - 14
  {
    match lastPeriodStart
    case None => None
    case Some(start) =>
      var ovulation := start + cycleLength / 2 - 14;
      Some(Window(ovulation, ovulation - 5, ovulation + 1))
  }

  /**
   * For every cycle length the page offers (21..35) the formula as written predicts
   * ovulation within four days of the period start, cycle day -3 to 4 — never in the
   * ovulation phase (days 14-16) that the cycle visualizer shows.
   */
  lemma OvulationAsWrittenNearPeriodStart(start: int, cycleLength: int)
    requires 21 <= cycleLength <= 35
    ensures var w := FertilityWindowAsWritten(Some(start), cycleLength).value;
            start - 4 <= w.ovulationDay <= start + 3
  {
  }

  /** With a 28-day cycle the formula as written puts ovulation on the first day of the period. */
  lemma OvulationAsWrittenOnPeriodStart(start: int)
    ensures FertilityWindowAsWritten(Some(start), 28).value.ovulationDay == start
  {
  }

  /** Luteal days from ovulation to the next period. */
  const LutealDays := 14

  /**
   * The fertility window with ovulation fourteen days before the next predicted period;
   * `None` exactly when no period start has been logged.
   */
  function FertilityWindow(lastPeriodStart: Option<int>, cycleLength: int): (r: Option<Window>)
    ensures r.None? <==> lastPeriodStart.None?
    ensures r.Some? ==> WellShaped(r.value)
    ensures r.Some? ==> r.value.ovulationDay + LutealDays == lastPeriodStart.value + cycleLength
  {
    match lastPeriodStart
    case None => None
    case Some(start) =>
      var ovulation := start + cycleLength - LutealDays;
      Some(Window(ovulation, ovulation - 5, ovulation + 1))
  }

  /** The predicted window spans seven days and contains its ovulation day. */
  lemma WindowSpan(w: Window)
    requires WellShaped(w)
    ensures w.fertilityEnd - w.fertilityStart + 1 == 7
    ensures w.fertilityStart <= w.ovulationDay <= w.fertilityEnd
  {
  }

  /**
   * For the offered cycle lengths the corrected prediction falls on cycle day
   * `cycleLength - 13` (8 to 22) of the current cycle; for a 28-day cycle that is day 15,
   * inside the visualizer's ovulation phase.
   */
  lemma OvulationInCycle(start: int, cycleLength: int)
    requires 21 <= cycleLength <= 35
    ensures var w := FertilityWindow(Some(start), cycleLength).value;
            CurrentCycleDay(start, w.ovulationDay, cycleLength) == cycleLength - 13
  {
  }

  /** Next predicted period: `cycleLength` days after the last start, when there is one. */
  function NextPeriod(lastPeriodStart: Option<int>, cycleLength: int): (r: Option<int>)
    ensures r.None? <==> lastPeriodStart.None?
    ensures r.Some? ==> r.value - lastPeriodStart.value == cycleLength
  {
    match lastPeriodStart
    case None => None
    case Some(start) => Some(start + cycleLength)
  }

  /** The predicted next period is day 1 of a cycle, and the day before it is the last day. */
  lemma {:induction false} NextPeriodStartsCycle(start: int, cycleLength: int)
    requires cycleLength >= 1
    ensures var next := NextPeriod(Some(start), cycleLength).value;
            CurrentCycleDay(start, next, cycleLength) == 1 &&
            CurrentCycleDay(start, next - 1, cycleLength) == cycleLength
  {
    var next := start + cycleLength;
    RemainderOfDecomposition(next - start, cycleLength, 1, 0);
    RemainderOfDecomposition(next - 1 - start, cycleLength, 0, cycleLength - 1);
  }

  /** How the calendar marks a day. */
  datatype Highlight =
    | Logged(flow: Flow, painLevel: int, mood: string)
    | Ovulation
    | Fertile
    | Plain

  /** `getDateHighlight`: a logged day, else predicted ovulation, else a fertile day, else nothing. */
  function ClassifyDate(date: int, log: seq<CycleDay>, window: Option<Window>): (h: Highlight)
    ensures h.Logged? <==> exists i :: 0 <= i < |log| && log[i].date == date
    ensures h.Logged? ==> exists i :: 0 <= i < |log| && log[i].date == date &&
                            (forall j :: 0 <= j < i ==> log[j].date != date) &&
                            h == Logged(log[i].flow, log[i].painLevel, log[i].mood)
    ensures h == Ovulation <==> !h.Logged? && window.Some? && date == window.value.ovulationDay
    ensures h == Fertile <==> !h.Logged? && window.Some? && date != window.value.ovulationDay &&
                              window.value.fertilityStart <= date <= window.value.fertilityEnd
  {
    match SeqSearch.Find(log, (d: CycleDay) => d.date == date)
    case Some(d) => Logged(d.flow, d.painLevel, d.mood)
    case None =>
      match window
      case Some(w) =>
        if date == w.ovulationDay then Ovulation
        else if w.fertilityStart <= date <= w.fertilityEnd then Fertile
        else Plain
      case None => Plain
  }

  /** Logging a day overrides any prediction for it: the day shows what was logged. */
  lemma {:induction false} LoggedOverridesPrediction(date: int, log: seq<CycleDay>, entry: CycleDay,
                                                     window: Option<Window>)
    requires entry.date == date && forall i :: 0 <= i < |log| ==> log[i].date != date
    ensures ClassifyDate(date, log + [entry], window) == Logged(entry.flow, entry.painLevel, entry.mood)
  {
    var log' := log + [entry];
    assert log'[|log|] == entry;
    var h := ClassifyDate(date, log', window);
    var i :| 0 <= i < |log'| && log'[i].date == date &&
             (forall j :: 0 <= j < i ==> log'[j].date != date) &&
             h == Logged(log'[i].flow, log'[i].painLevel, log'[i].mood);
  }

  /** Later entries for an already logged day are never shown: the first entry wins. */
  lemma {:induction false} FirstEntryWins(date: int, log: seq<CycleDay>, entry: CycleDay,
                                          window: Option<Window>)
    requires exists i :: 0 <= i < |log| && log[i].date == date
    ensures ClassifyDate(date, log + [entry], window) == ClassifyDate(date, log, window)
  {
    var log' := log + [entry];
    var h, h' := ClassifyDate(date, log, window), ClassifyDate(date, log', window);
    var i :| 0 <= i < |log| && log[i].date == date &&
             (forall j :: 0 <= j < i ==> log[j].date != date) &&
             h == Logged(log[i].flow, log[i].painLevel, log[i].mood);
    assert log'[i] == log[i];
    var i' :| 0 <= i' < |log'| && log'[i'].date == date &&
              (forall j :: 0 <= j < i' ==> log'[j].date != date) &&
              h' == Logged(log'[i'].flow, log'[i'].painLevel, log'[i'].mood);
  }
}

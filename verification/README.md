# Health self-tracking pages: the computations behind the views

This project models, in Dafny, the computing core of the health self-tracking pages:
the mental-wellness check-in, the guided-meditation timer, the menstruation cycle
tracker with its phase visualizer and symptom checklist, and the mood-analysis insights.
Rendering is not modelled. What remains is modelled:

- the weighted wellness score and its four bands (`WellnessScore`);
- the `M:SS` timer text (`TimeFormat`);
- the rating labels (`RatingLabels`);
- the meditation countdown, as a value-level state machine and as a class holding the same
  state in fields (`Meditation`);
- cycle-day, fertility-window, next-period and calendar-highlight arithmetic (`CycleMath`);
- the tracker's logged state as a class (`CycleTracker`);
- the phase table and lookup (`CyclePhases`);
- the symptom toggle (`Symptoms`);
- the averages and trend of the insights panel (`MoodInsights`).

`SeqSearch` holds JavaScript's `find`, which all lookups use; `IndexWhere` is its search
step (it returns the length, not −1, when nothing matches).
`Wrappers` holds `Option`, which stands for `null`.

Dates are calendar days numbered consecutively. Scores are exact integers. Ratings in the
insights are exact reals. The clock is a parameter (`today`). Which interval fires next
is a parameter too (the interval's index).

Three behaviours of the code are easy to misread:

- The meditation countdown never shows 0. When a tick finds one second or less
  remaining, it restores the captured duration instead. A 300-second session therefore
  counts 300, 299, …, 1 and then shows 300 again (`Meditation.SessionReturnsToStart`).
- The cycle day of a period start in the future is 0 or negative, not a day of the
  cycle, except Day 1 when the start is a whole number of cycles ahead. See Findings.
- The ovulation formula puts ovulation at or near the start of the period. See Findings.

The pure functions model the code as written (`CycleMath.CycleDayAsWritten`,
`CycleMath.FertilityWindowAsWritten`) next to the corrected formulas. The tracker class
(`CycleTracker.Tracker`) uses the corrected formulas (`CycleMath.CurrentCycleDay`,
`CycleMath.FertilityWindow`). Its cycle day differs from the page's only for a future
start that is not a whole number of cycles ahead, and its ovulation and fertile marks
differ whenever a start is logged, as the Findings describe.

## Model

| member | source | states |
|---|---|---|
| `WellnessScore.Score` | app/mental-wellness/page.tsx:110-130 | The score is the weighted, ×10 rating sum rounded to the nearest integer, halves up: 10·score − 5 ≤ 25m + 25(10−a) + 20s + 15e + 15f < 10·score + 5 |
| `WellnessScore.ScoreRange` | app/mental-wellness/page.tsx:110-130 | For slider ratings in 1..10 the score lies in [8, 98], so within 0..100 |
| `WellnessScore.ScoreMonotone` | app/mental-wellness/page.tsx:119-127 | The score never drops when mood, sleep, energy or focus rise or anxiety falls, other inputs fixed |
| `WellnessScore.DefaultScore` | app/mental-wellness/page.tsx:59-63 | The default ratings 7, 3, 8, 6, 7 score 71 |
| `WellnessScore.BandOf` | app/mental-wellness/page.tsx:655-658 | Excellent iff score ≥ 80, Good iff 60 ≤ score < 80, Fair iff 40 ≤ score < 60, Needs Attention iff score < 40, so each score has exactly one band |
| `WellnessScore.BandMonotone` | app/mental-wellness/page.tsx:655-658 | A higher score never gets a worse band |
| `WellnessScore.BandLabelsDistinct` | app/mental-wellness/page.tsx:655-658 | Different bands show different badge texts |
| `TimeFormat.FormatTime` | app/mental-wellness/page.tsx:132-136 | The text is digits, a colon, then exactly two digits |
| `TimeFormat.FormatTimeRoundTrip` | app/mental-wellness/page.tsx:132-136 | Reading the text back gives the input: shown minutes × 60 + shown seconds = seconds |
| `TimeFormat.SecondsField` | app/mental-wellness/page.tsx:134-135 | The two digits after the colon are seconds mod 60, zero-padded |
| `TimeFormat.MinutesField` | app/mental-wellness/page.tsx:133-135 | The digits before the colon are floor(seconds / 60), written without a leading zero (600 s is "10:00", never "010:00") |
| `TimeFormat.CanonicalIsDecimal` | app/mental-wellness/page.tsx:135 | Digit text without a leading zero is exactly the decimal text of the number it reads as |
| `TimeFormat.FormatTimeCanonical` | app/mental-wellness/page.tsx:132-136 | Any `M:SS` text whose minutes have no leading zero and whose seconds are below 60 is exactly the text shown for the seconds it reads back as, so the shown text is the one canonical text |
| `TimeFormat.DecimalRoundTrip` | app/mental-wellness/page.tsx:135 | A number's decimal text reads back as that number |
| `TimeFormat.FiveMinutes` | app/mental-wellness/page.tsx:66 | 300 seconds are shown as "5:00" |
| `RatingLabels.RatingLabel` | app/mental-wellness/page.tsx:174-178 | Ratings 1, 3, 5, 7, 9 get their table label; every other value gets "N/A" |
| `RatingLabels.EvenRatingsUnlabelled` | app/mental-wellness/page.tsx:274 | Even slider values 2..10 show "N/A" |
| `RatingLabels.DefaultMoodLabel` | app/mental-wellness/page.tsx:70-76 | Mood 7 is labelled "Good" |
| `SeqSearch.IndexWhere` | app/menstruation-tracker/page.tsx:93-95 | The search step of `find`: the index found is the first whose element satisfies the test, or the length if none does |
| `SeqSearch.Find` | app/menstruation-tracker/components/CycleVisualizer.tsx:60-62 | `find` returns nothing iff no element passes, else the first passing element |
| `Meditation.Toggle` | app/mental-wellness/page.tsx:138-156 | Flips playing and keeps time and duration. Start adds exactly one interval, at the end, capturing the current duration; Pause adds none and removes none |
| `Meditation.Tick` | app/mental-wellness/page.tsx:145-153 | Keeps the duration. Above 1 s: one second less, play state and intervals unchanged. At 1 s or less: the firing interval's captured duration comes back, playing is false, and exactly that interval is cleared while the others stay live in order |
| `Meditation.Reset` | app/mental-wellness/page.tsx:158-161 | Stops and shows the configured duration; duration and intervals unchanged |
| `Meditation.SetDuration` | app/mental-wellness/page.tsx:163-167 | Duration and remaining time both become 60·minutes; play state and intervals unchanged |
| `Meditation.RunTicks` | app/mental-wellness/page.tsx:145-153 | Any number of firings keeps the duration, never adds an interval and keeps the timer well formed |
| `Meditation.StepsKeepWellFormed` | app/mental-wellness/page.tsx:138-167 | Toggle, tick, reset and choosing a duration of at least one minute keep the remaining time and every duration ≥ 1, so the timer never shows 0:00 |
| `Meditation.CountingDown` | app/mental-wellness/page.tsx:146-152 | With one interval live and more than k seconds left, k ticks only subtract k from the remaining time |
| `Meditation.FullCountdown` | app/mental-wellness/page.tsx:146-153 | With one interval live, as many ticks as seconds remain clear it, stop playing and show the captured duration |
| `Meditation.SessionReturnsToStart` | app/mental-wellness/page.tsx:138-154 | After Start from rest at d seconds, ticks 0..d−1 show d−k with play state unchanged, remaining stays in [1, d], and tick d restores exactly the pre-Start state |
| `Meditation.PauseDoesNotFreeze` | app/mental-wellness/page.tsx:138-153 | Pause clears playing, but the live interval still takes a second off on its next tick |
| `Meditation.StaleDurationRestored` | app/mental-wellness/page.tsx:145-167 | Changing the duration mid-session does not reach the running interval: the session ends showing the duration captured at Start |
| `Meditation.MeditationPlayer.constructor` | app/mental-wellness/page.tsx:65-67 | The player starts paused at 300 of 300 seconds with no interval |
| `Meditation.MeditationPlayer.ToggleMeditation` | app/mental-wellness/page.tsx:138-156 | Flips playing. Start adds an interval that captures the current duration. Pause leaves the intervals alone. Time and duration are unchanged |
| `Meditation.MeditationPlayer.TickInterval` | app/mental-wellness/page.tsx:145-153 | Above 1 s: one second less, nothing else changes. At 1 s or less: the captured duration comes back, playing is false and this interval is cleared |
| `Meditation.MeditationPlayer.ResetMeditation` | app/mental-wellness/page.tsx:158-161 | Stops and shows the configured duration; duration and intervals unchanged |
| `Meditation.MeditationPlayer.SetMeditationDuration` | app/mental-wellness/page.tsx:163-167 | Duration and remaining time both become 60·minutes; play state and intervals untouched |
| `CycleMath.JsRem` | app/menstruation-tracker/page.tsx:47 | JavaScript `%`: a = q·b + r with q truncated toward zero, so r is in [0, b) for a non-negative dividend and in (−b, 0] for a negative one |
| `CycleMath.CycleDayAsWritten` | app/menstruation-tracker/page.tsx:44-47 | Days since start = q·cycleLength + (day − 1) with q truncated toward zero, so day − 1 is in [0, cycleLength) for a past start and in (−cycleLength, 0] for a future one |
| `CycleMath.AsWrittenInCycleForPastStart` | app/menstruation-tracker/page.tsx:44-47 | With a start on or before today, the page's cycle day lies in [1, cycleLength] |
| `CycleMath.AsWrittenFutureStart` | app/menstruation-tracker/page.tsx:44-47 | With a start after today, the page's cycle day lies in [2 − cycleLength, 1], and it is 1 exactly when the start is a whole number of cycles ahead |
| `CycleMath.AsWrittenDayZero` | app/menstruation-tracker/page.tsx:44-47 | A start logged for tomorrow gives "Day 0" in a 28-day cycle |
| `CycleMath.CurrentCycleDay` | app/menstruation-tracker/page.tsx:41-50 | The day is in [1, cycleLength] and today is (day − 1) days past a whole number of cycles since the start |
| `CycleMath.CycleDayAgreesForPastStart` | app/menstruation-tracker/page.tsx:44-47 | For a start on or before today the corrected day equals the page's |
| `CycleMath.RemainderOfDecomposition` | app/menstruation-tracker/page.tsx:47 | a = q·L + m with 0 ≤ m < L fixes a mod L = m |
| `CycleMath.CycleDayAdvances` | app/menstruation-tracker/page.tsx:44-47 | Each new day advances the cycle day by one, wrapping from cycleLength to 1 |
| `CycleMath.FertilityWindowAsWritten` | app/menstruation-tracker/page.tsx:52-69 | Absent iff no start. Otherwise ovulation is floor(L/2) − 14 days after the start and the window runs from 5 days before ovulation to 1 day after |
| `CycleMath.OvulationAsWrittenNearPeriodStart` | app/menstruation-tracker/page.tsx:55-56 | For every offered cycle length (21..35), the page's ovulation lies within 4 days before to 3 days after the period start |
| `CycleMath.OvulationAsWrittenOnPeriodStart` | app/menstruation-tracker/page.tsx:55-56 | With a 28-day cycle the page's ovulation is the period start itself |
| `CycleMath.FertilityWindow` | app/menstruation-tracker/page.tsx:52-69 | Absent iff no start; otherwise ovulation + 14 days is the next period, window from ovulation − 5 to ovulation + 1 |
| `CycleMath.WindowSpan` | app/menstruation-tracker/page.tsx:58-62 | The window spans 7 days inclusive and contains the ovulation day |
| `CycleMath.OvulationInCycle` | app/menstruation-tracker/page.tsx:55-56 | The corrected ovulation falls on cycle day cycleLength − 13 (day 15 for 28 days) |
| `CycleMath.NextPeriod` | app/menstruation-tracker/page.tsx:245-253 | Shown iff a start exists, and then it is cycleLength days after it |
| `CycleMath.NextPeriodStartsCycle` | app/menstruation-tracker/page.tsx:247-249 | The next period is day 1 of a cycle and the day before it is day cycleLength |
| `CycleMath.ClassifyDate` | app/menstruation-tracker/page.tsx:92-120 | Logged iff some entry has that day, and then the first such entry's flow, pain and mood. Otherwise ovulation iff the day is the predicted ovulation day. Otherwise fertile iff the day is in the window. Otherwise nothing |
| `CycleMath.LoggedOverridesPrediction` | app/menstruation-tracker/page.tsx:93-103 | Logging a day makes the calendar show that entry whatever the prediction |
| `CycleMath.FirstEntryWins` | app/menstruation-tracker/page.tsx:93-95 | A later entry for an already logged day never changes what the day shows |
| `CycleTracker.Tracker.constructor` | app/menstruation-tracker/page.tsx:31-39 | The page opens on today, empty log, no start, pain 0, medium flow, normal mood, no symptoms, 28 days, day 1 |
| `CycleTracker.Tracker.SelectDate` | app/menstruation-tracker/page.tsx:145 | The calendar selection becomes the picked day |
| `CycleTracker.Tracker.SetCycleLength` | app/menstruation-tracker/page.tsx:277-284 | The cycle length becomes the slider value in 21..35 |
| `CycleTracker.Tracker.ToggleSymptom` | app/menstruation-tracker/page.tsx:211-214 | The form's symptom list becomes its toggle |
| `CycleTracker.Tracker.AddCycleDay` | app/menstruation-tracker/page.tsx:71-90 | Appends exactly one entry (the form for the selected day) and keeps earlier entries. Sets the start only when unset. Resets the form to 0 / medium / normal / no symptoms. Keeps "start = first entry's date" |
| `CycleTracker.Tracker.RefreshCycleDay` | app/menstruation-tracker/page.tsx:41-50 | Recomputes the day only when a start exists (then in [1, cycleLength]); otherwise the previous day stays |
| `CycleTracker.Tracker.DateHighlight` | app/menstruation-tracker/page.tsx:92-120 | Before any period is logged, no day is marked ovulation or fertile |
| `CyclePhases.TablePartitionsDays` | app/menstruation-tracker/components/CycleVisualizer.tsx:19-48 | The four ranges are pairwise disjoint and together cover exactly days 1..28 |
| `CyclePhases.PhaseOf` | app/menstruation-tracker/components/CycleVisualizer.tsx:60-62 | A returned phase is in the table and its first day ≤ day ≤ its last day; none iff day < 1 or day > 28 |
| `CyclePhases.PhaseOfUnique` | app/menstruation-tracker/components/CycleVisualizer.tsx:60-62 | The lookup returns the one table phase whose range holds the day |
| `CyclePhases.UpdatedCurrentPhase` | app/menstruation-tracker/components/CycleVisualizer.tsx:58-65 | Day 0 leaves the current phase unchanged; any other day replaces it with its lookup |
| `CyclePhases.LongCycleDaysHaveNoPhase` | app/menstruation-tracker/components/CycleVisualizer.tsx:60-63 | Days 29..35 of longer cycles clear the current phase |
| `CyclePhases.DisplayedPhase` | app/menstruation-tracker/components/CycleVisualizer.tsx:126-150 | The panel shows the clicked phase if any, else the current phase |
| `CyclePhases.PanelAfterDayChange` | app/menstruation-tracker/components/CycleVisualizer.tsx:58-64 | After a day change the panel keeps a clicked phase; with none clicked and a day in 1..28 it shows a table phase holding that day |
| `Symptoms.RemoveAll` | app/menstruation-tracker/components/SymptomsTracker.tsx:30 | No copy of the symptom is left, and every other symptom stays present exactly when it was |
| `Symptoms.Toggle` | app/menstruation-tracker/components/SymptomsTracker.tsx:28-33 | Flips whether the symptom's box is checked and leaves every other box as it was. An absent symptom is appended at the end |
| `Symptoms.RemoveAllMultiset` | app/menstruation-tracker/components/SymptomsTracker.tsx:30 | Filtering drops every copy of the symptom and keeps every other element with its count |
| `Symptoms.RemoveAllConcat` | app/menstruation-tracker/components/SymptomsTracker.tsx:30 | Filtering works piecewise over concatenation, so kept elements keep their relative order |
| `Symptoms.RemoveAllAbsent` | app/menstruation-tracker/components/SymptomsTracker.tsx:30 | Filtering out an unlisted symptom changes nothing |
| `Symptoms.ToggleListed` | app/menstruation-tracker/components/SymptomsTracker.tsx:29-30 | Toggling a listed symptom removes all its copies and keeps every other element with its count |
| `Symptoms.RemoveAllNoDuplicates` | app/menstruation-tracker/components/SymptomsTracker.tsx:30 | Filtering a repeat-free list leaves it repeat-free |
| `Symptoms.ToggleKeepsNoDuplicates` | app/menstruation-tracker/components/SymptomsTracker.tsx:29-31 | Toggling a repeat-free list leaves it repeat-free |
| `Symptoms.ToggleTwiceAbsent` | app/menstruation-tracker/components/SymptomsTracker.tsx:28-33 | Ticking then unticking an absent symptom restores the list exactly |
| `Symptoms.ToggleTwicePresent` | app/menstruation-tracker/components/SymptomsTracker.tsx:28-33 | Unticking then ticking a present symptom moves it, once, to the end |
| `MoodInsights.TrendOf` | components/analysis/mental-wellness.tsx:101 | Up iff the last mood exceeds the first, down iff it is lower, stable iff equal, so exactly one holds |
| `MoodInsights.GenerateInsights` | components/analysis/mental-wellness.tsx:94-107 | Each average × count equals its field's sum. The trend compares the first and last mood. The trigger and activity lists are the fixed ones |
| `MoodInsights.SumBounds` | components/analysis/mental-wellness.tsx:95 | n values in [lo, hi] sum to between n·lo and n·hi |
| `MoodInsights.MeanBounds` | components/analysis/mental-wellness.tsx:102-103 | A mean of values in [lo, hi] lies in [lo, hi] |
| `MoodInsights.AverageMoodInRatingRange` | components/analysis/mental-wellness.tsx:80-95 | Moods in the generator's range [1, 5] average within [1, 5] |
| `MoodInsights.TrendOnlyFromEnds` | components/analysis/mental-wellness.tsx:96-101 | Two data sets with the same first and last mood have the same trend, whatever lies between |

## Left out

- Rendering is not modelled: JSX, animation, styling classes, tabs, selects, sliders, the
  chart registration and chart options. None of it computes state.
- The assistant hand-off in `handleConsultAI` is not modelled: opening the assistant,
  sending the prompt and the 300 ms delay. These are calls into code outside this model.
  Only its label lookup (`RatingLabels.RatingLabel`) is modelled.
- Interval timing is not modelled: wall-clock seconds, and the order in which several live
  intervals fire. Intervals are a list of captured durations, and the firing interval is
  a parameter of the tick.
- React's state batching and its double call of state updaters in development mode are not
  modelled. Each handler and each tick is one atomic step.
- The mock data generator is not modelled: random values and the wall clock. The insights
  take any non-empty entry list.
- Date specifics are not modelled: milliseconds, time zones, daylight saving, and
  `toDateString`/`toLocaleDateString`.
- The fertile test compares timestamps, so the start's time of day matters. If the start
  carries a time of day, the window's first calendar day at midnight is not fertile.
  `CycleMath.ClassifyDate` compares calendar days, so all seven days count.
- `WellnessScore.Score`: computed in exact arithmetic, not IEEE doubles. The weights 0.2
  and 0.15 are not exact in binary, so where the exact weighted sum ends in .5 the page's
  double sum can land just below it and round down, one less than the model's score (the
  default ratings sum to exactly 70.5 either way). The progress-ring percentages are
  floating point and not modelled.
- The page's fixed demo figures are not modelled: check-in time, trend, streaks, sessions,
  stats and the journal history.
- ClinicLocator and lib/mentalWellnessRecommendations are not part of this model.
- The plain form setters (pain slider, flow and mood selects, journal text, sound choice,
  activity checkboxes) are not modelled. Each only assigns its field.
- `TimeFormat.FormatTime`: defined for non-negative seconds only. The page only formats
  the remaining time, which `Meditation.StepsKeepWellFormed` keeps at 1 or more.
- `Meditation.MeditationPlayer.SetMeditationDuration`: requires at least one minute. The
  duration buttons offer 1, 3, 5, 10, 15 and 20.
- `CycleTracker.Tracker.SetCycleLength`: requires 21..35, the slider's range.
- `MoodInsights.GenerateInsights`: requires a non-empty list. The code reads the first
  entry and divides by the count, so an empty list throws.
- `CycleTracker.Tracker.RefreshCycleDay` and `CycleTracker.Tracker.DateHighlight`: use the
  corrected `CycleMath.CurrentCycleDay` and `CycleMath.FertilityWindow` from Findings. The
  formulas as written are `CycleMath.CycleDayAsWritten` and
  `CycleMath.FertilityWindowAsWritten`.

## Findings

| source | as written | input that shows it | evidently intended | confidence | as-written member | corrected member |
|---|---|---|---|---|---|---|
| app/menstruation-tracker/page.tsx:44-47 | cycle day = (days since start % cycleLength) + 1, with JavaScript's sign-keeping `%` | a start logged for tomorrow in a 28-day cycle: days since start = −1, shown as "Day 0" (further-future starts show 0 or negative days, except Day 1 for a start a whole number of cycles ahead) | a day in 1..cycleLength, as the cycle-day display and the phase lookup assume | high; not executed | `CycleMath.AsWrittenDayZero` | `CycleMath.CurrentCycleDay` |
| app/menstruation-tracker/page.tsx:55-56 | ovulation = start + floor(cycleLength / 2) − 14 days | cycleLength 28: ovulation falls on the first day of the period; for every length 21..35 it is within 4 days of the period start | ovulation 14 days before the next period (start + cycleLength − 14), day 15 of a 28-day cycle, in the visualizer's ovulation phase (days 14-16) | medium; not executed | `CycleMath.OvulationAsWrittenOnPeriodStart` | `CycleMath.FertilityWindow` |

/**
 * The guided-meditation countdown of the mental-wellness page.
 *
 * State: whether the session is playing, the seconds remaining, the configured
 * duration, and the live countdown intervals. Pressing Start sets playing and starts
 * an interval that remembers the duration configured at that moment; every firing
 * of an interval either counts down by one second or, at one second or less, clears
 * that interval, stops playing and restores the remembered duration. Pause only
 * clears the playing flag: the interval keeps firing. Reset and choosing a duration
 * do not touch the intervals either.
 *
 * `Timer` is the state as a value and `Toggle`, `Tick`, `Reset`, `SetDuration` the
 * operations on it; the class `MeditationPlayer` holds the same state in fields and
 * its methods are proved to perform exactly those operations.
 */
module Meditation {

  /**
   * `intervals` lists, oldest first, the duration each live interval captured
   * when Start was pressed.
   */
  datatype Timer = Timer(playing: bool, remaining: int, duration: int, intervals: seq<int>)

  /** The page opens paused at five minutes with no interval running. */
  const Initial := Timer(false, 300, 300, [])

  /** Every duration is at least one second and so is the remaining time. */
  predicate WellFormed(t: Timer) {
    && t.remaining >= 1
    && t.duration >= 1
    && forall i :: 0 <= i < |t.intervals| ==> t.intervals[i] >= 1
  }

  function RemoveAt(s: seq<int>, i: nat): (r: seq<int>)
    requires i < |s|
    ensures |r| == |s| - 1
    ensures forall j :: 0 <= j < |r| ==> r[j] == if j < i then s[j] else s[j + 1]
  {
    s[..i] + s[i + 1..]
  }

  /** `toggleMeditation`: Pause clears the flag; Start sets it and starts an interval. */
  function Toggle(t: Timer): (r: Timer)
    ensures r.playing == !t.playing
    ensures r.remaining == t.remaining && r.duration == t.duration
    ensures |r.intervals| == |t.intervals| + (if t.playing then 0 else 1)
    ensures r.intervals[..|t.intervals|] == t.intervals
    ensures !t.playing ==> r.intervals[|t.intervals|] == t.duration
  {
    if t.playing then t.(playing := false)
    else t.(playing := true, intervals := t.intervals + [t.duration])
  }

  /** One firing of live interval `i` (the `setInterval` callback). */
  function Tick(t: Timer, i: nat): (r: Timer)
    requires i < |t.intervals|
    ensures r.duration == t.duration
    ensures t.remaining > 1 ==>
              r.remaining == t.remaining - 1 && r.playing == t.playing && r.intervals == t.intervals
    ensures t.remaining <= 1 ==>
              r.remaining == t.intervals[i] && !r.playing && |r.intervals| == |t.intervals| - 1
    ensures t.remaining <= 1 ==>
              r.intervals == t.intervals[..i] + t.intervals[i + 1..]
  {
    if t.remaining <= 1 then
      t.(playing := false, remaining := t.intervals[i], intervals := RemoveAt(t.intervals, i))
    else
      t.(remaining := t.remaining - 1)
  }

  /** `resetMeditation`: stop and restore the configured duration. */
  function Reset(t: Timer): (r: Timer)
    ensures !r.playing && r.remaining == t.duration
    ensures r.duration == t.duration && r.intervals == t.intervals
  {
    t.(playing := false, remaining := t.duration)
  }

  /** `setMeditationDuration(minutes)`: configure and show `60 * minutes` seconds. */
  function SetDuration(t: Timer, minutes: int): (r: Timer)
    ensures r.duration == r.remaining == 60 * minutes
    ensures r.playing == t.playing && r.intervals == t.intervals
  {
    t.(duration := minutes * 60, remaining := minutes * 60)
  }

  /** `n` firings of the oldest live interval, stopping once no interval is live. */
  function RunTicks(t: Timer, n: nat): (r: Timer)
    ensures r.duration == t.duration
    ensures |r.intervals| <= |t.intervals|
    ensures WellFormed(t) ==> WellFormed(r)
    decreases n
  {
    if n == 0 || t.intervals == [] then t else RunTicks(Tick(t, 0), n - 1)
  }

  /** Every operation keeps the timer well formed, so the display never shows 0:00. */
  lemma StepsKeepWellFormed(t: Timer, i: nat, minutes: int)
    requires WellFormed(t)
    ensures WellFormed(Toggle(t)) && WellFormed(Reset(t))
    ensures i < |t.intervals| ==> WellFormed(Tick(t, i))
    ensures minutes >= 1 ==> WellFormed(SetDuration(t, minutes))
  {
  }

  /** While more than `k` seconds remain, `k` firings of the only interval just count down. */
  lemma {:induction false} CountingDown(t: Timer, k: nat)
    requires |t.intervals| == 1 && k < t.remaining
    ensures RunTicks(t, k) == t.(remaining := t.remaining - k)
    decreases k
  {
    if k > 0 {
      CountingDown(Tick(t, 0), k - 1);
    }
  }

  /**
   * With one interval live, as many firings as there are seconds remaining end the
   * session: the interval is cleared, playing stops and the captured duration is shown.
   */
  lemma {:induction false} FullCountdown(t: Timer)
    requires |t.intervals| == 1 && t.remaining >= 1
    ensures RunTicks(t, t.remaining) ==
            t.(playing := false, remaining := t.intervals[0], intervals := [])
    decreases t.remaining
  {
    var u := Tick(t, 0);
    if t.remaining > 1 {
      FullCountdown(u);
    } else {
      assert RemoveAt(t.intervals, 0) == [];
    }
  }

  /**
   * A session started from rest with `d` seconds shown and configured: for the first
   * `d - 1` firings it counts down `d, d-1, ..., 1` (never below 1, never above `d`),
   * and the `d`-th firing returns the timer to exactly the state before Start.
   */
  lemma SessionReturnsToStart(t: Timer)
    requires !t.playing && t.intervals == [] && t.remaining == t.duration >= 1
    ensures forall k :: 0 <= k < t.duration ==>
              RunTicks(Toggle(t), k) == Toggle(t).(remaining := t.duration - k)
    ensures forall k :: 0 <= k <= t.duration ==>
              1 <= RunTicks(Toggle(t), k).remaining <= t.duration
    ensures RunTicks(Toggle(t), t.duration) == t
  {
    var s := Toggle(t);
    assert s.intervals == [t.duration];
    forall k | 0 <= k < t.duration
      ensures RunTicks(s, k) == s.(remaining := t.duration - k)
    {
      CountingDown(s, k);
    }
    FullCountdown(s);
  }

  /** Pausing does not stop the countdown: a later firing still takes a second off. */
  lemma PauseDoesNotFreeze(t: Timer, i: nat)
    requires t.playing && i < |t.intervals| && t.remaining > 1
    ensures !Toggle(t).playing
    ensures Tick(Toggle(t), i).remaining == t.remaining - 1
  {
  }

  /**
   * Choosing a new duration mid-session does not reach the running interval: when it
   * ends, the duration captured at Start is shown, not the new one.
   */
  lemma StaleDurationRestored(t: Timer, minutes: int)
    requires |t.intervals| == 1 && minutes >= 1
    ensures var u := SetDuration(t, minutes);
            RunTicks(u, u.remaining).remaining == t.intervals[0]
  {
    FullCountdown(SetDuration(t, minutes));
  }

  /** The meditation panel's state, held in fields as the page holds it. */
  class MeditationPlayer {
    var isPlaying: bool
    var remainingTime: int
    var meditationTime: int
    var intervals: seq<int>

    function State(): Timer
      reads this
    {
      Timer(isPlaying, remainingTime, meditationTime, intervals)
    }

    ghost predicate Valid()
      reads this
    {
      WellFormed(State())
    }

    constructor ()
      ensures Valid() && State() == Initial
    {
      isPlaying, remainingTime, meditationTime, intervals := false, 300, 300, [];
    }

    method ToggleMeditation()
      requires Valid()
      modifies this
      ensures Valid() && State() == Toggle(old(State()))
      ensures isPlaying == !old(isPlaying)
      ensures remainingTime == old(remainingTime) && meditationTime == old(meditationTime)
      ensures intervals == if old(isPlaying) then old(intervals)
                           else old(intervals) + [old(meditationTime)]
    {
      StepsKeepWellFormed(State(), 0, 1);
      if isPlaying {
        isPlaying := false;
      } else {
        isPlaying := true;
        intervals := intervals + [meditationTime];
      }
    }

    /** Live interval `i` fires. */
    method TickInterval(i: nat)
      requires Valid() && i < |intervals|
      modifies this
      ensures Valid() && State() == Tick(old(State()), i)
      ensures old(remainingTime) > 1 ==>
                remainingTime == old(remainingTime) - 1 && isPlaying == old(isPlaying) &&
                intervals == old(intervals)
      ensures old(remainingTime) <= 1 ==>
                remainingTime == old(intervals[i]) && !isPlaying &&
                intervals == RemoveAt(old(intervals), i)
      ensures meditationTime == old(meditationTime)
    {
      StepsKeepWellFormed(State(), i, 1);
      if remainingTime <= 1 {
        isPlaying := false;
        remainingTime := intervals[i];
        intervals := RemoveAt(intervals, i);
      } else {
        remainingTime := remainingTime - 1;
      }
    }

    method ResetMeditation()
      requires Valid()
      modifies this
      ensures Valid() && State() == Reset(old(State()))
      ensures !isPlaying && remainingTime == meditationTime
      ensures meditationTime == old(meditationTime) && intervals == old(intervals)
    {
      StepsKeepWellFormed(State(), 0, 1);
      isPlaying := false;
      remainingTime := meditationTime;
    }

    /** The duration buttons offer 1, 3, 5, 10, 15 and 20 minutes. */
    method SetMeditationDuration(minutes: int)
      requires Valid() && minutes >= 1
      modifies this
      ensures Valid() && State() == SetDuration(old(State()), minutes)
      ensures meditationTime == minutes * 60 && remainingTime == minutes * 60
      ensures isPlaying == old(isPlaying) && intervals == old(intervals)
    {
      StepsKeepWellFormed(State(), 0, minutes);
      var seconds := minutes * 60;
      meditationTime := seconds;
      remainingTime := seconds;
    }
  }
}

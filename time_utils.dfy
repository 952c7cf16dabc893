/** The daily-window membership test of src/utils/utils.rs. */
module TimeUtils {

  /** Milliseconds in one day. */
  const DayMs: int := 86_400_000

  /** Whether `time` (a time of day) lies in the window from `start` to `end`,
      both ends included; a window whose start is after its end wraps past midnight. */
  predicate IsInTimerange(start: int, end: int, time: int)
  {
    if start <= end then
      time >= start && time <= end
    else
      time >= start || time <= end
  }

  /** Both ends of every window are members. */
  lemma EndsAreMembers(start: int, end: int)
    ensures IsInTimerange(start, end, start)
    ensures IsInTimerange(start, end, end)
  {
  }

  /** A window that does not wrap is the closed interval. */
  lemma OrderedWindow(start: int, end: int, time: int)
    requires start <= end
    ensures IsInTimerange(start, end, time) <==> start <= time <= end
  {
  }

  /** A wrapping window is everything from its start onwards and up to its end. */
  lemma WrappingWindow(start: int, end: int, time: int)
    requires start > end
    ensures IsInTimerange(start, end, time) <==> (time >= start || time <= end)
    ensures end < time < start ==> !IsInTimerange(start, end, time)
  {
  }

  /** A window whose ends coincide holds that instant only. */
  lemma DegenerateWindow(start: int, time: int)
    ensures IsInTimerange(start, start, time) <==> time == start
  {
  }

  /** For times of day within one day, membership agrees with the clock-arc
      reading: `time` is reached from `start`, going forward round the clock,
      no later than `end` is. */
  lemma ClockArc(start: int, end: int, time: int)
    requires 0 <= start < DayMs && 0 <= end < DayMs && 0 <= time < DayMs
    ensures IsInTimerange(start, end, time) <==> Forward(start, time) <= Forward(start, end)
  {
  }

  /** How far `to` lies ahead of `from` going forward round the clock. */
  function Forward(from: int, to: int): (r: int)
    requires 0 <= from < DayMs && 0 <= to < DayMs
    ensures 0 <= r < DayMs
    ensures (from + r) % DayMs == to
  {
    if from <= to then to - from else to - from + DayMs
  }
}

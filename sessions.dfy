/** The session classifier and running session accumulator of src/handlers/sessions.rs. */
module Sessions {
  import opened Wrappers
  import opened Entities
  import opened TimeUtils
  import opened SessionTable

  /** The calendar day of an instant, counted in days since the epoch. */
  function DayOf(timestamp: int): int
  {
    timestamp / DayMs
  }

  /** The time of day of an instant, in milliseconds since midnight. */
  function TimeOfDayOf(timestamp: int): (r: int)
    ensures 0 <= r < DayMs
    ensures DayOf(timestamp) * DayMs + r == timestamp
  {
    timestamp % DayMs
  }

  /** The hour of the day of an instant, 0 to 23. */
  function HourOf(timestamp: int): int
  {
    TimeOfDayOf(timestamp) / HourMs
  }

  /** Whether a table entry's daily window holds a time of day. */
  predicate Covers(session: ReferenceSession, time: int)
  {
    IsInTimerange(session.start, session.end, time)
  }

  /** Whether a candle falls inside a session's window, both ends included. */
  predicate IsSameSession(session: Session, candle: Candle)
  {
    candle.timestamp >= session.start && candle.timestamp <= session.end
  }

  /** The index of the first entry of `table` that covers `time`, if any. */
  function FirstMatch(table: seq<ReferenceSession>, time: int): (r: Option<nat>)
    ensures r.Some? ==> r.value < |table| && Covers(table[r.value], time)
    ensures r.Some? ==> forall j :: 0 <= j < r.value ==> !Covers(table[j], time)
    ensures r.None? ==> forall j :: 0 <= j < |table| ==> !Covers(table[j], time)
  {
    if |table| == 0 then None
    else if Covers(table[0], time) then Some(0)
    else
      match FirstMatch(table[1..], time)
      case None => None
      case Some(i) => Some(i + 1)
  }

  /** Every time of day is covered by the table, so a lookup never fails.
      Instants shared by two sessions go to the one listed first. */
  lemma FirstMatchPartition(time: int)
    ensures FirstMatch(Table, time) == Some(0) <==> (time >= Clock(22, 0) || time <= Clock(7, 30))
    ensures FirstMatch(Table, time) == Some(1) <==> Clock(7, 30) < time <= Clock(12, 0)
    ensures FirstMatch(Table, time) == Some(2) <==> Clock(12, 0) < time < Clock(22, 0)
    ensures FirstMatch(Table, time).Some?
  {
    assert Table[1..] == [London, NewYork];
    assert Table[1..][1..] == [NewYork];
    assert Table[1..][1..][1..] == [];
    var last := FirstMatch([NewYork], time);
    assert last == (if Covers(NewYork, time) then Some(0) else None);
    var tail := FirstMatch([London, NewYork], time);
    assert tail == (if Covers(London, time) then Some(0) else if Covers(NewYork, time) then Some(1) else None);
  }

  /** The boundary instants 07:30 and 22:00 belong to the Asian session, 12:00 to London. */
  lemma SharedBoundaries()
    ensures FirstMatch(Table, Clock(7, 30)) == Some(0)
    ensures FirstMatch(Table, Clock(12, 0)) == Some(1)
    ensures FirstMatch(Table, Clock(22, 0)) == Some(0)
  {
    FirstMatchPartition(Clock(7, 30));
    FirstMatchPartition(Clock(12, 0));
    FirstMatchPartition(Clock(22, 0));
  }

  /** The first table entry whose window holds the candle's time of day. */
  method GetRightSession(timestamp: int) returns (r: Result<ReferenceSession>)
    ensures r.Ok? <==> FirstMatch(Table, TimeOfDayOf(timestamp)).Some?
    ensures r.Ok? ==> r.value == Table[FirstMatch(Table, TimeOfDayOf(timestamp)).value]
  {
    var time := TimeOfDayOf(timestamp);
    for i := 0 to |Table|
      invariant forall j :: 0 <= j < i ==> !Covers(Table[j], time)
    {
      if Covers(Table[i], time) {
        return Ok(Table[i]);
      }
    }
    return Err("No session found for timestamp");
  }

  /** Start and end of the session a candle opens, as the source computes them:
      an Asian session is taken to have started the day before when the hour is
      below 7, and to end the next day otherwise. */
  function SessionBoundsAsWritten(timestamp: int, session: ReferenceSession): (int, int)
  {
    var startDay := DayOf(timestamp);
    var endDay := DayOf(timestamp);
    var startDay := if session.name == "Asian Session" && HourOf(timestamp) < 7 then startDay - 1 else startDay;
    var endDay := if session.name == "Asian Session" && !(HourOf(timestamp) < 7) then endDay + 1 else endDay;
    (startDay * DayMs + session.start, endDay * DayMs + session.end)
  }

  /** The dates the source picks: the candle's own date for London and New York;
      for Asian the previous and the same date before 07:00, else the same and the next. */
  lemma SessionBoundsAsWrittenDates(timestamp: int, session: ReferenceSession)
    ensures var (start, end) := SessionBoundsAsWritten(timestamp, session);
      var day := DayOf(timestamp);
      if session.name != "Asian Session" then
        start == day * DayMs + session.start && end == day * DayMs + session.end
      else if HourOf(timestamp) < 7 then
        start == (day - 1) * DayMs + session.start && end == day * DayMs + session.end
      else
        start == day * DayMs + session.start && end == (day + 1) * DayMs + session.end
  {
  }

  /** A candle at 07:15 lies in the Asian session by the table, yet the window
      the source computes for it starts at 22:00 that same day, after the candle. */
  lemma AsWrittenWindowMissesItsCandle()
    ensures FirstMatch(Table, TimeOfDayOf(Clock(7, 15))) == Some(0)
    ensures var (start, _) := SessionBoundsAsWritten(Clock(7, 15), Table[0]);
      Clock(7, 15) < start
  {
    FirstMatchPartition(Clock(7, 15));
  }

  /** Start and end of the session a candle opens, with the Asian day chosen by
      comparing the time of day with the session's own end (07:30) rather than 07:00. */
  function SessionBounds(timestamp: int, session: ReferenceSession): (int, int)
  {
    var before := TimeOfDayOf(timestamp) <= session.end;
    var startDay := DayOf(timestamp);
    var endDay := DayOf(timestamp);
    var startDay := if session.name == "Asian Session" && before then startDay - 1 else startDay;
    var endDay := if session.name == "Asian Session" && !before then endDay + 1 else endDay;
    (startDay * DayMs + session.start, endDay * DayMs + session.end)
  }

  /** The window opened for a candle, for the session the table gives it,
      always holds that candle. */
  lemma SessionBoundsHoldTimestamp(timestamp: int)
    ensures FirstMatch(Table, TimeOfDayOf(timestamp)).Some?
    ensures var (start, end) := SessionBounds(timestamp, Table[FirstMatch(Table, TimeOfDayOf(timestamp)).value]);
      start <= timestamp <= end
  {
    var time := TimeOfDayOf(timestamp);
    FirstMatchPartition(time);
  }

  /** The hour test of the code as written: below 7 exactly when the time of day is before 07:00. */
  lemma HourBelowSeven(timestamp: int)
    ensures HourOf(timestamp) < 7 <==> TimeOfDayOf(timestamp) < Clock(7, 0)
  {
    var time := TimeOfDayOf(timestamp);
    if time < Clock(7, 0) {
      assert time / HourMs <= 6;
    } else {
      assert time / HourMs >= 7;
    }
  }

  /** For every instant, the window the code as written computes for the
      session the table gives it holds that instant exactly when its time of
      day lies outside 07:00 to 07:30, both ends included. */
  lemma AsWrittenWindowHoldsIff(timestamp: int)
    ensures FirstMatch(Table, TimeOfDayOf(timestamp)).Some?
    ensures var (start, end) := SessionBoundsAsWritten(timestamp, Table[FirstMatch(Table, TimeOfDayOf(timestamp)).value]);
      start <= timestamp <= end <==> !(Clock(7, 0) <= TimeOfDayOf(timestamp) <= Clock(7, 30))
  {
    FirstMatchPartition(TimeOfDayOf(timestamp));
    HourBelowSeven(timestamp);
  }

  /** The corrected window and the window as written coincide exactly outside
      the band 07:00 to 07:30, so the correction touches no other instant. */
  lemma BoundsAgreeOutsideBand(timestamp: int)
    ensures FirstMatch(Table, TimeOfDayOf(timestamp)).Some?
    ensures var reference := Table[FirstMatch(Table, TimeOfDayOf(timestamp)).value];
      (SessionBounds(timestamp, reference) == SessionBoundsAsWritten(timestamp, reference)) <==>
        !(Clock(7, 0) <= TimeOfDayOf(timestamp) <= Clock(7, 30))
  {
    FirstMatchPartition(TimeOfDayOf(timestamp));
    HourBelowSeven(timestamp);
  }

  /** A new session for a candle: the looked-up label and window, the candle's prices and volume. */
  function OpenSession(candle: Candle, symbol: string): Session
  {
    FirstMatchPartition(TimeOfDayOf(candle.timestamp));
    var reference := Table[FirstMatch(Table, TimeOfDayOf(candle.timestamp)).value];
    var (start, end) := SessionBounds(candle.timestamp, reference);
    Session(symbol, reference.name, start, end, candle.high, candle.low, candle.open, candle.close, candle.volume)
  }

  /** A running session after one more candle of it. */
  function ExtendSession(session: Session, candle: Candle): Session
  {
    session.(
      high := if candle.high > session.high then candle.high else session.high,
      low := if candle.low < session.low then candle.low else session.low,
      close := candle.close,
      volume := session.volume + candle.volume)
  }

  /** A session is opened when there is none or the candle lies outside the current window. */
  predicate NeedsNewSession(current: Option<Session>, candle: Candle)
  {
    current.None? || !IsSameSession(current.value, candle)
  }

  /** The session after a candle. */
  function NextSession(current: Option<Session>, candle: Candle, symbol: string): Session
  {
    if NeedsNewSession(current, candle) then OpenSession(candle, symbol) else ExtendSession(current.value, candle)
  }

  /** An opened session starts from the candle: its open, high, low, close and
      volume, the label of the first covering table entry, and a window holding
      the candle. That window is the one the code as written computes exactly
      when the candle's time of day lies outside 07:00 to 07:30. */
  lemma OpenSessionFromCandle(candle: Candle, symbol: string)
    ensures FirstMatch(Table, TimeOfDayOf(candle.timestamp)).Some?
    ensures var s := OpenSession(candle, symbol);
      var reference := Table[FirstMatch(Table, TimeOfDayOf(candle.timestamp)).value];
      && s.open == candle.open && s.high == candle.high && s.low == candle.low
      && s.close == candle.close && s.volume == candle.volume && s.symbol == symbol
      && s.name == reference.name
      && (s.start, s.end) == SessionBounds(candle.timestamp, reference)
      && (((s.start, s.end) == SessionBoundsAsWritten(candle.timestamp, reference)) <==>
            !(Clock(7, 0) <= TimeOfDayOf(candle.timestamp) <= Clock(7, 30)))
      && IsSameSession(s, candle)
  {
    SessionBoundsHoldTimestamp(candle.timestamp);
    BoundsAgreeOutsideBand(candle.timestamp);
  }

  /** A continuing session widens its high and low, takes the candle's close,
      adds its volume, and keeps its label, window and open. */
  lemma ExtendSessionAccumulates(session: Session, candle: Candle)
    ensures var s := ExtendSession(session, candle);
      && s.high == Max(session.high, candle.high) && s.low == Min(session.low, candle.low)
      && s.close == candle.close && s.volume == session.volume + candle.volume
      && s.open == session.open && s.name == session.name && s.symbol == session.symbol
      && s.start == session.start && s.end == session.end
      && (session.low <= session.high && candle.low <= candle.high ==> s.low <= s.high)
  {
  }

  /** Whatever the current session, the session after a candle holds that candle. */
  lemma NextSessionHoldsCandle(current: Option<Session>, candle: Candle, symbol: string)
    ensures IsSameSession(NextSession(current, candle, symbol), candle)
  {
    if NeedsNewSession(current, candle) {
      OpenSessionFromCandle(candle, symbol);
    }
  }

  /** The process-wide current session (the source's SESSION mutex). */
  class SessionTracker {
    var session: Option<Session>
    /** The sink calls made so far. */
    ghost var events: seq<Event>

    constructor ()
      ensures session == None && events == []
    {
      session := None;
      events := [];
    }

    /** Whether the candle needs a new session; an existing session it falls
        outside of is sent to persistence first, and a failed persist changes nothing. */
    method ShouldCreateNewSession(candle: Candle) returns (create: bool)
      modifies this`events
      ensures create == NeedsNewSession(session, candle)
      ensures events == old(events) +
        (if session.Some? && !IsSameSession(session.value, candle) then [PersistSession(session.value)] else [])
    {
      var current := session;
      if current.None? {
        return true;
      }
      if !IsSameSession(current.value, candle) {
        events := events + [PersistSession(current.value)];
        return true;
      }
      return false;
    }

    /** Folds a candle into the current session, opening a new one when needed. */
    method ProcessSession(candle: Candle, symbol: string) returns (r: Result<()>)
      modifies this
      ensures r.Ok?
      ensures session == Some(NextSession(old(session), candle, symbol))
      ensures events == old(events) +
        (if old(session).Some? && !IsSameSession(old(session).value, candle) then [PersistSession(old(session).value)] else [])
    {
      var create := ShouldCreateNewSession(candle);
      if create {
        var reference := GetRightSession(candle.timestamp);
        FirstMatchPartition(TimeOfDayOf(candle.timestamp));
        if reference.Err? {
          assert false;
        }
        var (start, end) := SessionBounds(candle.timestamp, reference.value);
        session := Some(Session(symbol, reference.value.name, start, end,
          candle.high, candle.low, candle.open, candle.close, candle.volume));
      } else {
        var current := session.value;
        if candle.high > current.high {
          current := current.(high := candle.high);
        }
        if candle.low < current.low {
          current := current.(low := candle.low);
        }
        current := current.(close := candle.close);
        current := current.(volume := current.volume + candle.volume);
        session := Some(current);
      }
      return Ok(());
    }
  }
}

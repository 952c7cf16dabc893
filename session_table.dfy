/** The fixed table of trading sessions of src/entities/session.rs (all times UTC). */
module SessionTable {
  import opened Entities

  const MinuteMs: int := 60_000
  const HourMs: int := 3_600_000

  /** A time of day given as hours and minutes, in milliseconds since midnight. */
  function Clock(hours: int, minutes: int): int
  {
    hours * HourMs + minutes * MinuteMs
  }

  const Asian: ReferenceSession := ReferenceSession("Asian Session", Clock(22, 0), Clock(7, 30))
  const London: ReferenceSession := ReferenceSession("London Session", Clock(7, 30), Clock(12, 0))
  const NewYork: ReferenceSession := ReferenceSession("New York Session", Clock(12, 0), Clock(22, 0))

  /** The table, in the order in which lookups scan it. */
  const Table: seq<ReferenceSession> := [Asian, London, NewYork]

  /** Three entries, Asian first, then London, then New York. */
  lemma TableOrder()
    ensures |Table| == 3
    ensures Table[0].name == "Asian Session"
    ensures Table[1].name == "London Session"
    ensures Table[2].name == "New York Session"
  {
  }

  /** The Asian window wraps past midnight: it starts at 22:00, after its 07:30 end. */
  lemma AsianWrapsMidnight()
    ensures Table[0].start == Clock(22, 0) && Table[0].end == Clock(7, 30)
    ensures Table[0].start > Table[0].end
  {
  }

  /** Each session ends where the next one starts, and New York ends where Asian starts. */
  lemma SessionsAbut()
    ensures Table[0].end == Table[1].start == Clock(7, 30)
    ensures Table[1].end == Table[2].start == Clock(12, 0)
    ensures Table[2].end == Table[0].start == Clock(22, 0)
    ensures Table[1].start <= Table[1].end && Table[2].start <= Table[2].end
  {
  }
}

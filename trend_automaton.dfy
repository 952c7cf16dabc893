/** One call of `get_trends` in src/handlers/trends.rs, as a function of the
    key's trend, subtrend and the incoming closed candle. */
module TrendAutomaton {
  import opened Wrappers
  import opened Entities

  /** The key's trend and subtrend after a candle, the sink calls made, and
      the replay instant returned on a confirmed reversal. */
  datatype StepResult = StepResult(
    trend: Option<Trend>,
    subtrend: Option<Subtrend>,
    events: seq<Event>,
    reprocess: Option<int>)

  /** The modified trend and subtrend before the trend is written back. */
  datatype Draft = Draft(
    trend: Trend,
    subtrend: Option<Subtrend>,
    events: seq<Event>,
    reprocess: Option<int>)

  /** A trend opened by a non-doji candle with no live trend. */
  function NewTrend(candle: Candle): Trend
  {
    Trend(candle.symbol, candle.timerange, candle.timestamp, candle.timestamp, candle.direction,
      candle.high, candle.low, candle.timestamp, candle.timestamp, candle.high, candle.low)
  }

  /** A subtrend opened by a candle whose direction differs from the trend's. */
  function SeedSubtrend(candle: Candle): Subtrend
  {
    Subtrend(candle.timestamp, candle.direction, candle.high, candle.low, candle.low, candle.high,
      candle, candle.timestamp, candle.timestamp)
  }

  /** The sink calls of a break of structure at `price`: the break, then the
      retired subtrend's relative high and low, each broadcast then persisted in the source's order. */
  function BreakEvents(candle: Candle, subtrend: Subtrend, price: real, direction: string): seq<Event>
  {
    var breakOfStructure := OneDStructure(candle.symbol, "Break Of Structure", candle.timerange, candle.timestamp, price, direction);
    var relativeHigh := OneDStructure(candle.symbol, "Relative High", candle.timerange,
      subtrend.lastRelativeHighTime, subtrend.high, "Relative High");
    var relativeLow := OneDStructure(candle.symbol, "Relative Low", candle.timerange,
      subtrend.lastRelativeLowTime, subtrend.low, "Relative Low");
    [Broadcast1D(breakOfStructure), Persist1D(breakOfStructure),
     Broadcast1D(relativeHigh), Broadcast1D(relativeLow),
     Persist1D(relativeHigh), Persist1D(relativeLow)]
  }

  /** The order block of a confirmed reversal: from the subtrend's opening
      candle's high down to the subtrend's relative low when the subtrend is
      bullish, and down to that candle's own low otherwise. */
  function OrderBlock(candle: Candle, subtrend: Subtrend): TwoDStructure
  {
    if subtrend.direction == Bullish then
      TwoDStructure(candle.symbol, "Order Block", candle.timerange, subtrend.lastCandle.timestamp,
        subtrend.lastCandle.high, subtrend.lastRelativeLow, "Bullish")
    else
      TwoDStructure(candle.symbol, "Order Block", candle.timerange, subtrend.lastCandle.timestamp,
        subtrend.lastCandle.high, subtrend.lastCandle.low, "Bearish")
  }

  /** The sink calls of a change of character at `price`: the order block, then the change itself. */
  function ReversalEvents(candle: Candle, subtrend: Subtrend, price: real, direction: string): seq<Event>
  {
    var orderBlock := OrderBlock(candle, subtrend);
    var changeOfCharacter := OneDStructure(candle.symbol, "Change Of Character", candle.timerange, candle.timestamp, price, direction);
    [Broadcast2D(orderBlock), Persist2D(orderBlock), Broadcast1D(changeOfCharacter), Persist1D(changeOfCharacter)]
  }

  /** A candle of the trend's own direction. It moves the trend's end. With a
      bullish subtrend a close below the subtrend's low is a bearish break of
      structure; with any other subtrend (a doji one included) a close above
      the subtrend's high is a bullish one. Without a break the subtrend's
      extreme on its own side may move; without a subtrend the trend's extremes may. */
  function Continuation(trend: Trend, subtrend: Option<Subtrend>, candle: Candle): Draft
  {
    var t := trend.(endTime := candle.timestamp);
    match subtrend
    case None =>
      var t := if trend.low > candle.low then t.(low := candle.low, lowTime := candle.timestamp) else t;
      var t := if trend.high < candle.high then t.(high := candle.high, highTime := candle.timestamp) else t;
      Draft(t, None, [], None)
    case Some(s) =>
      if s.direction == Bullish then
        if candle.close < s.low then
          Draft(t.(high := s.high), None, BreakEvents(candle, s, s.low, "Bearish"), None)
        else if candle.high > s.high then
          Draft(t, Some(s.(high := candle.high, lastRelativeHigh := candle.high, lastRelativeHighTime := candle.timestamp)), [], None)
        else
          Draft(t, Some(s), [], None)
      else
        if candle.close > s.high then
          Draft(t.(low := s.low), None, BreakEvents(candle, s, s.high, "Bullish"), None)
        else if candle.low < s.low then
          Draft(t, Some(s.(low := candle.low, lastRelativeLow := candle.low, lastRelativeLowTime := candle.timestamp)), [], None)
        else
          Draft(t, Some(s), [], None)
  }

  /** A candle whose direction differs from the trend's (a doji included).
      Without a subtrend it opens one. With a bullish subtrend a close above
      the trend's high, with a bearish one a close below the trend's low,
      confirms a reversal that replays from the subtrend's start. A doji
      subtrend changes nothing, and the subtrend itself is never extended here. */
  function CounterMove(trend: Trend, subtrend: Option<Subtrend>, candle: Candle): Draft
  {
    match subtrend
    case None => Draft(trend, Some(SeedSubtrend(candle)), [], None)
    case Some(s) =>
      if s.direction == Bullish then
        var t := trend.(endTime := candle.timestamp);
        if candle.close > trend.high then
          Draft(t, subtrend, ReversalEvents(candle, s, trend.relativeHigh, "Bullish"), Some(s.startTime))
        else
          Draft(t, subtrend, [], None)
      else if s.direction == Bearish then
        var t := trend.(endTime := candle.timestamp);
        if candle.close < trend.low then
          Draft(t, subtrend, ReversalEvents(candle, s, trend.relativeLow, "Bearish"), Some(s.startTime))
        else
          Draft(t, subtrend, [], None)
      else
        Draft(trend, subtrend, [], None)
  }

  /** The per-key invariant: a subtrend lives only under a trend and differs
      from it in direction, and no trend is a doji trend. */
  predicate Coherent(trend: Option<Trend>, subtrend: Option<Subtrend>)
  {
    && (subtrend.Some? ==> trend.Some? && subtrend.value.direction != trend.value.direction)
    && (trend.Some? ==> trend.value.direction != Doji)
  }

  /** One call of `get_trends` for the candle's key. With no trend a doji is
      ignored and any other candle opens a trend that is stored but not
      persisted. With a trend, the updated trend is persisted; on a reversal it
      is also broadcast, and then trend and subtrend are both removed. */
  function Step(trend: Option<Trend>, subtrend: Option<Subtrend>, candle: Candle): (r: StepResult)
    // every step keeps the per-key invariant
    ensures Coherent(trend, subtrend) ==> Coherent(r.trend, r.subtrend)
    // a replay instant is only ever the start of the subtrend live before the step,
    // and comes with the removal of both trend and subtrend
    ensures r.reprocess.Some? ==>
      subtrend.Some? && r.reprocess.value == subtrend.value.startTime && r.trend.None? && r.subtrend.None?
    // a live subtrend was live before with the same start, or was opened by this candle
    ensures r.subtrend.Some? ==>
      (subtrend.Some? && r.subtrend.value.startTime == subtrend.value.startTime)
      || r.subtrend.value.startTime == candle.timestamp
    // a live trend keeps its direction, start, key and relative extremes
    ensures trend.Some? && r.trend.Some? ==>
      var n := r.trend.value;
      && n.direction == trend.value.direction && n.startTime == trend.value.startTime
      && n.symbol == trend.value.symbol && n.timerange == trend.value.timerange
      && n.relativeHigh == trend.value.relativeHigh && n.relativeLow == trend.value.relativeLow
    // a live trend is persisted after every candle, and broadcast as well on a reversal
    ensures trend.Some? ==>
      var last := if r.reprocess.Some? then 2 else 1;
      |r.events| >= last && r.events[|r.events| - last].PersistTrend?
      && (r.reprocess.Some? ==> r.events[|r.events| - 1].BroadcastTrend?)
    ensures trend.None? ==> r.events == [] && r.reprocess.None?
  {
    match trend
    case None =>
      if candle.direction == Doji then StepResult(None, subtrend, [], None)
      else StepResult(Some(NewTrend(candle)), subtrend, [], None)
    case Some(t) =>
      var d := if candle.direction == t.direction then Continuation(t, subtrend, candle) else CounterMove(t, subtrend, candle);
      var events := d.events + [PersistTrend(d.trend)] + (if d.reprocess.Some? then [BroadcastTrend(d.trend)] else []);
      if d.reprocess.Some? then StepResult(None, None, events, d.reprocess)
      else StepResult(Some(d.trend), d.subtrend, events, None)
  }

  /** With no trend, a doji changes nothing and returns nothing. */
  lemma NoTrendDoji(subtrend: Option<Subtrend>, candle: Candle)
    requires candle.direction == Doji
    ensures Step(None, subtrend, candle) == StepResult(None, subtrend, [], None)
  {
  }

  /** With no trend, any other candle opens a trend starting and ending at the
      candle, of the candle's direction, with high, low and both relative
      extremes from the candle; nothing is persisted and nothing is returned. */
  lemma NoTrendOpens(subtrend: Option<Subtrend>, candle: Candle)
    requires candle.direction != Doji
    ensures var r := Step(None, subtrend, candle);
      && r.events == [] && r.reprocess == None && r.subtrend == subtrend && r.trend.Some?
      && var t := r.trend.value;
      && t.startTime == candle.timestamp && t.endTime == candle.timestamp
      && t.direction == candle.direction && t.symbol == candle.symbol && t.timerange == candle.timerange
      && t.high == candle.high && t.low == candle.low && t.relativeHigh == candle.high && t.relativeLow == candle.low
      && t.highTime == candle.timestamp && t.lowTime == candle.timestamp
  {
  }

  /** A same-direction candle with no subtrend moves the trend's end to the
      candle, raises the high (and its time) only on a strictly higher high,
      lowers the low (and its time) only on a strictly lower low, and spawns no subtrend. */
  lemma ContinuationWithoutSubtrend(t: Trend, candle: Candle)
    requires candle.direction == t.direction
    ensures var r := Step(Some(t), None, candle);
      && r.reprocess == None && r.subtrend == None && r.trend.Some?
      && var n := r.trend.value;
      && n.endTime == candle.timestamp
      && n.high == Max(t.high, candle.high) && n.low == Min(t.low, candle.low)
      && n.highTime == (if candle.high > t.high then candle.timestamp else t.highTime)
      && n.lowTime == (if candle.low < t.low then candle.timestamp else t.lowTime)
      && r.events == [PersistTrend(n)]
  {
  }

  /** A counter-direction candle with no subtrend opens a subtrend seeded
      entirely from that candle; the trend, its end included, is unchanged. */
  lemma CounterMoveOpensSubtrend(t: Trend, candle: Candle)
    requires candle.direction != t.direction
    ensures var r := Step(Some(t), None, candle);
      && r.reprocess == None && r.trend == Some(t) && r.events == [PersistTrend(t)]
      && r.subtrend.Some?
      && var s := r.subtrend.value;
      && s.startTime == candle.timestamp && s.direction == candle.direction
      && s.high == candle.high && s.low == candle.low
      && s.lastRelativeHigh == candle.high && s.lastRelativeLow == candle.low
      && s.lastRelativeHighTime == candle.timestamp && s.lastRelativeLowTime == candle.timestamp
      && s.lastCandle == candle
  {
  }

  /** Under a bullish subtrend, a same-direction candle closing below the
      subtrend's low is a bearish break of structure at that low, followed by
      the subtrend's relative high and low at their recorded times; the trend's
      high becomes the subtrend's high and the subtrend is removed. */
  lemma BearishBreakOfStructure(t: Trend, s: Subtrend, candle: Candle)
    requires candle.direction == t.direction && s.direction == Bullish && candle.close < s.low
    ensures var r := Step(Some(t), Some(s), candle);
      var n := t.(endTime := candle.timestamp, high := s.high);
      && r.trend == Some(n) && r.subtrend == None && r.reprocess == None
      && r.events == [
        Broadcast1D(OneDStructure(candle.symbol, "Break Of Structure", candle.timerange, candle.timestamp, s.low, "Bearish")),
        Persist1D(OneDStructure(candle.symbol, "Break Of Structure", candle.timerange, candle.timestamp, s.low, "Bearish")),
        Broadcast1D(OneDStructure(candle.symbol, "Relative High", candle.timerange, s.lastRelativeHighTime, s.high, "Relative High")),
        Broadcast1D(OneDStructure(candle.symbol, "Relative Low", candle.timerange, s.lastRelativeLowTime, s.low, "Relative Low")),
        Persist1D(OneDStructure(candle.symbol, "Relative High", candle.timerange, s.lastRelativeHighTime, s.high, "Relative High")),
        Persist1D(OneDStructure(candle.symbol, "Relative Low", candle.timerange, s.lastRelativeLowTime, s.low, "Relative Low")),
        PersistTrend(n)]
  {
  }

  /** Under any subtrend that is not bullish (a doji one included), a
      same-direction candle closing above the subtrend's high is a bullish
      break of structure at that high; the trend's low becomes the subtrend's
      low and the subtrend is removed. */
  lemma BullishBreakOfStructure(t: Trend, s: Subtrend, candle: Candle)
    requires candle.direction == t.direction && s.direction != Bullish && candle.close > s.high
    ensures var r := Step(Some(t), Some(s), candle);
      var n := t.(endTime := candle.timestamp, low := s.low);
      && r.trend == Some(n) && r.subtrend == None && r.reprocess == None
      && r.events == BreakEvents(candle, s, s.high, "Bullish") + [PersistTrend(n)]
      && r.events[0] == Broadcast1D(OneDStructure(candle.symbol, "Break Of Structure", candle.timerange, candle.timestamp, s.high, "Bullish"))
  {
  }

  /** A same-direction candle that breaks nothing leaves the subtrend as it was
      except for its extreme on its own side: a bullish subtrend's high (with its
      relative high and time) moves only on a strictly higher candle high; any
      other subtrend's low (with its relative low and time) moves only on a strictly lower candle low. */
  lemma SubtrendWithoutBreak(t: Trend, s: Subtrend, candle: Candle)
    requires candle.direction == t.direction
    requires s.direction == Bullish ==> candle.close >= s.low
    requires s.direction != Bullish ==> candle.close <= s.high
    ensures var r := Step(Some(t), Some(s), candle);
      && r.reprocess == None && r.trend == Some(t.(endTime := candle.timestamp))
      && r.events == [PersistTrend(t.(endTime := candle.timestamp))]
      && r.subtrend == Some(
        if s.direction == Bullish then
          (if candle.high > s.high then s.(high := candle.high, lastRelativeHigh := candle.high, lastRelativeHighTime := candle.timestamp) else s)
        else
          (if candle.low < s.low then s.(low := candle.low, lastRelativeLow := candle.low, lastRelativeLowTime := candle.timestamp) else s))
  {
  }

  /** A counter-direction candle under a bullish or bearish subtrend moves the
      trend's end to the candle. It confirms a reversal exactly when it closes
      above the trend's high (bullish subtrend) or below its low (bearish): then
      it returns the subtrend's start, sends the order block and the change of
      character at the trend's relative high or low, persists and broadcasts
      the updated trend and removes trend and subtrend. Otherwise the subtrend is untouched. */
  lemma CounterMoveUnderSubtrend(t: Trend, s: Subtrend, candle: Candle)
    requires candle.direction != t.direction && s.direction != Doji
    ensures var r := Step(Some(t), Some(s), candle);
      var n := t.(endTime := candle.timestamp);
      var reversal := if s.direction == Bullish then candle.close > t.high else candle.close < t.low;
      && (r.reprocess.Some? <==> reversal)
      && (reversal ==>
           && r.reprocess == Some(s.startTime) && r.trend == None && r.subtrend == None
           && r.events == ReversalEvents(candle, s,
                if s.direction == Bullish then t.relativeHigh else t.relativeLow,
                if s.direction == Bullish then "Bullish" else "Bearish")
              + [PersistTrend(n), BroadcastTrend(n)])
      && (!reversal ==> r.trend == Some(n) && r.subtrend == Some(s) && r.events == [PersistTrend(n)])
  {
  }

  /** A counter-direction candle under a doji subtrend matches neither the
      bullish nor the bearish branch: the trend's end does not move, no
      reversal can be confirmed, and only the unchanged trend is persisted. */
  lemma DojiSubtrendCounterNoop(t: Trend, s: Subtrend, candle: Candle)
    requires candle.direction != t.direction && s.direction == Doji
    ensures Step(Some(t), Some(s), candle) == StepResult(Some(t), Some(s), [PersistTrend(t)], None)
  {
  }

  /** The order block spans the opening candle's high down to the subtrend's
      relative low for a bullish subtrend, and that candle's own range otherwise. */
  lemma OrderBlockSpan(candle: Candle, s: Subtrend)
    ensures var ob := OrderBlock(candle, s);
      && ob.structure == "Order Block" && ob.timestamp == s.lastCandle.timestamp && ob.high == s.lastCandle.high
      && ob.low == (if s.direction == Bullish then s.lastRelativeLow else s.lastCandle.low)
  {
  }
}

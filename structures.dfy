/** The three-candle Fair-Value-Gap detector of src/handlers/structures.rs. */
module FairValueGaps {
  import opened Wrappers
  import opened Entities

  /** What the direction scan of a window finds: two non-doji candles that
      disagree, or agreement on the direction of the non-doji ones (None when all are doji). */
  datatype DirectionScan = Disagreement | Agreement(direction: Option<Direction>)

  /** The scan as the source runs it: the first non-doji candle sets the
      direction, and a later non-doji candle of another direction stops the scan. */
  function ScanFrom(window: seq<Candle>, direction: Option<Direction>): DirectionScan
    decreases |window|
  {
    if |window| == 0 then Agreement(direction)
    else if direction.Some? then
      if direction.value != window[0].direction && window[0].direction != Doji then Disagreement
      else ScanFrom(window[1..], direction)
    else
      ScanFrom(window[1..], if window[0].direction != Doji then Some(window[0].direction) else None)
  }

  function CommonDirection(window: seq<Candle>): DirectionScan
  {
    ScanFrom(window, None)
  }

  /** Once a direction is set, the scan disagrees exactly when some later
      non-doji candle has another direction, and otherwise keeps that direction. */
  lemma {:induction false} ScanFromSet(window: seq<Candle>, d: Direction)
    requires d != Doji
    ensures ScanFrom(window, Some(d)) == Disagreement
      <==> exists i :: 0 <= i < |window| && window[i].direction != Doji && window[i].direction != d
    ensures ScanFrom(window, Some(d)) != Disagreement ==> ScanFrom(window, Some(d)) == Agreement(Some(d))
    decreases |window|
  {
    if |window| > 0 {
      ScanFromSet(window[1..], d);
      if window[0].direction == Doji || window[0].direction == d {
        assert forall i :: 1 <= i < |window| ==> window[i] == window[1..][i - 1];
      }
    }
  }

  /** The scan of a whole window: it disagrees exactly when two non-doji
      candles differ, finds no direction exactly when every candle is a doji,
      and otherwise finds the direction that every non-doji candle has. */
  lemma {:induction false} CommonDirectionMeaning(window: seq<Candle>)
    ensures CommonDirection(window) == Disagreement <==>
      exists i, j :: 0 <= i < |window| && 0 <= j < |window| &&
        window[i].direction != Doji && window[j].direction != Doji && window[i].direction != window[j].direction
    ensures CommonDirection(window) == Agreement(None) <==>
      forall i :: 0 <= i < |window| ==> window[i].direction == Doji
    ensures forall d :: CommonDirection(window) == Agreement(Some(d)) ==>
      d != Doji && (exists i :: 0 <= i < |window| && window[i].direction == d) &&
      forall i :: 0 <= i < |window| && window[i].direction != Doji ==> window[i].direction == d
    decreases |window|
  {
    if |window| > 0 {
      assert forall i :: 1 <= i < |window| ==> window[i] == window[1..][i - 1];
      if window[0].direction == Doji {
        CommonDirectionMeaning(window[1..]);
        if CommonDirection(window) == Disagreement {
          var i, j :| 0 <= i < |window[1..]| && 0 <= j < |window[1..]| &&
            window[1..][i].direction != Doji && window[1..][j].direction != Doji && window[1..][i].direction != window[1..][j].direction;
          assert window[i + 1] == window[1..][i] && window[j + 1] == window[1..][j];
        }
      } else {
        ScanFromSet(window[1..], window[0].direction);
      }
    }
  }

  /** A gap's bounds. */
  datatype Gap = Gap(high: real, low: real)

  /** The gap between the first and third candles of a window, for a direction:
      bullish when the first high is below the third low, bearish when the first low is above the third high. */
  function FindGap(window: seq<Candle>, direction: Direction): Option<Gap>
    requires |window| >= 3
  {
    if direction == Bullish then
      if window[0].high < window[2].low then Some(Gap(window[2].low, window[0].high)) else None
    else if direction == Bearish then
      if window[0].low > window[2].high then Some(Gap(window[0].low, window[2].high)) else None
    else None
  }

  /** The structure a full window yields, if any. */
  function DetectGap(window: seq<Candle>, symbol: string, name: string, timestamp: int): Option<TwoDStructure>
  {
    if |window| < 3 then None
    else
      match CommonDirection(window)
      case Disagreement => None
      case Agreement(None) => None
      case Agreement(Some(d)) =>
        match FindGap(window, d)
        case None => None
        case Some(g) => Some(TwoDStructure(symbol, "Fair Value Gap", name, timestamp, g.high, g.low, DirectionName(d)))
  }

  /** A bullish gap exists iff the first high is below the third low, spanning
      from that high up to that low; a bearish one iff the first low is above the
      third high, spanning from that high up to that low. Either way low < high,
      and the structure carries the given timestamp and the common direction. */
  lemma GapConditions(window: seq<Candle>, symbol: string, name: string, timestamp: int)
    requires |window| == 3
    ensures CommonDirection(window) == Agreement(Some(Bullish)) ==>
      (DetectGap(window, symbol, name, timestamp).Some? <==> window[0].high < window[2].low)
    ensures CommonDirection(window) == Agreement(Some(Bearish)) ==>
      (DetectGap(window, symbol, name, timestamp).Some? <==> window[0].low > window[2].high)
    ensures CommonDirection(window).Disagreement? || CommonDirection(window) == Agreement(None) ==>
      DetectGap(window, symbol, name, timestamp).None?
    ensures match DetectGap(window, symbol, name, timestamp)
      case None => true
      case Some(g) =>
        && g.low < g.high
        && g.structure == "Fair Value Gap" && g.timestamp == timestamp && g.symbol == symbol && g.timerange == name
        && CommonDirection(window).Agreement?
        && (g.direction == "bullish" ==> g.high == window[2].low && g.low == window[0].high)
        && (g.direction == "bearish" ==> g.high == window[0].low && g.low == window[2].high)
        && (g.direction == "bullish" || g.direction == "bearish")
        && CommonDirection(window).direction == Some(if g.direction == "bullish" then Bullish else Bearish)
  {
    CommonDirectionMeaning(window);
  }

  /** The window after a candle arrives for a key that already has one: a full
      window drops its oldest candle first; one already longer than 3 is refused. */
  function NextWindow(window: seq<Candle>, candle: Candle): Result<seq<Candle>>
  {
    if |window| == 3 then Ok(window[1..] + [candle])
    else if |window| > 3 then Err("Too many candles in the list")
    else Ok(window + [candle])
  }

  /** A window of at most 3 candles becomes the at most 3 most recent candles, in arrival order. */
  lemma WindowKeepsLatest(window: seq<Candle>, candle: Candle)
    requires |window| <= 3
    ensures NextWindow(window, candle).Ok?
    ensures var all := window + [candle];
      var w := NextWindow(window, candle).value;
      |w| == (if |all| > 3 then 3 else |all|) && w == all[|all| - |w|..] && w[|w| - 1] == candle
  {
  }

  /** The structures a detection sends: persisted first, then broadcast. */
  function GapEvents(gap: Option<TwoDStructure>): seq<Event>
  {
    if gap.Some? then [Persist2D(gap.value), Broadcast2D(gap.value)] else []
  }

  /** The per-key windows (the source's LAST_THREE_CANDLES map). */
  class FairValueGapDetector {
    var windows: map<string, seq<Candle>>
    /** The sink calls made so far. */
    ghost var events: seq<Event>

    constructor ()
      ensures windows == map[] && events == []
    {
      windows := map[];
      events := [];
    }

    /** Pushes a closed candle into its key's window and reports a gap when the window is full. */
    method ProcessFairValueGap(candle: Candle, symbol: string, timerange: Timerange) returns (r: Result<()>)
      modifies this
      ensures var key := KeyOf(symbol, timerange.name);
        if key !in old(windows) then
          r.Ok? && windows == old(windows)[key := [candle]] && events == old(events)
        else
          match NextWindow(old(windows)[key], candle)
          case Err(m) => r == Err(m) && windows == old(windows) && events == old(events)
          case Ok(w) =>
            && r.Ok? && windows == old(windows)[key := w]
            && events == old(events) + GapEvents(DetectGap(w, symbol, timerange.name, candle.timestamp))
      ensures (forall k :: k in old(windows) ==> |old(windows)[k]| <= 3) ==>
        r.Ok? && forall k :: k in windows ==> |windows[k]| <= 3
    {
      var key := KeyOf(symbol, timerange.name);
      if key in windows {
        var lastCandles := windows[key];
        if |lastCandles| == 3 {
          lastCandles := lastCandles[1..];
        } else if |lastCandles| > 3 {
          return Err("Too many candles in the list");
        }
        lastCandles := lastCandles + [candle];
        windows := windows[key := lastCandles];
        if |lastCandles| < 3 {
          return Ok(());
        }
        var direction: Option<Direction> := None;
        var i := 0;
        while i < |lastCandles|
          invariant 0 <= i <= |lastCandles|
          invariant ScanFrom(lastCandles[i..], direction) == CommonDirection(lastCandles)
          invariant events == old(events)
        {
          assert lastCandles[i..][1..] == lastCandles[i + 1..];
          if direction.Some? {
            if direction.value != lastCandles[i].direction && lastCandles[i].direction != Doji {
              return Ok(());
            }
          } else {
            if lastCandles[i].direction != Doji {
              direction := Some(lastCandles[i].direction);
            }
          }
          i := i + 1;
        }
        var high: Option<real> := None;
        var low: Option<real> := None;
        if direction.Some? {
          if direction.value == Bullish {
            if lastCandles[0].high < lastCandles[2].low {
              high := Some(lastCandles[2].low);
              low := Some(lastCandles[0].high);
            }
          } else if direction.value == Bearish {
            if lastCandles[0].low > lastCandles[2].high {
              high := Some(lastCandles[0].low);
              low := Some(lastCandles[2].high);
            }
          }
        }
        if high.Some? && low.Some? {
          var fairValueGap := TwoDStructure(symbol, "Fair Value Gap", timerange.name, candle.timestamp,
            high.value, low.value, DirectionName(direction.value));
          events := events + [Persist2D(fairValueGap)];
          events := events + [Broadcast2D(fairValueGap)];
        }
        return Ok(());
      } else {
        windows := windows[key := [candle]];
      }
      return Ok(());
    }
  }
}

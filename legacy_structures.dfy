/** The older Fair-Value-Gap detector of src/handlers/two_d_structures.rs. The
    module tree of src/entities does not declare the record it uses, so the
    crate never builds this file; it is modelled as written. */
module LegacyFairValueGaps {
  import opened Wrappers
  import opened Entities
  import opened FairValueGaps

  /** The window after a candle arrives for a key that already has one: a full
      window drops its oldest candle first; any other window just grows. */
  function LegacyNextWindow(window: seq<Candle>, candle: Candle): seq<Candle>
  {
    if |window| == 3 then window[1..] + [candle] else window + [candle]
  }

  /** Reading the third candle of a shorter window aborts the task (a Rust panic). */
  const IndexOutOfBounds: string := "index out of bounds"

  /** The evaluation as written: it runs on any window, so with a common direction
      and fewer than 3 candles it reads past the end; bounds are stored the wrong way round. */
  function LegacyEvaluate(window: seq<Candle>, name: string, timestamp: int): Result<Option<LegacyTwoDStructure>>
  {
    match CommonDirection(window)
    case Disagreement => Ok(None)
    case Agreement(None) => Ok(None)
    case Agreement(Some(d)) =>
      if d == Bullish then
        if |window| < 3 then Err(IndexOutOfBounds)
        else if window[0].high < window[2].low then
          Ok(Some(LegacyTwoDStructure("Fair Value Gap", name, timestamp, window[0].high, window[2].low, DirectionName(d))))
        else Ok(None)
      else if d == Bearish then
        if |window| < 3 then Err(IndexOutOfBounds)
        else if window[0].low > window[2].high then
          Ok(Some(LegacyTwoDStructure("Fair Value Gap", name, timestamp, window[2].high, window[0].low, DirectionName(d))))
        else Ok(None)
      else Ok(None)
  }

  /** The second candle of a key makes a two-candle window; when both candles
      share a non-doji direction the evaluation reads a third candle that is not there. */
  lemma SecondCandleReadsPastEnd(first: Candle, second: Candle, name: string)
    requires first.direction == second.direction && first.direction != Doji
    ensures LegacyNextWindow([first], second) == [first, second]
    ensures LegacyEvaluate([first, second], name, second.timestamp) == Err(IndexOutOfBounds)
  {
    assert [first, second][1..] == [second];
    assert [second][1..] == [];
    var d := first.direction;
    assert ScanFrom([], Some(d)) == Agreement(Some(d));
    assert ScanFrom([second], Some(d)) == ScanFrom([], Some(d));
    assert ScanFrom([first, second], None) == ScanFrom([second], Some(d));
  }

  /** Every gap the older detector records has its high below its low: the
      bounds are the right values in the wrong fields. */
  lemma LegacyGapInverted(window: seq<Candle>, name: string, timestamp: int)
    ensures match LegacyEvaluate(window, name, timestamp)
      case Ok(Some(g)) =>
        && g.high < g.low
        && |window| >= 3
        && (g.direction == "bullish" ==> g.high == window[0].high && g.low == window[2].low)
        && (g.direction == "bearish" ==> g.high == window[2].high && g.low == window[0].low)
      case _ => true
  {
  }

  /** The two detectors find the same gaps on a full window, with the bounds exchanged. */
  lemma LegacyAgreesUpToOrder(window: seq<Candle>, symbol: string, name: string, timestamp: int)
    requires |window| == 3
    ensures LegacyEvaluate(window, name, timestamp).Ok?
    ensures LegacyEvaluate(window, name, timestamp).value.Some? <==> DetectGap(window, symbol, name, timestamp).Some?
    ensures LegacyEvaluate(window, name, timestamp).value.Some? ==>
      var legacy := LegacyEvaluate(window, name, timestamp).value.value;
      var gap := DetectGap(window, symbol, name, timestamp).value;
      legacy.high == gap.low && legacy.low == gap.high && legacy.direction == gap.direction
  {
  }

  /** From a window of at most 3 candles the next window has at most 3 again,
      the oldest dropped when full. */
  lemma LegacyWindowBounded(window: seq<Candle>, candle: Candle)
    requires |window| <= 3
    ensures var w := LegacyNextWindow(window, candle);
      |w| <= 3 && w[|w| - 1] == candle && (|window| == 3 ==> w == window[1..] + [candle])
  {
  }

  /** The per-key windows of the older detector. */
  class LegacyFairValueGapDetector {
    var windows: map<string, seq<Candle>>
    /** The sink calls made so far. */
    ghost var events: seq<Event>

    constructor ()
      ensures windows == map[] && events == []
    {
      windows := map[];
      events := [];
    }

    /** Pushes a closed candle into its key's window and evaluates it at once.
        A gap is persisted only, never broadcast. A read past the end aborts
        after the push, which stays in the window. */
    method ProcessFairValueGap(candle: Candle, symbol: string, timerange: Timerange) returns (r: Result<()>)
      modifies this
      ensures var key := KeyOf(symbol, timerange.name);
        if key !in old(windows) then
          r.Ok? && windows == old(windows)[key := [candle]] && events == old(events)
        else
          var w := LegacyNextWindow(old(windows)[key], candle);
          && windows == old(windows)[key := w]
          && match LegacyEvaluate(w, timerange.name, candle.timestamp)
             case Err(m) => r == Err(m) && events == old(events)
             case Ok(None) => r.Ok? && events == old(events)
             case Ok(Some(g)) => r.Ok? && events == old(events) + [PersistLegacy2D(g)]
    {
      var key := KeyOf(symbol, timerange.name);
      if key in windows {
        var lastCandles := windows[key];
        if |lastCandles| == 3 {
          lastCandles := lastCandles[1..];
        }
        lastCandles := lastCandles + [candle];
        windows := windows[key := lastCandles];
        var direction: Option<Direction> := None;
        var i := 0;
        while i < |lastCandles|
          invariant 0 <= i <= |lastCandles|
          invariant ScanFrom(lastCandles[i..], direction) == CommonDirection(lastCandles)
          invariant events == old(events)
        {
          assert lastCandles[i..][1..] == lastCandles[i + 1..];
          if direction.Some? {
            if direction.value != lastCandles[i].direction && lastCandles[i].direction != Doji {
              return Ok(());
            }
          } else {
            if lastCandles[i].direction != Doji {
              direction := Some(lastCandles[i].direction);
            }
          }
          i := i + 1;
        }
        var high: Option<real> := None;
        var low: Option<real> := None;
        if direction.Some? {
          if direction.value == Bullish {
            if |lastCandles| < 3 {
              return Err(IndexOutOfBounds);
            }
            if lastCandles[0].high < lastCandles[2].low {
              high := Some(lastCandles[0].high);
              low := Some(lastCandles[2].low);
            }
          } else if direction.value == Bearish {
            if |lastCandles| < 3 {
              return Err(IndexOutOfBounds);
            }
            if lastCandles[0].low > lastCandles[2].high {
              high := Some(lastCandles[2].high);
              low := Some(lastCandles[0].low);
            }
          }
        }
        if high.Some? && low.Some? {
          var fairValueGap := LegacyTwoDStructure("Fair Value Gap", timerange.name, candle.timestamp,
            high.value, low.value, DirectionName(direction.value));
          events := events + [PersistLegacy2D(fairValueGap)];
        }
        return Ok(());
      } else {
        windows := windows[key := [candle]];
      }
      return Ok(());
    }
  }
}

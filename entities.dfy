/** The records that flow through the pipeline (src/entities), and the sink
    calls the handlers make, recorded as events. */
module Entities {

  /** The colour of a candle. The source carries it as the lowercase string
      "bullish", "bearish" or "doji"; it is an input of the model. */
  datatype Direction = Bullish | Bearish | Doji

  /** The string the source stores for a direction. */
  function DirectionName(d: Direction): string
  {
    match d
    case Bullish => "bullish"
    case Bearish => "bearish"
    case Doji => "doji"
  }

  /** One OHLCV bar; `timestamp` is in milliseconds since the epoch. */
  datatype Candle = Candle(
    symbol: string,
    timerange: string,
    timestamp: int,
    open: real,
    high: real,
    low: real,
    close: real,
    volume: real,
    direction: Direction)

  /** A roll-up resolution: its label (`name`, since `label` is a Dafny keyword) and the length of one bucket in milliseconds. */
  datatype Timerange = Timerange(name: string, durationMs: nat)

  /** The per-key store index, written "symbol-timerange" by every handler. */
  function KeyOf(symbol: string, name: string): string
  {
    symbol + "-" + name
  }

  /** The live trend of a key. */
  datatype Trend = Trend(
    symbol: string,
    timerange: string,
    startTime: int,
    endTime: int,
    direction: Direction,
    high: real,
    low: real,
    highTime: int,
    lowTime: int,
    relativeHigh: real,
    relativeLow: real)

  /** A counter-move inside the live trend, with a snapshot of the candle that opened it. */
  datatype Subtrend = Subtrend(
    startTime: int,
    direction: Direction,
    high: real,
    low: real,
    lastRelativeLow: real,
    lastRelativeHigh: real,
    lastCandle: Candle,
    lastRelativeLowTime: int,
    lastRelativeHighTime: int)

  /** A point structure: break of structure, change of character, relative high or low. */
  datatype OneDStructure = OneDStructure(
    symbol: string,
    structure: string,
    timerange: string,
    timestamp: int,
    price: real,
    direction: string)

  /** A range structure: fair value gap or order block. */
  datatype TwoDStructure = TwoDStructure(
    symbol: string,
    structure: string,
    timerange: string,
    timestamp: int,
    high: real,
    low: real,
    direction: string)

  /** The range record of the older gap detector, which has no symbol field. */
  datatype LegacyTwoDStructure = LegacyTwoDStructure(
    structure: string,
    timerange: string,
    timestamp: int,
    high: real,
    low: real,
    direction: string)

  /** A trading session being accumulated; `start` and `end` are instants in milliseconds. */
  datatype Session = Session(
    symbol: string,
    name: string,
    start: int,
    end: int,
    high: real,
    low: real,
    open: real,
    close: real,
    volume: real)

  /** An entry of the fixed session table; `start` and `end` are times of day in
      milliseconds since midnight. */
  datatype ReferenceSession = ReferenceSession(name: string, start: int, end: int)

  /** One call into the persistence or broadcast sinks. */
  datatype Event =
    | PersistCandle(candle: Candle)
    | PersistTrend(trend: Trend)
    | BroadcastTrend(trend: Trend)
    | Persist1D(point: OneDStructure)
    | Broadcast1D(point: OneDStructure)
    | Persist2D(range: TwoDStructure)
    | Broadcast2D(range: TwoDStructure)
    | PersistLegacy2D(legacy: LegacyTwoDStructure)
    | PersistSession(session: Session)

  function Max(a: real, b: real): real { if a >= b then a else b }

  function Min(a: real, b: real): real { if a <= b then a else b }
}

/** The per-key candle roll-up of src/handlers/candle.rs. */
module CandleAggregation {
  import opened Wrappers
  import opened Entities

  /** The accumulator after a base candle, and the bucket it closed, if any. */
  datatype Aggregated = Aggregated(current: Candle, closed: Option<Candle>)

  /** A candle closes the current bucket only when it lies strictly after the
      bucket's timestamp plus its duration. */
  predicate Closes(acc: Candle, candle: Candle, timerange: Timerange)
  {
    acc.timestamp + timerange.durationMs < candle.timestamp
  }

  /** The accumulator with one more base candle of its bucket folded in. */
  function Merge(acc: Candle, candle: Candle): Candle
  {
    acc.(
      high := Max(acc.high, candle.high),
      low := Min(acc.low, candle.low),
      close := candle.close,
      volume := acc.volume + candle.volume)
  }

  /** One step of the roll-up for a key whose accumulator is `last`. */
  function Aggregate(last: Option<Candle>, candle: Candle, timerange: Timerange): Aggregated
  {
    match last
    case None => Aggregated(candle.(timerange := timerange.name), None)
    case Some(acc) =>
      if Closes(acc, candle, timerange) then
        Aggregated(candle.(timerange := timerange.name), Some(acc))
      else
        Aggregated(Merge(acc, candle), None)
  }

  /** The first candle of a key is stored as it is, relabelled with the timerange; nothing closes. */
  lemma FirstCandleStored(candle: Candle, timerange: Timerange)
    ensures Aggregate(None, candle, timerange).closed == None
    ensures var c := Aggregate(None, candle, timerange).current;
      c.timerange == timerange.name && c == candle.(timerange := timerange.name)
  {
  }

  /** A bucket closes exactly when the candle is strictly past its end; a candle
      at the boundary instant is merged into the current bucket. */
  lemma ClosesOnlyPastBoundary(acc: Candle, candle: Candle, timerange: Timerange)
    ensures Aggregate(Some(acc), candle, timerange).closed.Some?
      <==> acc.timestamp + timerange.durationMs < candle.timestamp
    ensures candle.timestamp == acc.timestamp + timerange.durationMs
      ==> Aggregate(Some(acc), candle, timerange).closed == None
  {
  }

  /** On closure the old accumulator is handed on unchanged and replaced by the
      relabelled candle, whose timestamp is not snapped to a bucket boundary. */
  lemma ClosureRestarts(acc: Candle, candle: Candle, timerange: Timerange)
    requires Closes(acc, candle, timerange)
    ensures var r := Aggregate(Some(acc), candle, timerange);
      && r.closed == Some(acc)
      && r.current == candle.(timerange := timerange.name)
      && r.current.timestamp == candle.timestamp
  {
  }

  /** On a merge high and low widen, close is the candle's, volumes add, and
      open, timestamp, symbol and timerange stay; a well-formed range stays well-formed. */
  lemma MergeAccumulates(acc: Candle, candle: Candle, timerange: Timerange)
    requires !Closes(acc, candle, timerange)
    ensures var r := Aggregate(Some(acc), candle, timerange);
      && r.closed == None
      && r.current.high == Max(acc.high, candle.high) && r.current.low == Min(acc.low, candle.low)
      && r.current.close == candle.close && r.current.volume == acc.volume + candle.volume
      && r.current.open == acc.open && r.current.timestamp == acc.timestamp
      && r.current.symbol == acc.symbol && r.current.timerange == acc.timerange
      && (acc.low <= acc.high && candle.low <= candle.high ==> r.current.low <= r.current.high)
  {
  }

  /** The accumulator after a run of base candles, and the buckets the run closed, oldest first. */
  datatype Run = Run(last: Option<Candle>, closed: seq<Candle>)

  /** The roll-up of a run of base candles. */
  function AggregateAll(last: Option<Candle>, candles: seq<Candle>, timerange: Timerange): Run
    decreases |candles|
  {
    if |candles| == 0 then Run(last, [])
    else
      var step := Aggregate(last, candles[0], timerange);
      var rest := AggregateAll(Some(step.current), candles[1..], timerange);
      Run(rest.last, (if step.closed.Some? then [step.closed.value] else []) + rest.closed)
  }

  function MaxHigh(candles: seq<Candle>): real
    requires |candles| > 0
    decreases |candles|
  {
    if |candles| == 1 then candles[0].high else Max(candles[0].high, MaxHigh(candles[1..]))
  }

  function MinLow(candles: seq<Candle>): real
    requires |candles| > 0
    decreases |candles|
  {
    if |candles| == 1 then candles[0].low else Min(candles[0].low, MinLow(candles[1..]))
  }

  function SumVolume(candles: seq<Candle>): real
    decreases |candles|
  {
    if |candles| == 0 then 0.0 else candles[0].volume + SumVolume(candles[1..])
  }

  /** Candles no later than the accumulator's timestamp plus the duration all
      merge into it: nothing closes, and the result keeps the accumulator's
      open and timestamp, takes the highest high, the lowest low, the last
      close and the total volume. */
  lemma {:induction false} RunWithinBucketMerges(acc: Candle, candles: seq<Candle>, timerange: Timerange)
    requires |candles| > 0
    requires forall i :: 0 <= i < |candles| ==> candles[i].timestamp <= acc.timestamp + timerange.durationMs
    ensures AggregateAll(Some(acc), candles, timerange) ==
      Run(Some(acc.(
        high := Max(acc.high, MaxHigh(candles)),
        low := Min(acc.low, MinLow(candles)),
        close := candles[|candles| - 1].close,
        volume := acc.volume + SumVolume(candles))), [])
    decreases |candles|
  {
    var next := Merge(acc, candles[0]);
    assert Aggregate(Some(acc), candles[0], timerange) == Aggregated(next, None);
    if |candles| > 1 {
      RunWithinBucketMerges(next, candles[1..], timerange);
      assert candles[1..][|candles[1..]| - 1] == candles[|candles| - 1];
    } else {
      assert AggregateAll(Some(next), candles[1..], timerange) == Run(Some(next), []);
    }
  }

  /** A fresh key fed a first candle, then candles up to its timestamp plus the
      duration, then one strictly later candle, closes exactly one bucket: the
      first candle's symbol, open and timestamp, relabelled, with the highest
      high, lowest low, last close and total volume. The later candle starts the next bucket. */
  lemma {:induction false} OneBucketCloses(first: Candle, rest: seq<Candle>, later: Candle, timerange: Timerange)
    requires forall i :: 0 <= i < |rest| ==> rest[i].timestamp <= first.timestamp + timerange.durationMs
    requires first.timestamp + timerange.durationMs < later.timestamp
    ensures var run := [first] + rest;
      AggregateAll(None, run + [later], timerange) ==
        Run(Some(later.(timerange := timerange.name)),
         [first.(timerange := timerange.name,
                 high := MaxHigh(run), low := MinLow(run),
                 close := run[|run| - 1].close, volume := SumVolume(run))])
  {
    var run := [first] + rest;
    var acc := first.(timerange := timerange.name);
    assert (run + [later])[1..] == rest + [later];
    var bucket := acc.(
      high := MaxHigh(run), low := MinLow(run),
      close := run[|run| - 1].close, volume := SumVolume(run));
    LaterCloses(acc, later, timerange);
    if |rest| == 0 {
      assert bucket == acc;
    } else {
      AggregateAllSplit(Some(acc), rest, [later], timerange);
      RunWithinBucketMerges(acc, rest, timerange);
      assert Max(first.high, MaxHigh(rest)) == MaxHigh(run) by { assert run[1..] == rest; }
      assert Min(first.low, MinLow(rest)) == MinLow(run) by { assert run[1..] == rest; }
      assert first.volume + SumVolume(rest) == SumVolume(run) by { assert run[1..] == rest; }
      LaterCloses(bucket, later, timerange);
    }
  }

  /** A single candle past the bucket closes it and starts the next one. */
  lemma LaterCloses(acc: Candle, later: Candle, timerange: Timerange)
    requires Closes(acc, later, timerange)
    ensures AggregateAll(Some(acc), [later], timerange) == Run(Some(later.(timerange := timerange.name)), [acc])
  {
    assert [later][1..] == [];
  }

  /** Running two batches one after the other is running their concatenation. */
  lemma {:induction false} AggregateAllSplit(last: Option<Candle>, a: seq<Candle>, b: seq<Candle>, timerange: Timerange)
    ensures var first := AggregateAll(last, a, timerange);
      var second := AggregateAll(first.last, b, timerange);
      AggregateAll(last, a + b, timerange) == Run(second.last, first.closed + second.closed)
    decreases |a|
  {
    if |a| > 0 {
      assert (a + b)[1..] == a[1..] + b;
      var step := Aggregate(last, a[0], timerange);
      AggregateAllSplit(Some(step.current), a[1..], b, timerange);
    } else {
      assert a + b == b;
    }
  }

  /** The in-progress accumulators (the source's CANDLES map). */
  class CandleAggregator {
    var candles: map<string, Candle>
    /** The sink calls made so far. */
    ghost var events: seq<Event>

    constructor ()
      ensures candles == map[] && events == []
    {
      candles := map[];
      events := [];
    }

    /** Folds a base candle into the accumulator of `symbol` and `timerange`.
        A closed bucket goes to persistence; a failed persist is only logged, so
        the accumulator is written back in every case, and no other key changes. */
    method AggregateCandle(candle: Candle, symbol: string, timerange: Timerange) returns (r: Result<()>)
      modifies this
      ensures r.Ok?
      ensures var key := KeyOf(symbol, timerange.name);
        var step := Aggregate(Get(old(candles), key), candle, timerange);
        && candles == old(candles)[key := step.current]
        && events == old(events) + (if step.closed.Some? then [PersistCandle(step.closed.value)] else [])
    {
      var key := KeyOf(symbol, timerange.name);
      var newCandle: Candle;
      if key in candles {
        var lastCandle := candles[key];
        if lastCandle.timestamp + timerange.durationMs < candle.timestamp {
          events := events + [PersistCandle(lastCandle)];
          var modifiedCandle := candle;
          modifiedCandle := modifiedCandle.(timerange := timerange.name);
          newCandle := modifiedCandle;
        } else {
          var modifiedCandle := lastCandle;
          modifiedCandle := modifiedCandle.(high := Max(modifiedCandle.high, candle.high));
          modifiedCandle := modifiedCandle.(low := Min(modifiedCandle.low, candle.low));
          modifiedCandle := modifiedCandle.(close := candle.close);
          modifiedCandle := modifiedCandle.(volume := modifiedCandle.volume + candle.volume);
          newCandle := modifiedCandle;
        }
      } else {
        newCandle := candle.(timerange := timerange.name);
      }
      candles := candles[key := newCandle];
      return Ok(());
    }
  }
}

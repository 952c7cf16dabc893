/** The trend engine of src/handlers/trends.rs: the `TRENDS`, `SUBTRENDS` and
    `QUEUE` maps keyed by "symbol-timerange", and the three operations on them. */
module Trends {
  import opened Wrappers
  import opened Entities
  import opened TrendAutomaton
  import opened TrendReplay

  const NoQueue := "No queue found for the given key"

  /** Every key's trend and subtrend are coherent. */
  predicate CoherentMaps(trends: map<string, Trend>, subtrends: map<string, Subtrend>)
  {
    && (forall key :: key in subtrends ==> key in trends && subtrends[key].direction != trends[key].direction)
    && (forall key :: key in trends ==> trends[key].direction != Doji)
  }

  /** Every queued candle belongs to the queue of its own key. */
  predicate QueuesKeyed(queue: map<string, seq<Candle>>)
  {
    forall key, c :: key in queue && c in queue[key] ==> KeyOf(c.symbol, c.timerange) == key
  }

  /** Replacing one key's queue by candles of that key keeps every queue keyed. */
  lemma QueuesKeyedPut(queue: map<string, seq<Candle>>, key: string, candles: seq<Candle>)
    requires QueuesKeyed(queue) && forall c :: c in candles ==> KeyOf(c.symbol, c.timerange) == key
    ensures QueuesKeyed(queue[key := candles])
  {
  }

  /** Replacing one key's entries by a coherent pair keeps every key coherent. */
  lemma CoherentMapsPut(trends: map<string, Trend>, subtrends: map<string, Subtrend>, key: string,
                        trend: Option<Trend>, subtrend: Option<Subtrend>)
    requires CoherentMaps(trends, subtrends) && Coherent(trend, subtrend)
    ensures CoherentMaps(Put(trends, key, trend), Put(subtrends, key, subtrend))
  {
    var t := Put(trends, key, trend);
    var s := Put(subtrends, key, subtrend);
    forall x | x in s ensures x in t && s[x].direction != t[x].direction {
      assert Get(s, x).Some?;
      if x != key { PutOther(subtrends, key, subtrend, x); PutOther(trends, key, trend, x); }
    }
    forall x | x in t ensures t[x].direction != Doji {
      assert Get(t, x).Some?;
      if x != key { PutOther(trends, key, trend, x); }
    }
  }

  class TrendEngine {
    var trends: map<string, Trend>
    var subtrends: map<string, Subtrend>
    var queue: map<string, seq<Candle>>
    /** The sink calls made so far. */
    ghost var events: seq<Event>

    /** Every key's trend and subtrend are coherent, and every queued candle
        belongs to the queue of its own key. */
    ghost predicate Valid()
      reads this
    {
      && CoherentMaps(trends, subtrends)
      && QueuesKeyed(queue)
    }

    constructor ()
      ensures trends == map[] && subtrends == map[] && queue == map[] && events == []
      ensures Valid()
    {
      trends := map[];
      subtrends := map[];
      queue := map[];
      events := [];
    }

    /** The branch of `get_trends` for a candle of the trend's own direction:
        the subtrend of `key` is broken, extended or left, or the trend's
        extremes move when there is no subtrend. */
    method ContinueTrend(key: string, trend: Trend, candle: Candle) returns (modifiedTrend: Trend)
      modifies this`subtrends, this`events
      ensures var draft := Continuation(trend, Get(old(subtrends), key), candle);
        && modifiedTrend == draft.trend && draft.reprocess.None?
        && subtrends == Put(old(subtrends), key, draft.subtrend)
        && events == old(events) + draft.events
    {
      modifiedTrend := trend.(endTime := candle.timestamp);
      if key in subtrends {
        var subtrend := subtrends[key];
        if subtrend.direction == Bullish {
          if candle.close < subtrend.low {
            modifiedTrend := modifiedTrend.(high := subtrend.high);
            events := events + BreakEvents(candle, subtrend, subtrend.low, "Bearish");
            subtrends := subtrends - {key};
          } else {
            var modifiedSubtrend := subtrend;
            if candle.high > subtrend.high {
              modifiedSubtrend := modifiedSubtrend.(high := candle.high, lastRelativeHigh := candle.high,
                lastRelativeHighTime := candle.timestamp);
            }
            subtrends := subtrends[key := modifiedSubtrend];
          }
        } else {
          if candle.close > subtrend.high {
            modifiedTrend := modifiedTrend.(low := subtrend.low);
            events := events + BreakEvents(candle, subtrend, subtrend.high, "Bullish");
            subtrends := subtrends - {key};
          } else {
            var modifiedSubtrend := subtrend;
            if candle.low < subtrend.low {
              modifiedSubtrend := modifiedSubtrend.(low := candle.low, lastRelativeLow := candle.low,
                lastRelativeLowTime := candle.timestamp);
            }
            subtrends := subtrends[key := modifiedSubtrend];
          }
        }
      } else {
        if trend.low > candle.low {
          modifiedTrend := modifiedTrend.(low := candle.low, lowTime := candle.timestamp);
        }
        if trend.high < candle.high {
          modifiedTrend := modifiedTrend.(high := candle.high, highTime := candle.timestamp);
        }
      }
    }

    /** The branch of `get_trends` for a candle of another direction: a
        subtrend is opened, or the live one may confirm a reversal, whose
        replay instant is returned. */
    method CounterTrend(key: string, trend: Trend, candle: Candle) returns (modifiedTrend: Trend, datetime: Option<int>)
      modifies this`subtrends, this`events
      ensures var draft := CounterMove(trend, Get(old(subtrends), key), candle);
        && modifiedTrend == draft.trend && datetime == draft.reprocess
        && subtrends == Put(old(subtrends), key, draft.subtrend)
        && events == old(events) + draft.events
    {
      modifiedTrend := trend;
      datetime := None;
      if key in subtrends {
        var subtrend := subtrends[key];
        if subtrend.direction == Bullish {
          modifiedTrend := modifiedTrend.(endTime := candle.timestamp);
          if candle.close > trend.high {
            datetime := Some(subtrend.startTime);
            events := events + ReversalEvents(candle, subtrend, trend.relativeHigh, "Bullish");
          }
        } else if subtrend.direction == Bearish {
          modifiedTrend := modifiedTrend.(endTime := candle.timestamp);
          if candle.close < trend.low {
            datetime := Some(subtrend.startTime);
            events := events + ReversalEvents(candle, subtrend, trend.relativeLow, "Bearish");
          }
        }
      } else {
        subtrends := subtrends[key := SeedSubtrend(candle)];
      }
    }

    /** One closed candle through the automaton of its key; returns the replay
        instant on a confirmed reversal. Only the candle's key changes. */
    method GetTrends(candle: Candle) returns (r: Result<Option<int>>)
      modifies this`trends, this`subtrends, this`events
      ensures var key := KeyOf(candle.symbol, candle.timerange);
        var step := Step(Get(old(trends), key), Get(old(subtrends), key), candle);
        && r == Ok(step.reprocess)
        && trends == Put(old(trends), key, step.trend)
        && subtrends == Put(old(subtrends), key, step.subtrend)
        && events == old(events) + step.events
    {
      var datetime: Option<int> := None;
      var key := KeyOf(candle.symbol, candle.timerange);
      if key in trends {
        var trend := trends[key];
        var modifiedTrend: Trend;
        if candle.direction == trend.direction {
          modifiedTrend := ContinueTrend(key, trend, candle);
        } else {
          modifiedTrend, datetime := CounterTrend(key, trend, candle);
        }
        trends := trends[key := modifiedTrend];
      } else {
        if candle.direction == Doji {
          return Ok(None);
        }
        trends := trends[key := NewTrend(candle)];
        return Ok(None);
      }

      // the trend is read back from the map, where it was just written
      var stored := trends[key];
      events := events + [PersistTrend(stored)];
      if datetime.Some? {
        events := events + [BroadcastTrend(stored)];
        trends := trends - {key};
        subtrends := subtrends - {key};
      }
      return Ok(datetime);
    }

    /** Keeps only the candles of `key`'s queue later than `instant`; fails
        when the key has no queue, and leaves an empty queue as it is. */
    method ProcessQueue(key: string, instant: int) returns (r: Result<()>)
      modifies this`queue
      ensures key !in old(queue) ==> r == Err(NoQueue) && queue == old(queue)
      ensures key in old(queue) ==> r == Ok(()) && queue == old(queue)[key := KeepAfter(old(queue)[key], instant)]
    {
      if key !in queue {
        return Err(NoQueue);
      }
      if queue[key] == [] {
        return Ok(());
      }
      queue := queue[key := KeepAfter(queue[key], instant)];
      return Ok(());
    }

    /** One pass of the replay over `key`'s queue from a cleared key: the
        queued candles go through the automaton in order until one confirms a
        reversal, which cuts the queue at its instant and ends the pass. */
    method ReplayPass(key: string) returns (reversal: Option<int>)
      requires Valid() && key in queue && key !in trends && key !in subtrends
      modifies this
      ensures Valid() && key in queue
      ensures var pass := Pass(None, None, old(queue)[key]);
        && reversal == pass.reprocess
        && trends == Put(old(trends), key, pass.trend)
        && subtrends == Put(old(subtrends), key, pass.subtrend)
        && queue == old(queue)[key := if reversal.Some? then KeepAfter(old(queue)[key], reversal.value) else old(queue)[key]]
        && events == old(events) + pass.events
    {
      reversal := None;
      ghost var initial := events;
      var snapshot := queue[key];
      ghost var pass := Pass(None, None, snapshot);
      ghost var passed: seq<Event> := [];
      var i := 0;
      while i < |snapshot|
        invariant 0 <= i <= |snapshot| && reversal.None?
        invariant queue == old(queue) && queue[key] == snapshot
        invariant trends - {key} == old(trends) - {key} && subtrends - {key} == old(subtrends) - {key}
        invariant Valid()
        invariant events == initial + passed
        invariant var p := Pass(Get(trends, key), Get(subtrends, key), snapshot[i..]);
          pass == PassResult(p.trend, p.subtrend, passed + p.events, p.reprocess)
      {
        var next := snapshot[i];
        assert snapshot[i..][0] == next && snapshot[i..][1..] == snapshot[i + 1..];
        assert next in queue[key];
        ghost var stepped := Step(Get(trends, key), Get(subtrends, key), next);
        PassUnfold(Get(trends, key), Get(subtrends, key), snapshot[i..]);
        CoherentMapsPut(trends, subtrends, key, stepped.trend, stepped.subtrend);
        var datetime := GetTrends(next);
        AppendAssoc(initial, passed, stepped.events);
        if datetime.value.Some? {
          passed := passed + stepped.events;
          reversal := datetime.value;
          var cleared := ProcessQueue(key, reversal.value);
          break;
        }
        ghost var rest := Pass(stepped.trend, stepped.subtrend, snapshot[i + 1..]);
        AppendAssoc(passed, stepped.events, rest.events);
        passed := passed + stepped.events;
        i := i + 1;
      }
      assert reversal.None? ==> snapshot[i..] == [];
      PutDetermined(old(trends), trends, key);
      PutDetermined(old(subtrends), subtrends, key);
    }

    /** The `while processing_required` loop from a cleared key: passes over
        `key`'s queue until one completes without a reversal. */
    method ReplayQueue(key: string)
      requires Valid() && key in queue && key !in trends && key !in subtrends
      modifies this
      ensures Valid() && key in queue
      ensures var replayed := Replay(old(queue)[key]);
        && trends == Put(old(trends), key, replayed.trend)
        && subtrends == Put(old(subtrends), key, replayed.subtrend)
        && queue == old(queue)[key := replayed.queue]
        && events == old(events) + replayed.events
    {
      ghost var replayed := Replay(queue[key]);
      ghost var done: seq<Event> := [];
      var processingRequired := true;
      while processingRequired
        invariant key in queue && queue - {key} == old(queue) - {key}
        invariant trends - {key} == old(trends) - {key} && subtrends - {key} == old(subtrends) - {key}
        invariant Valid()
        invariant events == old(events) + done
        invariant processingRequired ==>
          && key !in trends && key !in subtrends
          && var rest := Replay(queue[key]);
          && Replayed(rest.trend, rest.subtrend, rest.queue, done + rest.events) == replayed
        invariant !processingRequired ==>
          Replayed(Get(trends, key), Get(subtrends, key), queue[key], done) == replayed
        decreases |queue[key]|, processingRequired
      {
        ghost var before := queue[key];
        ghost var queued := queue;
        ghost var pass := Pass(None, None, before);
        ReplayUnfold(before);
        var reversal := ReplayPass(key);
        UpdateMinus(queued, key, queue[key]);
        AppendAssoc(old(events), done, pass.events);
        processingRequired := reversal.Some?;
        if processingRequired {
          PassReversalShrinksQueue(before);
          AppendAssoc(done, pass.events, Replay(queue[key]).events);
        }
        done := done + pass.events;
      }
      PutDetermined(old(queue), queue, key);
      PutDetermined(old(trends), trends, key);
      PutDetermined(old(subtrends), subtrends, key);
    }

    /** Queues a closed candle, runs it through the automaton and, on a
        confirmed reversal, cuts the queue at the reversal's instant and
        replays it until a pass completes without reversal. Only the
        candle's key changes, and the engine stays valid. */
    method ProcessTrend(candle: Candle, symbol: string, timerange: string) returns (r: Result<()>)
      requires Valid()
      requires KeyOf(candle.symbol, candle.timerange) == KeyOf(symbol, timerange)
      modifies this
      ensures Valid()
      ensures var key := KeyOf(symbol, timerange);
        var spec := ProcessTrendSpec(Get(old(trends), key), Get(old(subtrends), key),
          if key in old(queue) then old(queue)[key] else [], candle);
        && r == Ok(())
        && trends == Put(old(trends), key, spec.trend)
        && subtrends == Put(old(subtrends), key, spec.subtrend)
        && queue == old(queue)[key := spec.queue]
        && events == old(events) + spec.events
    {
      var key := KeyOf(symbol, timerange);
      ghost var step := Step(Get(trends, key), Get(subtrends, key), candle);
      ghost var spec := ProcessTrendSpec(Get(trends, key), Get(subtrends, key),
        if key in queue then queue[key] else [], candle);

      var pending := if key in queue then queue[key] else [];
      QueuesKeyedPut(queue, key, pending + [candle]);
      queue := queue[key := pending + [candle]];

      CoherentMapsPut(trends, subtrends, key, step.trend, step.subtrend);
      var datetime := GetTrends(candle);
      if datetime.value.Some? {
        ghost var queued := queue;
        QueuesKeyedPut(queue, key, KeepAfter(queue[key], datetime.value.value));
        var cleared := ProcessQueue(key, datetime.value.value);
        ghost var cut := queue;
        ghost var replayed := Replay(cut[key]);
        assert cut[key] == KeepAfter(pending + [candle], step.reprocess.value);
        assert spec == Replayed(replayed.trend, replayed.subtrend, replayed.queue, step.events + replayed.events);
        ReplayQueue(key);
        AppendAssoc(old(events), step.events, replayed.events);
        PutPut(old(trends), key, None, replayed.trend);
        PutPut(old(subtrends), key, None, replayed.subtrend);
        UpdateUpdate(old(queue), key, pending + [candle], cut[key]);
        UpdateUpdate(old(queue), key, cut[key], replayed.queue);
      }
      return Ok(());
    }
  }
}

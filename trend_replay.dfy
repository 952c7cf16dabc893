/** The replay of a key's queue after a confirmed reversal, as driven by
    `process_trend` and `process_queue` in src/handlers/trends.rs. */
module TrendReplay {
  import opened Wrappers
  import opened Entities
  import opened TrendAutomaton

  /** The candles of `queue` strictly later than `instant`, in their order:
      what `retain(|c| c.timestamp > datetime)` leaves. */
  function KeepAfter(queue: seq<Candle>, instant: int): (r: seq<Candle>)
    ensures forall c :: c in r <==> c in queue && c.timestamp > instant
    ensures multiset(r) <= multiset(queue)
    ensures |r| <= |queue|
    ensures (exists c :: c in queue && c.timestamp <= instant) ==> |r| < |queue|
  {
    if queue == [] then []
    else
      assert queue == [queue[0]] + queue[1..];
      var rest := KeepAfter(queue[1..], instant);
      if queue[0].timestamp > instant then [queue[0]] + rest else rest
  }

  /** Filtering splits over concatenation. */
  lemma {:induction false} KeepAfterConcat(a: seq<Candle>, b: seq<Candle>, instant: int)
    ensures KeepAfter(a + b, instant) == KeepAfter(a, instant) + KeepAfter(b, instant)
    decreases |a|
  {
    if a != [] {
      assert (a + b)[1..] == a[1..] + b;
      KeepAfterConcat(a[1..], b, instant);
    } else {
      assert a + b == b;
    }
  }

  /** Two successive cuts keep what the later cut alone keeps; in particular a
      cut repeated at the same instant changes nothing. */
  lemma {:induction false} KeepAfterCompose(queue: seq<Candle>, first: int, second: int)
    requires first <= second
    ensures KeepAfter(KeepAfter(queue, first), second) == KeepAfter(queue, second)
    decreases |queue|
  {
    if queue != [] {
      KeepAfterCompose(queue[1..], first, second);
      if queue[0].timestamp > first {
        var rest := KeepAfter(queue[1..], first);
        assert KeepAfter(queue, first) == [queue[0]] + rest;
        assert ([queue[0]] + rest)[1..] == rest;
      }
    }
  }

  /** The key's state after one pass over a queue, the sink calls made, and the
      instant of the reversal that stopped the pass, if one did. */
  datatype PassResult = PassResult(
    trend: Option<Trend>,
    subtrend: Option<Subtrend>,
    events: seq<Event>,
    reprocess: Option<int>)

  /** One pass of the `for candle in queue.iter()` loop: candles go through the
      automaton in order, and the first confirmed reversal ends the pass. */
  function Pass(trend: Option<Trend>, subtrend: Option<Subtrend>, queue: seq<Candle>): (r: PassResult)
    // the reversal instant is the start of the subtrend at the start of the
    // pass or the timestamp of a candle of the pass: only a candle can open a subtrend
    ensures r.reprocess.Some? ==>
      || (subtrend.Some? && r.reprocess.value == subtrend.value.startTime)
      || exists c :: c in queue && c.timestamp == r.reprocess.value
    // a reversal leaves the key without trend and subtrend
    ensures r.reprocess.Some? ==> r.trend.None? && r.subtrend.None?
    ensures Coherent(trend, subtrend) ==> Coherent(r.trend, r.subtrend)
    decreases |queue|
  {
    if queue == [] then PassResult(trend, subtrend, [], None)
    else
      var step := Step(trend, subtrend, queue[0]);
      if step.reprocess.Some? then PassResult(step.trend, step.subtrend, step.events, step.reprocess)
      else
        var rest := Pass(step.trend, step.subtrend, queue[1..]);
        PassResult(rest.trend, rest.subtrend, step.events + rest.events, rest.reprocess)
  }

  /** The first candle of a pass either stops it with a reversal or hands its
      state on to the pass over the remaining candles. */
  lemma PassUnfold(trend: Option<Trend>, subtrend: Option<Subtrend>, queue: seq<Candle>)
    requires queue != []
    ensures var step := Step(trend, subtrend, queue[0]);
      Pass(trend, subtrend, queue) ==
        if step.reprocess.Some? then PassResult(step.trend, step.subtrend, step.events, step.reprocess)
        else
          var rest := Pass(step.trend, step.subtrend, queue[1..]);
          PassResult(rest.trend, rest.subtrend, step.events + rest.events, rest.reprocess)
  {
  }

  /** A pass that starts from a cleared key and is stopped by a reversal cuts
      at least one candle from the queue: the one that opened the subtrend. */
  lemma PassReversalShrinksQueue(queue: seq<Candle>)
    requires Pass(None, None, queue).reprocess.Some?
    ensures |KeepAfter(queue, Pass(None, None, queue).reprocess.value)| < |queue|
  {
    var d := Pass(None, None, queue).reprocess.value;
    var c :| c in queue && c.timestamp == d;
  }

  /** A key's final state after replay, its queue, and the sink calls made. */
  datatype Replayed = Replayed(
    trend: Option<Trend>,
    subtrend: Option<Subtrend>,
    queue: seq<Candle>,
    events: seq<Event>)

  /** The `while processing_required` loop from a cleared key: the queue is
      passed over again after each reversal, cut at the reversal's instant,
      until a pass completes without one. */
  function Replay(queue: seq<Candle>): (r: Replayed)
    ensures Coherent(r.trend, r.subtrend)
    ensures forall c :: c in r.queue ==> c in queue
    ensures multiset(r.queue) <= multiset(queue)
    // quiescence: one more pass over the final queue from a cleared key finds
    // no reversal and reproduces the final state
    ensures var last := Pass(None, None, r.queue);
      last.reprocess.None? && last.trend == r.trend && last.subtrend == r.subtrend
    decreases |queue|
  {
    var pass := Pass(None, None, queue);
    if pass.reprocess.None? then Replayed(pass.trend, pass.subtrend, queue, pass.events)
    else
      PassReversalShrinksQueue(queue);
      var rest := Replay(KeepAfter(queue, pass.reprocess.value));
      Replayed(rest.trend, rest.subtrend, rest.queue, pass.events + rest.events)
  }

  /** A replay is one pass followed, after a reversal, by the replay of the cut queue. */
  lemma ReplayUnfold(queue: seq<Candle>)
    ensures var pass := Pass(None, None, queue);
      Replay(queue) ==
        if pass.reprocess.None? then Replayed(pass.trend, pass.subtrend, queue, pass.events)
        else
          var rest := Replay(KeepAfter(queue, pass.reprocess.value));
          Replayed(rest.trend, rest.subtrend, rest.queue, pass.events + rest.events)
  {
  }

  /** What one `process_trend` call does to its key: the candle is queued and
      goes through the automaton; on a reversal the queue is cut at the
      reversal's instant and replayed. */
  function ProcessTrendSpec(trend: Option<Trend>, subtrend: Option<Subtrend>, queue: seq<Candle>, candle: Candle): (r: Replayed)
    ensures Coherent(trend, subtrend) ==> Coherent(r.trend, r.subtrend)
    ensures forall c :: c in r.queue ==> c in queue || c == candle
    ensures var step := Step(trend, subtrend, candle);
      && (step.reprocess.None? ==> r == Replayed(step.trend, step.subtrend, queue + [candle], step.events))
      && (step.reprocess.Some? ==>
            && |step.events| <= |r.events| && r.events[..|step.events|] == step.events
            && forall c :: c in r.queue ==> c.timestamp > step.reprocess.value)
  {
    var step := Step(trend, subtrend, candle);
    if step.reprocess.None? then Replayed(step.trend, step.subtrend, queue + [candle], step.events)
    else
      var cut := KeepAfter(queue + [candle], step.reprocess.value);
      var rest := Replay(cut);
      Replayed(rest.trend, rest.subtrend, rest.queue, step.events + rest.events)
  }
}

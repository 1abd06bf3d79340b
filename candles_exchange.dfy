/** The exchange client base class: it splits a time range into request batches,
    drops repeated candles, fills gaps with copies of the previous candle and
    validates the stream it yields. */
module ExchangeClient {
  import opened Results
  import opened CandleTypes
  import opened CandleUtils

  /** Python's range(start, stop, step), as the list it enumerates. */
  function PyRange(start: int, stop: int, step: int): (r: seq<int>)
    requires step != 0
    ensures |r| > 0 ==> r[0] == start
    ensures step > 0 ==> forall x :: x in r ==> start <= x < stop
    ensures step < 0 ==> forall x :: x in r ==> stop < x <= start
    decreases if step > 0 then stop - start else start - stop
  {
    if (step > 0 && start >= stop) || (step < 0 && start <= stop) then []
    else [start] + PyRange(start + step, stop, step)
  }

  /** The k-th element of a range is start + k * step, on the near side of stop. */
  lemma {:induction false} PyRangeAt(start: int, stop: int, step: int, k: int)
    requires step != 0 && 0 <= k < |PyRange(start, stop, step)|
    decreases k
    ensures PyRange(start, stop, step)[k] == start + k * step
    ensures step > 0 ==> PyRange(start, stop, step)[k] < stop
    ensures step < 0 ==> PyRange(start, stop, step)[k] > stop
  {
    if k > 0 {
      PyRangeAt(start + step, stop, step, k - 1);
      assert (k - 1) * step + step == k * step;
    }
  }

  /** A range with a positive step is empty exactly when start >= stop, and one more
      step after its last element reaches stop. */
  lemma {:induction false} PyRangeExhausted(start: int, stop: int, step: int)
    requires step > 0
    decreases stop - start
    ensures var r := PyRange(start, stop, step);
            && (|r| == 0 <==> start >= stop)
            && (|r| > 0 ==> r[|r| - 1] + step >= stop)
  {
    var r := PyRange(start, stop, step);
    if |r| > 1 {
      PyRangeExhausted(start + step, stop, step);
      assert r[|r| - 1] == PyRange(start + step, stop, step)[|r| - 2];
    }
  }

  /** The client: the candle interval in milliseconds and the class attribute
      req_limit_per_min, which is None on the base class. */
  datatype Client = Client(interval: int, reqLimitPerMin: Option<int>)

  /** One request: fetch the raw candles from `start` to `end`. */
  datatype Batch = Batch(start: int, end: int)

  /** The batch generator of fetch_candles for a given request step. */
  function Batches(start: int, end: int, interval: int, step: int): (bs: seq<Batch>)
    requires step != 0
    ensures |bs| == |PyRange(start, end - interval, step)|
    ensures forall b :: b in bs ==> b.end <= end - interval
    ensures step > 0 ==> forall b :: b in bs ==> start <= b.start < b.end <= b.start + step
  {
    var starts := PyRange(start, end - interval, step);
    assert forall k :: 0 <= k < |starts| ==> starts[k] in starts;
    seq(|starts|, k requires 0 <= k < |starts| =>
      Batch(starts[k], if starts[k] + step < end - interval then starts[k] + step else end - interval))
  }

  /** With a positive step the batches tile [start, end - interval]: batch k starts at
      start + k * step, each ends where the next starts, each is non-empty and at most
      one step long, and the last ends at end - interval. */
  lemma {:induction false} BatchesTile(start: int, end: int, interval: int, step: int)
    requires step > 0
    ensures var bs := Batches(start, end, interval, step);
            && (|bs| == 0 <==> start >= end - interval)
            && (forall k :: 0 <= k < |bs| ==> bs[k].start == start + k * step)
            && (|bs| > 0 ==> bs[|bs| - 1].end == end - interval)
            && (forall k :: 0 <= k < |bs| ==> bs[k].start < bs[k].end <= bs[k].start + step)
            && (forall k :: 0 <= k < |bs| - 1 ==> bs[k].end == bs[k + 1].start)
  {
    var starts := PyRange(start, end - interval, step);
    var bs := Batches(start, end, interval, step);
    PyRangeExhausted(start, end - interval, step);
    forall k | 0 <= k < |bs|
      ensures bs[k].start == start + k * step && bs[k].start < bs[k].end <= bs[k].start + step
    {
      PyRangeAt(start, end - interval, step, k);
    }
    forall k | 0 <= k < |bs| - 1 ensures bs[k].end == bs[k + 1].start {
      PyRangeAt(start, end - interval, step, k);
      PyRangeAt(start, end - interval, step, k + 1);
      assert start + (k + 1) * step == start + k * step + step;
    }
  }

  /** The batches of a client, or the error that computing them raises: a missing
      req_limit_per_min makes the multiplication fail, and a zero step makes range fail. */
  function ClientBatches(client: Client, start: int, end: int): (r: Result<seq<Batch>, CandleError>)
    ensures client.reqLimitPerMin.None? ==> r.Failure?
    ensures client.reqLimitPerMin.Some? && client.reqLimitPerMin.value * client.interval == 0
            ==> r == Failure(ZeroRangeStep)
    ensures client.reqLimitPerMin.Some? && client.reqLimitPerMin.value * client.interval != 0
            ==> r == Success(Batches(start, end, client.interval, client.reqLimitPerMin.value * client.interval))
  {
    match client.reqLimitPerMin
    case None => Failure(Raised("unsupported operand type for *: NoneType and int"))
    case Some(limit) =>
      var step := limit * client.interval;
      if step == 0 then Failure(ZeroRangeStep) else Success(Batches(start, end, client.interval, step))
  }

  /** What a candle generator produces: the items it yields, then the error it raises, if any. */
  datatype Emitted = Emitted(items: seq<Candle>, failure: Option<CandleError>)

  /** Yield `items` first, then whatever `e` produces. */
  function Then(items: seq<Candle>, e: Emitted): (r: Emitted)
    ensures r.failure == e.failure && |r.items| == |items| + |e.items|
  {
    Emitted(items + e.items, e.failure)
  }

  /** The copy of `prev` impute_candles makes for the timestamp `t`. */
  function CopyAt(prev: Candle, t: int): (c: Candle)
    ensures c.Candle? && c.timestamp == t
    ensures c.baseTimeframe == prev.baseTimeframe && c.timeframe == prev.timeframe && c.complete == prev.complete
    ensures prev.Candle? ==> c.open == prev.open && c.close == prev.close && c.high == prev.high && c.low == prev.low
  {
    Copy(prev, NoOverrides.(timestamp := Some(t)))
  }

  /** The copies impute_candles yields for the timestamps `ts`, each validated against
      the previous candle before it is yielded. */
  function CopiesAt(prev: Candle, ts: seq<int>): (e: Emitted)
    ensures |e.items| <= |ts|
  {
    if |ts| == 0 then Emitted([], None)
    else
      var c: Candle := CopyAt(prev, ts[0]);
      match ValidateCandle(c, Some(prev))
      case Fail(err) => Emitted([], Some(err))
      case Pass => Then([c], CopiesAt(prev, ts[1..]))
  }

  /** impute_candles: copies of the previous candle at every interval step strictly
      between the two candles; a gap of at most one interval raises ValueError on the
      first pull. */
  function Impute(candle: Candle, prev: Candle, interval: int): (e: Emitted)
    requires interval > 0
    ensures candle.timestamp - prev.timestamp <= interval ==>
              e == Emitted([], Some(GapNotAboveInterval(candle.timestamp, prev.timestamp, interval)))
  {
    if candle.timestamp - prev.timestamp <= interval then
      Emitted([], Some(GapNotAboveInterval(candle.timestamp, prev.timestamp, interval)))
    else
      CopiesAt(prev, PyRange(prev.timestamp + interval, candle.timestamp, interval))
  }

  /** impute_candles, as the range loop it is. */
  method ImputeCandles(interval: int, candle: Candle, prev: Candle) returns (e: Emitted)
    requires interval > 0
    ensures e == Impute(candle, prev, interval)
  {
    if candle.timestamp - prev.timestamp <= interval {
      return Emitted([], Some(GapNotAboveInterval(candle.timestamp, prev.timestamp, interval)));
    }
    var out: seq<Candle> := [];
    var t := prev.timestamp + interval;
    while t < candle.timestamp
      invariant Impute(candle, prev, interval) == Then(out, CopiesAt(prev, PyRange(t, candle.timestamp, interval)))
      decreases candle.timestamp - t
    {
      var rest := PyRange(t + interval, candle.timestamp, interval);
      assert PyRange(t, candle.timestamp, interval) == [t] + rest;
      assert ([t] + rest)[1..] == rest;
      var copy: Candle := CopyAt(prev, t);
      var v := ValidateCandle(copy, Some(prev));
      if v.Fail? {
        return Emitted(out, Some(v.error));
      }
      assert out + ([copy] + CopiesAt(prev, rest).items) == (out + [copy]) + CopiesAt(prev, rest).items;
      out := out + [copy];
      t := t + interval;
    }
    assert out + [] == out;
    return Emitted(out, None);
  }

  /** The cleaning loop of fetch_candles over the raw candles, starting from the last
      candle yielded (if any). */
  function Clean(raw: seq<Candle>, prev: Option<Candle>, interval: int): (e: Emitted)
    requires interval > 0
    ensures prev.Some? && |e.items| > 0 ==> e.items[0].timestamp > prev.value.timestamp
    ensures |raw| == 0 ==> e == Emitted([], None)
    decreases |raw|
  {
    if |raw| == 0 then Emitted([], None)
    else
      var c := raw[0];
      if prev.Some? && prev.value.timestamp == c.timestamp then Clean(raw[1..], prev, interval)
      else
        var imputed := if prev.Some? && c.timestamp - prev.value.timestamp > interval
                       then Impute(c, prev.value, interval) else Emitted([], None);
        if imputed.failure.Some? then imputed
        else
          match ValidateCandle(c, prev)
          case Fail(err) => Emitted(imputed.items, Some(err))
          case Pass => Then(imputed.items + [c], Clean(raw[1..], Some(c), interval))
  }

  /** The raw candles of every batch, in batch order. */
  function RawOf(batches: seq<Batch>, fetchRaw: (int, int) -> seq<Candle>): seq<Candle> {
    if |batches| == 0 then [] else fetchRaw(batches[0].start, batches[0].end) + RawOf(batches[1..], fetchRaw)
  }

  /** fetch_candles as a whole: convert the bounds, compute the batches, clean the raw stream. */
  function Fetch(client: Client, start: DateObj, end: DateObj, fetchRaw: (int, int) -> seq<Candle>): (e: Emitted)
    requires client.interval > 0
    ensures DateObjToTimestamp(start).Failure? ==> e == Emitted([], Some(DateObjToTimestamp(start).error))
    ensures client.reqLimitPerMin.None? ==> e.items == [] && e.failure.Some?
    ensures DateObjToTimestamp(start).Success? && DateObjToTimestamp(end).Success?
            && DateObjToTimestamp(start).value >= DateObjToTimestamp(end).value - client.interval
            && client.reqLimitPerMin.Some? && client.reqLimitPerMin.value > 0
            ==> e == Emitted([], None)
  {
    match DateObjToTimestamp(start)
    case Failure(err) => Emitted([], Some(err))
    case Success(s) =>
      match DateObjToTimestamp(end)
      case Failure(err) => Emitted([], Some(err))
      case Success(e) =>
        match ClientBatches(client, s, e)
        case Failure(err) => Emitted([], Some(err))
        case Success(batches) => Clean(RawOf(batches, fetchRaw), None, client.interval)
  }

  /** One pass of the cleaning loop over the candle `c`, followed by the candles
      `tail`: a repeat of the previous timestamp is skipped, a gap above the interval
      is filled with copies first, and the candle is validated against the previous
      one. */
  method CleanOne(c: Candle, ghost tail: seq<Candle>, prev: Option<Candle>, interval: int)
    returns (emitted: seq<Candle>, failure: Option<CandleError>, next: Option<Candle>)
    requires interval > 0
    ensures failure.Some? ==> Clean([c] + tail, prev, interval) == Emitted(emitted, failure)
    ensures failure.None? ==> Clean([c] + tail, prev, interval) == Then(emitted, Clean(tail, next, interval))
  {
    assert ([c] + tail)[0] == c && ([c] + tail)[1..] == tail;
    if prev.Some? && prev.value.timestamp == c.timestamp {
      return [], None, prev;
    }
    var imputed: seq<Candle> := [];
    if prev.Some? && c.timestamp - prev.value.timestamp > interval {
      var e := ImputeCandles(interval, c, prev.value);
      if e.failure.Some? {
        return e.items, e.failure, prev;
      }
      imputed := e.items;
    }
    var v := ValidateCandle(c, prev);
    if v.Fail? {
      return imputed, Some(v.error), prev;
    }
    return imputed + [c], None, Some(c);
  }

  /** The inner loop of fetch_candles over the raw candles of one batch. It either
      raises, having yielded `out`, or ends with `prev` as the candle the next batch is
      compared with; `later` stands for the raw candles of the batches still to come. */
  method CleanBatch(raw: seq<Candle>, ghost later: seq<Candle>, prev0: Option<Candle>, interval: int)
    returns (out: seq<Candle>, failure: Option<CandleError>, prev: Option<Candle>)
    requires interval > 0
    ensures failure.Some? ==> Clean(raw + later, prev0, interval) == Emitted(out, failure)
    ensures failure.None? ==> Clean(raw + later, prev0, interval) == Then(out, Clean(later, prev, interval))
  {
    ghost var whole := Clean(raw + later, prev0, interval);
    prev := prev0;
    out := [];
    failure := None;
    var j := 0;
    assert raw[0..] == raw;
    while j < |raw|
      invariant 0 <= j <= |raw|
      invariant whole == Then(out, Clean(raw[j..] + later, prev, interval))
    {
      ghost var tail := raw[j + 1..] + later;
      assert raw[j..] + later == [raw[j]] + tail;
      var emitted, stepFailure, next := CleanOne(raw[j], tail, prev, interval);
      if stepFailure.Some? {
        return out + emitted, stepFailure, prev;
      }
      assert out + (emitted + Clean(tail, next, interval).items) == (out + emitted) + Clean(tail, next, interval).items;
      out := out + emitted;
      prev := next;
      j := j + 1;
    }
    assert raw[|raw|..] + later == later;
  }

  /** fetch_candles: the loop over the batches, carrying the previous candle from one
      batch to the next. */
  method FetchCandles(client: Client, start: DateObj, end: DateObj, fetchRaw: (int, int) -> seq<Candle>)
    returns (e: Emitted)
    requires client.interval > 0
    ensures e == Fetch(client, start, end, fetchRaw)
  {
    var s := DateObjToTimestamp(start);
    if s.Failure? {
      return Emitted([], Some(s.error));
    }
    var en := DateObjToTimestamp(end);
    if en.Failure? {
      return Emitted([], Some(en.error));
    }
    var bs := ClientBatches(client, s.value, en.value);
    if bs.Failure? {
      return Emitted([], Some(bs.error));
    }
    var batches := bs.value;
    var interval := client.interval;
    ghost var whole := Clean(RawOf(batches, fetchRaw), None, interval);
    var prev: Option<Candle> := None;
    var out: seq<Candle> := [];
    var i := 0;
    assert batches[0..] == batches;
    while i < |batches|
      invariant 0 <= i <= |batches|
      invariant whole == Then(out, Clean(RawOf(batches[i..], fetchRaw), prev, interval))
    {
      var raw := fetchRaw(batches[i].start, batches[i].end);
      ghost var later := RawOf(batches[i + 1..], fetchRaw);
      assert batches[i..][0] == batches[i] && batches[i..][1..] == batches[i + 1..];
      assert RawOf(batches[i..], fetchRaw) == raw + later;
      var items, failure, next := CleanBatch(raw, later, prev, interval);
      if failure.Some? {
        return Emitted(out + items, failure);
      }
      ghost var rest := Clean(later, next, interval);
      assert out + (items + rest.items) == (out + items) + rest.items;
      out := out + items;
      prev := next;
      i := i + 1;
    }
    assert out + [] == out;
    return Emitted(out, None);
  }

  /** The timestamps of a run of candles. */
  function Timestamps(xs: seq<Candle>): seq<int> {
    seq(|xs|, k requires 0 <= k < |xs| => xs[k].timestamp)
  }

  /** The timestamps of a join are the joined timestamps. */
  lemma TimestampsJoin(xs: seq<Candle>, c: Candle, ys: seq<Candle>)
    ensures Timestamps(xs + [c] + ys) == Timestamps(xs) + [c.timestamp] + Timestamps(ys)
  {
    var zs := xs + [c] + ys;
    assert forall k :: 0 <= k < |zs| ==>
      Timestamps(zs)[k] == (Timestamps(xs) + [c.timestamp] + Timestamps(ys))[k];
  }

  /** `ts` strictly increases from `last` in steps of at most `interval`. */
  predicate Chained(last: int, ts: seq<int>, interval: int)
    decreases |ts|
  {
    |ts| == 0 || (last < ts[0] <= last + interval && Chained(ts[0], ts[1..], interval))
  }

  /** A chain is, pair by pair, a strict increase of at most one interval. */
  lemma {:induction false} ChainedPairs(last: int, ts: seq<int>, interval: int)
    requires Chained(last, ts, interval)
    ensures |ts| > 0 ==> last < ts[0] <= last + interval
    ensures forall k :: 0 < k < |ts| ==> ts[k - 1] < ts[k] <= ts[k - 1] + interval
    ensures forall k :: 0 <= k < |ts| ==> last < ts[k]
    decreases |ts|
  {
    if |ts| > 0 {
      ChainedPairs(ts[0], ts[1..], interval);
      forall k | 0 < k < |ts| ensures ts[k - 1] < ts[k] <= ts[k - 1] + interval {
        if k > 1 {
          assert ts[k - 1] == ts[1..][k - 2] && ts[k] == ts[1..][k - 1];
        }
      }
    }
  }

  /** Two chains that meet at `y` make one chain. */
  lemma {:induction false} ChainJoin(last: int, xs: seq<int>, y: int, ys: seq<int>, interval: int)
    requires Chained(last, xs + [y], interval) && Chained(y, ys, interval)
    ensures Chained(last, xs + [y] + ys, interval)
    decreases |xs|
  {
    if |xs| == 0 {
      assert [y] + ys == xs + [y] + ys;
      assert ([y] + ys)[1..] == ys;
    } else {
      assert (xs + [y])[1..] == xs[1..] + [y];
      ChainJoin(xs[0], xs[1..], y, ys, interval);
      assert (xs + [y] + ys)[1..] == xs[1..] + [y] + ys;
    }
  }

  /** Copies of `prev` at the timestamps `ts`, with one more copy in front, are the
      copies at those timestamps with one more in front. */
  lemma CopiesCons(prev: Candle, t: int, ts: seq<int>, xs: seq<Candle>)
    requires |xs| == |ts| && forall k :: 0 <= k < |xs| ==> xs[k] == CopyAt(prev, ts[k])
    ensures forall k :: 0 <= k < |xs| + 1 ==> ([CopyAt(prev, t)] + xs)[k] == CopyAt(prev, ([t] + ts)[k])
  {
    forall k | 0 < k < |xs| + 1
      ensures ([CopyAt(prev, t)] + xs)[k] == CopyAt(prev, ([t] + ts)[k])
    {
      assert ([CopyAt(prev, t)] + xs)[k] == xs[k - 1] && ([t] + ts)[k] == ts[k - 1];
    }
  }

  /** The copies for range(a, stop, step) after `prev` all validate: one copy per
      timestamp, in order, and no error. */
  lemma {:induction false} CopiesValid(prev: Candle, a: int, stop: int, step: int)
    requires step > 0 && prev.timestamp < a && BaseInitialTimestamp <= a
    ensures var e := CopiesAt(prev, PyRange(a, stop, step));
            && e.failure.None? && |e.items| == |PyRange(a, stop, step)|
            && forall k :: 0 <= k < |e.items| ==> e.items[k] == CopyAt(prev, PyRange(a, stop, step)[k])
    decreases stop - a
  {
    if a < stop {
      var rest := PyRange(a + step, stop, step);
      assert PyRange(a, stop, step) == [a] + rest && PyRange(a, stop, step)[1..] == rest;
      assert ValidateCandle(CopyAt(prev, a), Some(prev)) == Pass;
      CopiesValid(prev, a + step, stop, step);
      CopiesCons(prev, a, rest, CopiesAt(prev, rest).items);
    }
  }

  /** range(a, stop, step) followed by `stop` steps up from `last` by at most `step`. */
  lemma {:induction false} RangeChained(a: int, stop: int, step: int, last: int)
    requires step > 0 && last < a <= last + step && last < stop
    ensures Chained(last, PyRange(a, stop, step) + [stop], step)
    decreases stop - a
  {
    if a < stop {
      var rest := PyRange(a + step, stop, step);
      RangeChained(a + step, stop, step, a);
      assert PyRange(a, stop, step) + [stop] == [a] + (rest + [stop]);
    }
  }

  /** The copies for range(a, stop, step), taken after `last`, are valid, follow `last`
      in steps of `step` and reach `stop` within one more step. */
  lemma CopiesChain(prev: Candle, a: int, stop: int, step: int, last: int)
    requires step > 0 && prev.timestamp <= last < a <= last + step && last < stop
    requires BaseInitialTimestamp <= a
    ensures var e := CopiesAt(prev, PyRange(a, stop, step));
            && e.failure.None? && |e.items| == |PyRange(a, stop, step)|
            && Chained(last, Timestamps(e.items) + [stop], step)
            && forall k :: 0 <= k < |e.items| ==>
                 e.items[k] == CopyAt(prev, PyRange(a, stop, step)[k])
  {
    CopiesValid(prev, a, stop, step);
    var r := PyRange(a, stop, step);
    var e := CopiesAt(prev, r);
    assert Timestamps(e.items) == r;
    RangeChained(a, stop, step, last);
  }

  /** impute_candles after a valid previous candle and a gap above the interval yields,
      without raising, the copies of the previous candle at prev + interval,
      prev + 2 * interval, ... below the candle's timestamp, and the candle follows the
      last copy within one interval. */
  lemma {:induction false} ImputeFills(candle: Candle, prev: Candle, interval: int)
    requires interval > 0 && BaseInitialTimestamp <= prev.timestamp
    requires candle.timestamp - prev.timestamp > interval
    ensures var e := Impute(candle, prev, interval);
            && e.failure.None?
            && Chained(prev.timestamp, Timestamps(e.items) + [candle.timestamp], interval)
            && forall k :: 0 <= k < |e.items| ==>
                 e.items[k] == CopyAt(prev, prev.timestamp + (k + 1) * interval)
                 && e.items[k].timestamp < candle.timestamp
  {
    var a := prev.timestamp + interval;
    var e := Impute(candle, prev, interval);
    CopiesChain(prev, a, candle.timestamp, interval, prev.timestamp);
    forall k | 0 <= k < |e.items|
      ensures e.items[k] == CopyAt(prev, prev.timestamp + (k + 1) * interval)
      ensures e.items[k].timestamp < candle.timestamp
    {
      PyRangeAt(a, candle.timestamp, interval, k);
      assert a + k * interval == prev.timestamp + (k + 1) * interval;
    }
  }

  /** One step of the cleaning loop when the candle is more than one interval after
      the previous one: the copies, then the candle, then the rest of the stream. */
  lemma {:induction false} CleanStepImputed(raw: seq<Candle>, p: Candle, interval: int)
    requires interval > 0 && |raw| > 0 && BaseInitialTimestamp <= p.timestamp
    requires raw[0].timestamp - p.timestamp > interval
    requires Chained(raw[0].timestamp, Timestamps(Clean(raw[1..], Some(raw[0]), interval).items), interval)
    ensures Chained(p.timestamp, Timestamps(Clean(raw, Some(p), interval).items), interval)
  {
    var c := raw[0];
    var rest := Clean(raw[1..], Some(c), interval);
    ImputeFills(c, p, interval);
    var imputed := Impute(c, p, interval).items;
    var e := Clean(raw, Some(p), interval);
    assert e.items == imputed + [c] + rest.items by {
      assert Impute(c, p, interval).failure.None?;
      assert ValidateCandle(c, Some(p)) == Pass;
    }
    TimestampsJoin(imputed, c, rest.items);
    ChainJoin(p.timestamp, Timestamps(imputed), c.timestamp, Timestamps(rest.items), interval);
  }

  /** One step of the cleaning loop when the candle is at most one interval after the
      previous one (or there is none): the candle, if valid, then the rest of the stream. */
  lemma {:induction false} CleanStepDirect(raw: seq<Candle>, prev: Option<Candle>, interval: int)
    requires interval > 0 && |raw| > 0
    requires prev.Some? ==> raw[0].timestamp != prev.value.timestamp
                            && raw[0].timestamp - prev.value.timestamp <= interval
    requires Chained(raw[0].timestamp, Timestamps(Clean(raw[1..], Some(raw[0]), interval).items), interval)
    ensures var e := Clean(raw, prev, interval);
            && (prev.Some? ==> Chained(prev.value.timestamp, Timestamps(e.items), interval))
            && (prev.None? && |e.items| > 0 ==> Chained(e.items[0].timestamp, Timestamps(e.items)[1..], interval)
                                                && BaseInitialTimestamp <= e.items[0].timestamp)
  {
    var c := raw[0];
    var e := Clean(raw, prev, interval);
    if ValidateCandle(c, prev).Pass? {
      var rest := Clean(raw[1..], Some(c), interval);
      assert e.items == [c] + rest.items;
      assert Timestamps(e.items) == [c.timestamp] + Timestamps(rest.items);
      assert Timestamps(e.items)[1..] == Timestamps(rest.items);
    }
  }

  /** The candles fetch_candles yields, starting after a valid previous candle (or none),
      strictly increase and are never more than one interval apart; the first one is
      not before the base initial timestamp. */
  lemma {:induction false} CleanChained(raw: seq<Candle>, prev: Option<Candle>, interval: int)
    requires interval > 0
    requires prev.Some? ==> BaseInitialTimestamp <= prev.value.timestamp
    ensures var e := Clean(raw, prev, interval);
            && (prev.Some? ==> Chained(prev.value.timestamp, Timestamps(e.items), interval))
            && (prev.None? && |e.items| > 0 ==> Chained(e.items[0].timestamp, Timestamps(e.items)[1..], interval)
                                                && BaseInitialTimestamp <= e.items[0].timestamp)
    decreases |raw|
  {
    if |raw| == 0 {
      return;
    }
    var c := raw[0];
    if prev.Some? && prev.value.timestamp == c.timestamp {
      CleanChained(raw[1..], prev, interval);
      return;
    }
    if ValidateCandle(c, prev).Fail? && !(prev.Some? && c.timestamp - prev.value.timestamp > interval) {
      return;
    }
    if prev.Some? && c.timestamp - prev.value.timestamp > interval {
      CleanChained(raw[1..], Some(c), interval);
      CleanStepImputed(raw, prev.value, interval);
    } else {
      CleanChained(raw[1..], Some(c), interval);
      CleanStepDirect(raw, prev, interval);
    }
  }

  /** What fetch_candles yields, taken pair by pair: each candle is strictly later than
      the one before and at most one interval later, and none precedes the base initial
      timestamp. */
  lemma {:induction false} FetchOrdered(client: Client, start: DateObj, end: DateObj,
                                        fetchRaw: (int, int) -> seq<Candle>)
    requires client.interval > 0
    ensures var e := Fetch(client, start, end, fetchRaw);
            && (forall k :: 0 < k < |e.items| ==>
                  e.items[k - 1].timestamp < e.items[k].timestamp <= e.items[k - 1].timestamp + client.interval)
            && (forall k :: 0 <= k < |e.items| ==> BaseInitialTimestamp <= e.items[k].timestamp)
  {
    var e := Fetch(client, start, end, fetchRaw);
    if |e.items| > 0 {
      var s := DateObjToTimestamp(start).value;
      var en := DateObjToTimestamp(end).value;
      var batches := ClientBatches(client, s, en).value;
      CleanChained(RawOf(batches, fetchRaw), None, client.interval);
      var ts := Timestamps(e.items);
      ChainedPairs(ts[0], ts[1..], client.interval);
      forall k | 0 < k < |e.items|
        ensures e.items[k - 1].timestamp < e.items[k].timestamp <= e.items[k - 1].timestamp + client.interval
        ensures BaseInitialTimestamp <= e.items[k].timestamp
      {
        assert ts[1..][k - 1] == ts[k];
        if k > 1 {
          assert ts[1..][k - 2] == ts[k - 1];
        }
      }
    }
  }

  /** A raw candle with the previous candle's timestamp is dropped without a trace. */
  lemma {:induction false} DuplicateDropped(raw: seq<Candle>, prev: Candle, interval: int)
    requires interval > 0 && |raw| > 0 && raw[0].timestamp == prev.timestamp
    ensures Clean(raw, Some(prev), interval) == Clean(raw[1..], Some(prev), interval)
  {
  }

  /** A raw candle earlier than the previous one stops the stream with ValueError,
      before anything else is yielded. */
  lemma {:induction false} OutOfOrderRaises(raw: seq<Candle>, prev: Candle, interval: int)
    requires interval > 0 && |raw| > 0 && raw[0].timestamp < prev.timestamp
    ensures Clean(raw, Some(prev), interval)
            == Emitted([], Some(NotAfterPrevious(raw[0].timestamp, prev.timestamp)))
  {
  }
}

/** Candle operations: folding a candle into a coarser timeframe, and the
    bookkeeping of the running RSI record. */
module CandleOperations {
  import opened Results
  import opened CandleTypes
  import opened CandleUtils

  /** candles.utils.morph_prev_timeseries_obj, which adapts the previous object to the
      incoming candle. Its definition is not part of this model, so it is a parameter. */
  type MorphCandle = (Candle, Candle) -> Candle
  type MorphRsi = (Candle, Rsi) -> Rsi

  function Max(a: real, b: real): (m: real)
    ensures m >= a && m >= b && (m == a || m == b)
  {
    if a < b then b else a
  }

  function Min(a: real, b: real): (m: real)
    ensures m <= a && m <= b && (m == a || m == b)
  {
    if a > b then b else a
  }

  /** The previous candle merge_candles invents when none is given: the candle itself,
      moved into the target timeframe and one candle length earlier. */
  function DefaultPrevCandle(candle: Candle, timeframe: Timeframe): (p: Candle)
    ensures p.baseTimeframe == candle.baseTimeframe && p.timeframe == timeframe
    ensures p.timestamp == candle.timestamp - Ms(candle.timeframe) && p.complete == candle.complete
    ensures p.open == candle.open && p.close == candle.close && p.high == candle.high && p.low == candle.low
  {
    Copy(candle, NoOverrides.(timeframe := Some(timeframe),
                              timestamp := Some(candle.timestamp - Ms(candle.timeframe))))
  }

  /** The previous candle after defaulting and morphing. */
  function MergeBase(candle: Candle, prev: Option<Candle>, timeframe: Timeframe, morph: MorphCandle): Candle {
    morph(candle, prev.GetOr(DefaultPrevCandle(candle, timeframe)))
  }

  /** merge_candles: fold `candle` into the candle of the coarser `timeframe` that is
      being built. */
  function MergeCandles(candle: Candle, timeframe: Timeframe, prev: Option<Candle>,
                        morph: MorphCandle): (r: Result<Candle, CandleError>)
    ensures r.Failure? <==> Ms(timeframe) < Ms(candle.timeframe)
    ensures r.Failure? ==> r.error == SmallerTimeframe(candle.timeframe, timeframe)
    ensures r.Success? ==>
              var m := r.value;
              var passed := TimePassedIntervalStart(candle.timestamp, Ms(timeframe));
              var p := MergeBase(candle, prev, timeframe, morph);
              && m.baseTimeframe == candle.baseTimeframe && m.timeframe == timeframe
              && m.timestamp == candle.timestamp && m.close == candle.close
              && (passed == 0 ==> m.open == candle.open && m.high == candle.high && m.low == candle.low)
              && (passed != 0 ==> m.open == p.open && m.high == Max(p.high, candle.high)
                                  && m.low == Min(p.low, candle.low))
  {
    if Ms(timeframe) < Ms(candle.timeframe) then
      Failure(SmallerTimeframe(candle.timeframe, timeframe))
    else
      var p := MergeBase(candle, prev, timeframe, morph);
      var passed := TimePassedIntervalStart(candle.timestamp, Ms(timeframe));
      if passed == 0 then
        Success(Copy(candle, NoOverrides.(baseTimeframe := Some(candle.baseTimeframe),
                                          timeframe := Some(timeframe),
                                          complete := Some(candle.timeframe == timeframe))))
      else
        Success(Copy(p, NoOverrides.(baseTimeframe := Some(candle.baseTimeframe),
                                     timeframe := Some(timeframe),
                                     timestamp := Some(candle.timestamp),
                                     close := Some(candle.close),
                                     high := Some(if p.high < candle.high then candle.high else p.high),
                                     low := Some(if p.low > candle.low then candle.low else p.low),
                                     complete := Some(passed + Ms(candle.timeframe) == Ms(timeframe)))))
  }

  /** The two branches of merge_candles agree on one completeness rule: the merged candle
      is complete exactly when the candle closes the target interval. */
  lemma {:induction false} MergeCompleteRule(candle: Candle, timeframe: Timeframe, prev: Option<Candle>,
                                             morph: MorphCandle)
    requires MergeCandles(candle, timeframe, prev, morph).Success?
    ensures MergeCandles(candle, timeframe, prev, morph).value.complete
            <==> TimePassedIntervalStart(candle.timestamp, Ms(timeframe)) + Ms(candle.timeframe) == Ms(timeframe)
  {
    var passed := TimePassedIntervalStart(candle.timestamp, Ms(timeframe));
    if passed == 0 {
      MsInjective(candle.timeframe, timeframe);
    }
  }

  /** Merging a candle into its own timeframe: a candle on the grid comes back
      unchanged and complete; a candle off the grid is never complete. */
  lemma {:induction false} MergeIntoSameTimeframe(candle: Candle, prev: Option<Candle>, morph: MorphCandle)
    ensures var r := MergeCandles(candle, candle.timeframe, prev, morph);
            && r.Success?
            && (TimePassedIntervalStart(candle.timestamp, Ms(candle.timeframe)) == 0 ==>
                  r.value == Candle(candle.baseTimeframe, candle.timeframe, candle.timestamp, true,
                                    candle.open, candle.close, candle.high, candle.low))
            && (TimePassedIntervalStart(candle.timestamp, Ms(candle.timeframe)) != 0 ==> !r.value.complete)
  {
    MergeCompleteRule(candle, candle.timeframe, prev, morph);
  }

  /** The merged high and low bound the candle's own high and low. */
  lemma {:induction false} MergeKeepsExtremes(candle: Candle, timeframe: Timeframe, prev: Option<Candle>,
                                              morph: MorphCandle)
    requires MergeCandles(candle, timeframe, prev, morph).Success?
    ensures MergeCandles(candle, timeframe, prev, morph).value.high >= candle.high
    ensures MergeCandles(candle, timeframe, prev, morph).value.low <= candle.low
  {
  }

  /** The smoothed averages and the RSI value of operations.py:72-77. Their float
      arithmetic is not part of this model; `Averages` carries their results. */
  datatype Averages = Averages(value: real, avgGain: real, avgLoss: real)
  type RsiFormula = (Rsi, real) -> Averages

  /** The previous RSI record calculate_rsi invents when none is given. */
  function DefaultPrevRsi(candle: Candle): (p: Rsi)
    ensures p == NewRsi(candle.baseTimeframe, candle.timeframe, candle.timestamp - Ms(candle.timeframe))
  {
    Rsi(candle.baseTimeframe, candle.timeframe, candle.timestamp - Ms(candle.timeframe),
        true, 0.0, 0.0, 0.0, 0.0, 0, 14)
  }

  /** calculate_rsi: advance the RSI record by one candle. `formula` stands for the
      average and value update, `round2` for round(..., 2). The update divides by the
      previous length, so a previous price with a length of 0 raises ZeroDivisionError. */
  function CalculateRsi(candle: Candle, prev: Option<Rsi>, morph: MorphRsi,
                        formula: RsiFormula, round2: real -> real): (r: Result<Rsi, CandleError>)
    ensures var p := morph(candle, prev.GetOr(DefaultPrevRsi(candle)));
            && (r.Failure? <==> p.price > 0.0 && p.length == 0)
            && (r.Failure? ==> r.error == ZeroLengthAverage)
            && (r.Success? ==>
                  && r.value.baseTimeframe == candle.baseTimeframe && r.value.timeframe == p.timeframe
                  && r.value.timestamp == candle.timestamp && r.value.complete == candle.complete
                  && r.value.maxLength == p.maxLength
                  && (candle.complete ==> r.value.price == candle.close
                                          && r.value.length == (if p.length < p.maxLength then p.length + 1 else p.maxLength))
                  && (!candle.complete ==> r.value.price == p.price && r.value.length == p.length)
                  && (p.price <= 0.0 ==> r.value.value == round2(p.value) && r.value.avgGain == p.avgGain
                                         && r.value.avgLoss == p.avgLoss)
                  && (p.price > 0.0 ==> var a := formula(p, candle.close);
                                       r.value.value == round2(a.value) && r.value.avgGain == a.avgGain
                                       && r.value.avgLoss == a.avgLoss))
  {
    var p := morph(candle, prev.GetOr(DefaultPrevRsi(candle)));
    if p.price > 0.0 && p.length == 0 then Failure(ZeroLengthAverage)
    else
      var a := if p.price > 0.0 then formula(p, candle.close) else Averages(p.value, p.avgGain, p.avgLoss);
      if candle.complete then
        Success(Copy(p, NoOverrides.(baseTimeframe := Some(candle.baseTimeframe),
                                     timestamp := Some(candle.timestamp),
                                     value := Some(round2(a.value)),
                                     price := Some(candle.close),
                                     avgGain := Some(a.avgGain),
                                     avgLoss := Some(a.avgLoss),
                                     length := Some(if p.length < p.maxLength then p.length + 1 else p.maxLength),
                                     complete := Some(candle.complete))))
      else
        Success(Copy(p, NoOverrides.(baseTimeframe := Some(candle.baseTimeframe),
                                     timestamp := Some(candle.timestamp),
                                     value := Some(round2(a.value)),
                                     avgGain := Some(a.avgGain),
                                     avgLoss := Some(a.avgLoss),
                                     complete := Some(candle.complete))))
  }

  /** Over a run of candles the RSI length never exceeds max_length once it is within it. */
  lemma {:induction false} RsiLengthBounded(candle: Candle, prev: Option<Rsi>, morph: MorphRsi,
                                            formula: RsiFormula, round2: real -> real)
    requires var p := morph(candle, prev.GetOr(DefaultPrevRsi(candle))); 0 <= p.length <= p.maxLength
    ensures var r := CalculateRsi(candle, prev, morph, formula, round2);
            r.Success? ==> 0 <= r.value.length <= r.value.maxLength
  {
  }
}

/** Timeframes, their units and the two time-series records (candles and RSI
    readings) of the candles package. */
module CandleTypes {
  import opened Results

  /** Every error the candles package raises, one constructor per raise site kind. */
  datatype CandleError =
    | UnknownUnit(character: char)                    // ValueError: unknown timeframe unit
    | SmallerTimeframe(from: Timeframe, into: Timeframe)  // ValueError: merge into a smaller timeframe
    | NotAfterPrevious(timestamp: int, previous: int)     // ValueError: timestamp not after the previous candle
    | BeforeBaseTimestamp(timestamp: int)         // ValueError: timestamp before the base initial timestamp
    | GapNotAboveInterval(timestamp: int, previous: int, interval: int)  // ValueError from impute_candles
    | InvalidDateObject                           // ValueError: dt_obj has invalid format
    | ZeroRangeStep                               // ValueError: range() arg 3 must not be zero
    | ZeroLengthAverage                           // ZeroDivisionError: averaging over an RSI of length 0
    | Raised(message: string)                     // an error raised by code outside this model

  /** The units a timeframe string may end in, with their length in milliseconds. */
  datatype TimeframeUnit = Minute | Hour | Day | Week {
    function Label(): char {
      match this
      case Minute => 'm'
      case Hour => 'h'
      case Day => 'D'
      case Week => 'W'
    }

    function Ms(): int {
      match this
      case Minute => 60_000
      case Hour => 3_600_000
      case Day => 86_400_000
      case Week => 604_800_000
    }
  }

  /** The members of TimeframeUnit in declaration (iteration) order. */
  const Units: seq<TimeframeUnit> := [Minute, Hour, Day, Week]

  /** The supported candle timeframes; each is identified by its string value. */
  datatype Timeframe = TF5m | TF15m | TF1h | TF4h | TF1D | TF1W {
    function Value(): string {
      match this
      case TF5m => "5m"
      case TF15m => "15m"
      case TF1h => "1h"
      case TF4h => "4h"
      case TF1D => "1D"
      case TF1W => "1W"
    }
  }

  /** The members of Timeframe in declaration (iteration) order. */
  const Timeframes: seq<Timeframe> := [TF5m, TF15m, TF1h, TF4h, TF1D, TF1W]

  predicate IsDigit(c: char) {
    '0' <= c <= '9'
  }

  /** Python's int() on a non-empty string of decimal digits. */
  function DecimalValue(s: string): (n: int)
    requires forall i :: 0 <= i < |s| ==> IsDigit(s[i])
    ensures n >= 0
    ensures |s| > 0 && s[0] != '0' ==> n > 0
  {
    if |s| == 0 then 0
    else
      var n0 := DecimalValue(s[..|s| - 1]);
      assert IsDigit(s[|s| - 1]);
      assert |s| > 1 && s[0] != '0' ==> s[..|s| - 1][0] != '0';
      n0 * 10 + (s[|s| - 1] as int - '0' as int)
  }

  /** The search of Timeframe.unit: the first unit, in enumeration order, whose label is `label`. */
  function FindUnit(c: char, units: seq<TimeframeUnit>): (r: Result<TimeframeUnit, CandleError>)
    ensures r.Failure? <==> forall u :: u in units ==> u.Label() != c
    ensures r.Failure? ==> r.error == UnknownUnit(c)
    ensures r.Success? ==> r.value in units && r.value.Label() == c
    ensures r.Success? ==> exists k :: 0 <= k < |units| && units[k] == r.value
                             && forall j :: 0 <= j < k ==> units[j].Label() != c
  {
    if |units| == 0 then Failure(UnknownUnit(c))
    else if units[0].Label() == c then Success(units[0])
    else
      var r := FindUnit(c, units[1..]);
      if r.Success? then
        ghost var k :| 0 <= k < |units[1..]| && units[1..][k] == r.value
                      && forall j :: 0 <= j < k ==> units[1..][j].Label() != c;
        assert units[k + 1] == r.value;
        assert forall j :: 0 <= j < k + 1 ==> units[j].Label() != c by {
          forall j | 0 <= j < k + 1 ensures units[j].Label() != c {
            if j > 0 { assert units[j] == units[1..][j - 1]; }
          }
        }
        r
      else
        assert forall u :: u in units[1..] ==> u.Label() != c;
        r
  }

  /** Timeframe.length: the number written before the unit character. */
  function Length(tf: Timeframe): (n: int)
    ensures n > 0
  {
    var v := tf.Value();
    DecimalValue(v[..|v| - 1])
  }

  /** Timeframe.unit: the unit named by the last character of the value. */
  function Unit(tf: Timeframe): (r: Result<TimeframeUnit, CandleError>)
    ensures r.Success? ==> r.value.Label() == tf.Value()[|tf.Value()| - 1]
    ensures r.Failure? ==> r.error == UnknownUnit(tf.Value()[|tf.Value()| - 1])
  {
    var v := tf.Value();
    FindUnit(v[|v| - 1], Units)
  }

  /** Every timeframe value ends in the label of a known unit, so Timeframe.unit never raises. */
  lemma {:induction false} UnitKnown(tf: Timeframe)
    ensures Unit(tf).Success?
  {
    var v := tf.Value();
    var u := match v[|v| - 1]
      case 'm' => Minute
      case 'h' => Hour
      case 'D' => Day
      case _ => Week;
    assert u in Units && u.Label() == v[|v| - 1];
  }

  /** Timeframe.ms: length times the unit's milliseconds. */
  function Ms(tf: Timeframe): (ms: int)
    ensures ms > 0
  {
    UnitKnown(tf);
    Length(tf) * Unit(tf).value.Ms()
  }

  /** min(Timeframe, key=ms) over a sequence: the first element of minimal ms. */
  function MinByMs(tfs: seq<Timeframe>): (m: Timeframe)
    requires |tfs| > 0
    ensures m in tfs
    ensures forall t :: t in tfs ==> Ms(m) <= Ms(t)
    ensures exists k :: 0 <= k < |tfs| && tfs[k] == m && forall j :: 0 <= j < k ==> Ms(m) < Ms(tfs[j])
  {
    if |tfs| == 1 then tfs[0]
    else
      var rest := MinByMs(tfs[1..]);
      assert forall t :: t in tfs ==> t == tfs[0] || t in tfs[1..];
      if Ms(rest) < Ms(tfs[0]) then
        ghost var k :| 0 <= k < |tfs[1..]| && tfs[1..][k] == rest
                      && forall j :: 0 <= j < k ==> Ms(rest) < Ms(tfs[1..][j]);
        assert tfs[k + 1] == rest;
        assert forall j :: 0 <= j < k + 1 ==> Ms(rest) < Ms(tfs[j]) by {
          forall j | 0 <= j < k + 1 ensures Ms(rest) < Ms(tfs[j]) {
            if j > 0 { assert tfs[j] == tfs[1..][j - 1]; }
          }
        }
        rest
      else
        tfs[0]
  }

  /** Timeframe.get_min_timeframe. */
  function GetMinTimeframe(): (m: Timeframe)
    ensures m in Timeframes
    ensures forall k :: 0 <= k < |Timeframes| ==> Ms(m) <= Ms(Timeframes[k])
  {
    MinByMs(Timeframes)
  }

  /** The millisecond length of every timeframe, written out. */
  function MsTable(tf: Timeframe): int {
    match tf
    case TF5m => 300_000
    case TF15m => 900_000
    case TF1h => 3_600_000
    case TF4h => 14_400_000
    case TF1D => 86_400_000
    case TF1W => 604_800_000
  }

  /** Timeframe.ms agrees with the table: the length parsed from the value times the unit's
      milliseconds (for instance "15m" has length 15 and unit m, so 15 * 60000). */
  lemma {:induction false} MsValues(tf: Timeframe)
    ensures Ms(tf) == MsTable(tf)
  {
    UnitKnown(tf);
    match tf
    case TF5m =>
      assert "5m"[..1] == "5" && "5"[..0] == "";
      assert Length(tf) == 5 && Unit(tf) == Success(Minute);
    case TF15m =>
      assert "15m"[..2] == "15" && "15"[..1] == "1" && "1"[..0] == "";
      assert Length(tf) == 15 && Unit(tf) == Success(Minute);
    case TF1h =>
      assert "1h"[..1] == "1" && "1"[..0] == "";
      assert Length(tf) == 1 && Unit(tf) == Success(Hour);
    case TF4h =>
      assert "4h"[..1] == "4" && "4"[..0] == "";
      assert Length(tf) == 4 && Unit(tf) == Success(Hour);
    case TF1D =>
      assert "1D"[..1] == "1" && "1"[..0] == "";
      assert Length(tf) == 1 && Unit(tf) == Success(Day);
    case TF1W =>
      assert "1W"[..1] == "1" && "1"[..0] == "";
      assert Length(tf) == 1 && Unit(tf) == Success(Week);
  }

  /** Distinct timeframes have distinct lengths in milliseconds. */
  lemma MsInjective(a: Timeframe, b: Timeframe)
    ensures Ms(a) == Ms(b) <==> a == b
  {
    MsValues(a);
    MsValues(b);
  }

  /** Among any timeframes that include 5m, the minimum by ms is 5m. */
  lemma MinByMsIs5m(tfs: seq<Timeframe>)
    requires TF5m in tfs
    ensures MinByMs(tfs) == TF5m
  {
    var m := MinByMs(tfs);
    MsValues(m);
    MsValues(TF5m);
  }

  /** The smallest timeframe is 5m, and it is strictly smaller than every other one. */
  lemma MinTimeframeIs5m()
    ensures GetMinTimeframe() == TF5m
  {
    MinByMsIs5m(Timeframes);
  }

  /** 5m is strictly shorter than every other timeframe. */
  lemma FiveMinutesShortest(t: Timeframe)
    ensures t != TF5m ==> Ms(TF5m) < Ms(t)
  {
    MsValues(t);
    MsValues(TF5m);
  }

  /** TimeseriesObject and its two dataclasses: Candle and RSI share the four base fields. */
  datatype TimeseriesObject =
    | Candle(baseTimeframe: Timeframe, timeframe: Timeframe, timestamp: int, complete: bool,
             open: real, close: real, high: real, low: real)
    | Rsi(baseTimeframe: Timeframe, timeframe: Timeframe, timestamp: int, complete: bool,
          value: real, price: real, avgGain: real, avgLoss: real, length: int, maxLength: int)

  type Candle = o: TimeseriesObject | o.Candle? witness Candle(TF5m, TF5m, 0, true, 0.0, 0.0, 0.0, 0.0)
  type Rsi = o: TimeseriesObject | o.Rsi? witness Rsi(TF5m, TF5m, 0, true, 0.0, 0.0, 0.0, 0.0, 0, 14)

  /** Candle(...) with only the base fields given: complete defaults to True, prices to 0. */
  function NewCandle(baseTimeframe: Timeframe, timeframe: Timeframe, timestamp: int): (c: Candle)
    ensures c.complete && c.open == c.close == c.high == c.low == 0.0
    ensures c.baseTimeframe == baseTimeframe && c.timeframe == timeframe && c.timestamp == timestamp
  {
    Candle(baseTimeframe, timeframe, timestamp, true, 0.0, 0.0, 0.0, 0.0)
  }

  /** RSI(...) with only the base fields given: the value and averages default to 0,
      length to 0 and max_length to 14. */
  function NewRsi(baseTimeframe: Timeframe, timeframe: Timeframe, timestamp: int): (r: Rsi)
    ensures r.complete && r.value == r.price == r.avgGain == r.avgLoss == 0.0
    ensures r.length == 0 && r.maxLength == 14
    ensures r.baseTimeframe == baseTimeframe && r.timeframe == timeframe && r.timestamp == timestamp
  {
    Rsi(baseTimeframe, timeframe, timestamp, true, 0.0, 0.0, 0.0, 0.0, 0, 14)
  }

  /** The keyword arguments of copy(**kwargs): Some(v) names a field to replace. */
  datatype Overrides = Overrides(
    baseTimeframe: Option<Timeframe>, timeframe: Option<Timeframe>, timestamp: Option<int>,
    complete: Option<bool>,
    open: Option<real>, close: Option<real>, high: Option<real>, low: Option<real>,
    value: Option<real>, price: Option<real>, avgGain: Option<real>, avgLoss: Option<real>,
    length: Option<int>, maxLength: Option<int>)

  const NoOverrides: Overrides :=
    Overrides(None, None, None, None, None, None, None, None, None, None, None, None, None, None)

  /** The overrides name only fields that the object's own dataclass has. */
  predicate FitsKind(o: TimeseriesObject, ov: Overrides) {
    if o.Candle? then
      ov.value.None? && ov.price.None? && ov.avgGain.None? && ov.avgLoss.None?
      && ov.length.None? && ov.maxLength.None?
    else
      ov.open.None? && ov.close.None? && ov.high.None? && ov.low.None?
  }

  /** TimeseriesObject.copy: a new object of the same kind with the overridden fields replaced. */
  function Copy(o: TimeseriesObject, ov: Overrides): (r: TimeseriesObject)
    requires FitsKind(o, ov)
    ensures r.Candle? == o.Candle?
    ensures r.baseTimeframe == ov.baseTimeframe.GetOr(o.baseTimeframe)
    ensures r.timeframe == ov.timeframe.GetOr(o.timeframe)
    ensures r.timestamp == ov.timestamp.GetOr(o.timestamp)
    ensures r.complete == ov.complete.GetOr(o.complete)
    ensures r.Candle? ==>
              (r.open == ov.open.GetOr(o.open) && r.close == ov.close.GetOr(o.close)
               && r.high == ov.high.GetOr(o.high) && r.low == ov.low.GetOr(o.low))
    ensures r.Rsi? ==>
              (r.value == ov.value.GetOr(o.value) && r.price == ov.price.GetOr(o.price)
               && r.avgGain == ov.avgGain.GetOr(o.avgGain) && r.avgLoss == ov.avgLoss.GetOr(o.avgLoss)
               && r.length == ov.length.GetOr(o.length) && r.maxLength == ov.maxLength.GetOr(o.maxLength))
  {
    match o
    case Candle(b, tf, ts, c, op, cl, hi, lo) =>
      Candle(ov.baseTimeframe.GetOr(b), ov.timeframe.GetOr(tf), ov.timestamp.GetOr(ts),
             ov.complete.GetOr(c), ov.open.GetOr(op), ov.close.GetOr(cl),
             ov.high.GetOr(hi), ov.low.GetOr(lo))
    case Rsi(b, tf, ts, c, v, p, g, l, n, mx) =>
      Rsi(ov.baseTimeframe.GetOr(b), ov.timeframe.GetOr(tf), ov.timestamp.GetOr(ts),
          ov.complete.GetOr(c), ov.value.GetOr(v), ov.price.GetOr(p), ov.avgGain.GetOr(g),
          ov.avgLoss.GetOr(l), ov.length.GetOr(n), ov.maxLength.GetOr(mx))
  }

  /** A copy without overrides equals the original; a copy that names only the
      timestamp differs from the original in the timestamp alone. */
  lemma CopyWithoutOverrides(o: TimeseriesObject, ts: int)
    ensures Copy(o, NoOverrides) == o
    ensures Copy(o, NoOverrides.(timestamp := Some(ts))) == o.(timestamp := ts)
  {
  }

  /** TimeseriesObject.start_timestamp. */
  function StartTimestamp(o: TimeseriesObject): (t: int)
    ensures t == o.timestamp
    ensures t < o.timestamp + Ms(o.timeframe)
  {
    o.timestamp
  }

  /** TimeseriesObject.end_timestamp: the start plus the timeframe length. */
  function EndTimestamp(o: TimeseriesObject): (t: int)
    ensures t > StartTimestamp(o)
    ensures t - StartTimestamp(o) == Ms(o.timeframe)
  {
    o.timestamp + Ms(o.timeframe)
  }
}

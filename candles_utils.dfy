/** Timestamp helpers of the candles package: grid alignment relative to the base
    initial timestamp, candle validation and the integer form of date objects. */
module CandleUtils {
  import opened Results
  import opened CandleTypes

  /** candles.globals.BASE_INITIAL_TIMESTAMP: the origin of the interval grid.
      Its value is defined outside the modelled files, so it is left unspecified. */
  const BaseInitialTimestamp: int

  /** Python's `a % b`: the remainder takes the sign of the divisor. For a positive
      divisor this is Dafny's Euclidean remainder. */
  function PyMod(a: int, b: int): (r: int)
    requires b != 0
    ensures b > 0 ==> 0 <= r < b && r == a % b
    ensures b < 0 ==> b < r <= 0
  {
    if b > 0 then a % b else -((-a) % (-b))
  }

  /** b * k is at least b when b and k are positive. */
  lemma {:induction false} MulAtLeast(b: int, k: int)
    requires b > 0 && k >= 1
    ensures b * k >= b
  {
    if k > 1 {
      MulAtLeast(b, k - 1);
      assert b * k == b * (k - 1) + b;
    }
  }

  /** The Euclidean remainder is the unique r in [0, b) with a == b * q + r. */
  lemma ModUnique(a: int, b: int, q: int, r: int)
    requires b > 0 && 0 <= r < b && a == b * q + r
    ensures a % b == r && a / b == q
  {
    var q2 := a / b;
    assert a == b * q2 + a % b;
    assert b * (q - q2) == a % b - r;
    if q > q2 {
      MulAtLeast(b, q - q2);
    } else if q < q2 {
      MulAtLeast(b, q2 - q);
    }
  }

  /** time_passed_interval_start: how far `timestamp` lies past the start of its
      interval on the grid anchored at the base initial timestamp. */
  function TimePassedIntervalStart(timestamp: int, interval: int): (r: int)
    requires interval != 0
    ensures interval > 0 ==> 0 <= r < interval
    ensures interval < 0 ==> interval < r <= 0
  {
    PyMod(timestamp - BaseInitialTimestamp, interval)
  }

  /** round_down_to_nearest_interval: the start of the grid interval holding `timestamp`. */
  function RoundDownToNearestInterval(timestamp: int, interval: int): (r: int)
    requires interval != 0
    ensures interval > 0 ==> r <= timestamp && timestamp - r < interval
  {
    timestamp - TimePassedIntervalStart(timestamp, interval)
  }

  /** Two timestamps a multiple of `interval` apart have the same time passed. */
  lemma {:induction false} TimePassedShift(t: int, interval: int, q: int)
    requires interval > 0
    ensures TimePassedIntervalStart(t + interval * q, interval) == TimePassedIntervalStart(t, interval)
  {
    var x := t - BaseInitialTimestamp;
    var d := x / interval;
    assert x == interval * d + x % interval;
    assert x + interval * q == interval * (d + q) + x % interval;
    ModUnique(x + interval * q, interval, d + q, x % interval);
  }

  /** A rounded timestamp lies on the grid, and rounding it again leaves it unchanged. */
  lemma {:induction false} RoundDownAligned(t: int, interval: int)
    requires interval > 0
    ensures TimePassedIntervalStart(RoundDownToNearestInterval(t, interval), interval) == 0
    ensures RoundDownToNearestInterval(RoundDownToNearestInterval(t, interval), interval)
            == RoundDownToNearestInterval(t, interval)
  {
    var x := t - BaseInitialTimestamp;
    var d := x / interval;
    assert x == interval * d + x % interval;
    var r := RoundDownToNearestInterval(t, interval);
    assert r - BaseInitialTimestamp == interval * d + 0;
    ModUnique(r - BaseInitialTimestamp, interval, d, 0);
  }

  /** validate_candle. A candle must come strictly after the previous one (when there
      is one) and must not precede the base initial timestamp; the ordering check
      comes first. The isinstance check is enforced by the Candle type. */
  function ValidateCandle(candle: Candle, prev: Option<Candle>): (r: Outcome<CandleError>)
    ensures r.Pass? <==> (prev.Some? ==> prev.value.timestamp < candle.timestamp)
                         && BaseInitialTimestamp <= candle.timestamp
    ensures prev.Some? && candle.timestamp <= prev.value.timestamp ==>
              r == Fail(NotAfterPrevious(candle.timestamp, prev.value.timestamp))
    ensures (prev.None? || prev.value.timestamp < candle.timestamp)
            && candle.timestamp < BaseInitialTimestamp ==>
              r == Fail(BeforeBaseTimestamp(candle.timestamp))
  {
    if prev.Some? && candle.timestamp - prev.value.timestamp <= 0 then
      Fail(NotAfterPrevious(candle.timestamp, prev.value.timestamp))
    else if candle.timestamp < BaseInitialTimestamp then
      Fail(BeforeBaseTimestamp(candle.timestamp))
    else
      Pass
  }

  /** The argument of dateobj_to_timestamp: an integer timestamp, or any object that
      is neither an int, a datetime nor a string. */
  datatype DateObj = IntObj(millis: int) | OtherObj

  /** dateobj_to_timestamp on its int branch and its error branch. */
  function DateObjToTimestamp(d: DateObj): (r: Result<int, CandleError>)
    ensures d.IntObj? <==> r.Success?
    ensures d.IntObj? ==> r.value == d.millis
    ensures d.OtherObj? ==> r.error == InvalidDateObject
  {
    match d
    case IntObj(n) => Success(n)
    case OtherObj => Failure(InvalidDateObject)
  }
}

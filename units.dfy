/**
 * The two unit helpers of the summary code: splitting an uptime in seconds into
 * days, hours and minutes, and choosing a decimal bit-rate unit for a byte rate.
 * Numbers are exact reals; the text rendering (`toFixed`, string concatenation)
 * is left abstract, so each helper returns the numbers it would print.
 */
module Units {

  /** JavaScript's `Math.floor(x)`. */
  function Floor(x: real): int {
    x.Floor
  }

  /** Truncation toward zero, as the `%` operator of JavaScript uses it. */
  function Trunc(x: real): int {
    if x >= 0.0 then x.Floor else -((-x).Floor)
  }

  /** JavaScript's `x % y` for a positive divisor: the sign follows the dividend. */
  function JsRemainder(x: real, y: real): (r: real)
    requires y > 0.0
  {
    x - y * Trunc(x / y) as real
  }

  /** What `getUptime` prints: `days + ' days, ' + hours + ':' + minutes`. */
  datatype UptimeParts = UptimeParts(days: int, hours: int, minutes: int)

  /** Seconds in the whole minutes an `UptimeParts` stands for. */
  function PartsSeconds(u: UptimeParts): int {
    u.days * 86400 + u.hours * 3600 + u.minutes * 60
  }

  /**
   * `getUptime`: floor division by a day, then the remainder split by the hour
   * and the minute. For a non-negative uptime the parts are a proper
   * days/hours/minutes reading that rounds the uptime down to the minute.
   */
  function Uptime(seconds: real): (u: UptimeParts)
    ensures seconds >= 0.0 ==> 0 <= u.days && 0 <= u.hours < 24 && 0 <= u.minutes < 60
    ensures seconds >= 0.0 ==> PartsSeconds(u) as real <= seconds < (PartsSeconds(u) + 60) as real
    ensures seconds < 0.0 ==> u.days < 0
  {
    var dayRest := JsRemainder(seconds, 86400.0);
    var hourRest := JsRemainder(dayRest, 3600.0);
    var u := UptimeParts(Floor(seconds / 86400.0), Floor(dayRest / 3600.0), Floor(hourRest / 60.0));
    if seconds >= 0.0 then
      assert 0.0 <= dayRest < 86400.0;
      assert 0.0 <= hourRest < 3600.0;
      u
    else
      u
  }

  /** Reading back a days/hours/minutes triple plus spare seconds gives the triple again. */
  lemma UptimeRoundTrip(u: UptimeParts, spare: real)
    requires 0 <= u.days && 0 <= u.hours < 24 && 0 <= u.minutes < 60
    requires 0.0 <= spare < 60.0
    ensures Uptime(PartsSeconds(u) as real + spare) == u
  {
    var s := PartsSeconds(u) as real + spare;
    var v := Uptime(s);
    SameMinute(Minutes(u), Minutes(v), s);
    SplitUnique(u, v);
  }

  /** The whole minutes an `UptimeParts` stands for. */
  function Minutes(u: UptimeParts): (m: int)
    ensures PartsSeconds(u) == 60 * m
  {
    u.days * 1440 + u.hours * 60 + u.minutes
  }

  /** Two minute counts that both round `s` down to the minute are equal. */
  lemma SameMinute(x: int, y: int, s: real)
    requires (60 * x) as real <= s < (60 * x + 60) as real
    requires (60 * y) as real <= s < (60 * y + 60) as real
    ensures x == y
  {
  }

  /** A number of seconds has only one days/hours/minutes split with hours below 24 and minutes below 60. */
  lemma SplitUnique(u: UptimeParts, v: UptimeParts)
    requires 0 <= u.hours < 24 && 0 <= u.minutes < 60
    requires 0 <= v.hours < 24 && 0 <= v.minutes < 60
    requires PartsSeconds(u) == PartsSeconds(v)
    ensures u == v
  {
    assert u.days == v.days;
    assert u.hours == v.hours;
  }

  /** The units `getBitsPerSec` chooses between. */
  datatype BitRateUnit = Gbps | Mbps | Kbps | Bps

  /** Bits per second in one of each unit. */
  function UnitScale(unit: BitRateUnit): real {
    match unit
    case Gbps => 1000000000.0
    case Mbps => 1000000.0
    case Kbps => 1000.0
    case Bps => 1.0
  }

  /** A rate as `getBitsPerSec` prints it: a number in a unit. */
  datatype BitRate = BitRate(value: real, unit: BitRateUnit)

  /**
   * `getBitsPerSec`: eight bits to the byte, then the largest 1000-based unit
   * the rate reaches. The printed number times its unit is the bit rate, and
   * in the Kb/s and Mb/s cases it lies in [1, 1000).
   */
  function BitsPerSec(bytes: real): (r: BitRate)
    ensures r.unit == Gbps <==> 8.0 * bytes >= 1000000000.0
    ensures r.unit == Mbps <==> 1000000.0 <= 8.0 * bytes < 1000000000.0
    ensures r.unit == Kbps <==> 1000.0 <= 8.0 * bytes < 1000000.0
    ensures r.unit == Bps <==> 8.0 * bytes < 1000.0
    ensures r.value * UnitScale(r.unit) == 8.0 * bytes
    ensures r.unit == Mbps || r.unit == Kbps ==> 1.0 <= r.value < 1000.0
    ensures r.unit == Gbps ==> r.value >= 1.0
  {
    var b := 8.0 * bytes;
    if b >= 1000000000.0 then BitRate(b / 1000000000.0, Gbps)
    else if b >= 1000000.0 then BitRate(b / 1000000.0, Mbps)
    else if b >= 1000.0 then BitRate(b / 1000.0, Kbps)
    else BitRate(b, Bps)
  }
}

/** Percentage changes between two prices, as the tracker computes them. */
module PriceChange {
  import opened Wrappers

  function Abs(x: real): real {
    if x < 0.0 then -x else x
  }

  /**
   * `(current - past) / past * 100`, or None instead of dividing by a zero
   * `past` (tracker.py:275-278; the intraday check at tracker.py:458-459
   * skips the asset in the same case).
   */
  function PercentChange(current: real, past: real): (r: Option<real>)
    ensures r.None? <==> past == 0.0
    ensures r.Some? ==> past + past * r.value / 100.0 == current
    ensures r.Some? && past > 0.0 ==> (r.value > 0.0 <==> current > past)
    ensures r.Some? && past < 0.0 ==> (r.value > 0.0 <==> current < past)
  {
    if past == 0.0 then None else Some((current - past) / past * 100.0)
  }

  /**
   * The daily change shown in the summary: the same percentage, but 0 when
   * the previous close is zero (tracker.py:367-368).
   */
  function DailyChangePct(current: real, prevClose: real): (r: real)
    ensures prevClose == 0.0 ==> r == 0.0
    ensures prevClose != 0.0 ==> prevClose + prevClose * r / 100.0 == current
  {
    var dailyChange := current - prevClose;
    if prevClose != 0.0 then dailyChange / prevClose * 100.0 else 0.0
  }
}

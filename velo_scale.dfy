/** The pixel width of the high-pass filter (`get_velo_scale`). */
module VeloScale {
  import opened Missing

  /** Python's `int()` on a float: truncation toward zero. */
  function Trunc(x: real): (t: int)
    ensures 0.0 <= x ==> 0 <= t && t as real <= x < t as real + 1.0
    ensures x < 0.0 ==> t <= 0 && t as real - 1.0 < x <= t as real
  {
    if x >= 0.0 then x.Floor else -((-x).Floor)
  }

  /** The high-pass width `hpWidth` (m/s) in pixels, given the velocity step
      of one pixel `dvelo` (m/s), made odd by adding one to an even count.
      A zero step makes the quotient infinite and `int()` raise: `None`. */
  function GetVeloScale(hpWidth: real, dvelo: real): (r: Option<int>)
    ensures r.Some? <==> dvelo != 0.0
    ensures r.Some? ==> r.value % 2 == 1
    ensures r.Some? ==> Trunc(hpWidth / dvelo) <= r.value <= Trunc(hpWidth / dvelo) + 1
  {
    if dvelo == 0.0 then None
    else
      var width := Trunc(hpWidth / dvelo);
      Some(if width % 2 == 0 then width + 1 else width)
  }
}

/** Floating-point values that may be missing, and the numpy reductions
    the other modules share. `None` stands for a non-finite float of the
    source (NaN, or an infinity produced by a division by zero); `Some(x)`
    for a finite value x. */
module Missing {

  datatype Option<+T> = None | Some(value: T)

  /** numpy's `nansum`: the sum of the finite entries, 0 when there are none. */
  function NanSum(s: seq<Option<real>>): real
  {
    if |s| == 0 then 0.0
    else (match s[0] case Some(x) => x case None => 0.0) + NanSum(s[1..])
  }

  /** Add a constant to a possibly missing value (NaN + c is NaN). */
  function AddTo(x: Option<real>, c: real): Option<real>
  {
    match x
    case Some(v) => Some(v + c)
    case None => None
  }

  /** Negate a possibly missing value. */
  function Negate(x: Option<real>): Option<real>
  {
    match x
    case Some(v) => Some(-v)
    case None => None
  }

  /** `n` copies of one value (numpy's `full`, `zeros`, `ones`). */
  function Fill<T>(n: nat, x: T): (r: seq<T>)
    ensures |r| == n && forall i :: 0 <= i < n ==> r[i] == x
  {
    seq(n, _ => x)
  }

  /** `np.ceil`, through the floor of the negation. */
  function Ceil(x: real): (c: int)
    ensures x <= c as real < x + 1.0
  {
    -((-x).Floor)
  }

  /** `np.min` */
  function MinOf(s: seq<real>): (m: real)
    requires |s| > 0
    ensures (exists i :: 0 <= i < |s| && s[i] == m) && forall i :: 0 <= i < |s| ==> m <= s[i]
  {
    if |s| == 1 then s[0]
    else
      var t := MinOf(s[1..]);
      assert forall i :: 1 <= i < |s| ==> s[i] == s[1..][i - 1];
      if s[0] <= t then s[0] else t
  }

  /** `np.max` */
  function MaxOf(s: seq<real>): (m: real)
    requires |s| > 0
    ensures (exists i :: 0 <= i < |s| && s[i] == m) && forall i :: 0 <= i < |s| ==> s[i] <= m
  {
    if |s| == 1 then s[0]
    else
      var t := MaxOf(s[1..]);
      assert forall i :: 1 <= i < |s| ==> s[i] == s[1..][i - 1];
      if s[0] >= t then s[0] else t
  }
}

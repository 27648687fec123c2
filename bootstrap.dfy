/** The two tests behind the first systemic velocity of `compute_rv`: whether
    the target is a Fabry-Perot source, and which archived exposure supplies
    the velocity when no new coarse estimate is made. */
module Bootstrap {

  /** `'FP' in object_science` */
  function ContainsFP(name: string): (b: bool)
    ensures b <==> exists i :: 0 <= i < |name| - 1 && name[i] == 'F' && name[i + 1] == 'P'
  {
    if |name| < 2 then false
    else if name[0] == 'F' && name[1] == 'P' then true
    else
      var b := ContainsFP(name[1..]);
      assert b ==> exists i :: 0 <= i < |name| - 1 && name[i] == 'F' && name[i + 1] == 'P' by {
        if b {
          var j :| 0 <= j < |name| - 2 && name[1..][j] == 'F' && name[1..][j + 1] == 'P';
          assert name[j + 1] == 'F' && name[j + 2] == 'P';
        }
      }
      assert (exists i :: 0 <= i < |name| - 1 && name[i] == 'F' && name[i + 1] == 'P') ==> b by {
        if exists i :: 0 <= i < |name| - 1 && name[i] == 'F' && name[i + 1] == 'P' {
          var i :| 0 <= i < |name| - 1 && name[i] == 'F' && name[i + 1] == 'P';
          assert i > 0;
          assert name[1..][i - 1] == 'F' && name[1..][i] == 'P';
        }
      }
      b
  }

  /** Slot `k` holds the latest date, and no earlier slot holds it. */
  ghost predicate LatestSlot(dates: seq<real>, k: nat)
  {
    k < |dates| && (forall i :: 0 <= i < |dates| ==> dates[i] <= dates[k]) &&
    forall i :: 0 <= i < k ==> dates[i] < dates[k]
  }

  /** `np.argmin(mjdate - mjdate_all)`: the first index of the smallest
      difference, which is the first index of the LATEST stored date, not
      the one closest to `mjdate`. */
  method ClosestSlot(mjdate: real, mjdateAll: array<real>) returns (k: nat)
    requires mjdateAll.Length > 0
    ensures LatestSlot(mjdateAll[..], k)
  {
    k := 0;
    var best := mjdate - mjdateAll[0];
    for i := 1 to mjdateAll.Length
      invariant k < i && best == mjdate - mjdateAll[k]
      invariant forall j :: 0 <= j < i ==> mjdateAll[j] <= mjdateAll[k]
      invariant forall j :: 0 <= j < k ==> mjdateAll[j] < mjdateAll[k]
    {
      if mjdate - mjdateAll[i] < best {
        k := i;
        best := mjdate - mjdateAll[i];
      }
    }
  }

  /** The slot chosen is the latest date even when an earlier stored date
      equals the current one: here slot 0 holds `mjdate` itself, yet slot 1
      is chosen. */
  method LatestNotClosest() returns (k: nat)
    ensures k == 1
  {
    var dates := new real[2];
    dates[0], dates[1] := 10.0, 20.0;
    k := ClosestSlot(10.0, dates);
  }
}

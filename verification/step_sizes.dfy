/** The tuner's step sizes (`dts`) and their sum, the quantity the
    convergence test compares with the tolerance. */
module StepSizes {

  /** The sum of the step sizes, added up from the first to the last. */
  function Sum(s: seq<real>): real
  {
    if |s| == 0 then 0.0 else Sum(s[..|s| - 1]) + s[|s| - 1]
  }

  /** `dtSum`: the running-total loop over the step sizes. */
  method DtSum(dts: seq<real>) returns (sum: real)
    ensures sum == Sum(dts)
  {
    sum := 0.0;
    var i := 0;
    while i < |dts|
      invariant 0 <= i <= |dts|
      invariant sum == Sum(dts[..i])
    {
      assert dts[..i + 1][..i] == dts[..i];
      sum := sum + dts[i];
      i := i + 1;
    }
    assert dts[..i] == dts;
  }

  /** Replacing one step size changes the sum by exactly the difference. */
  lemma {:induction false} SumUpdate(s: seq<real>, i: nat, v: real)
    requires i < |s|
    ensures Sum(s[i := v]) == Sum(s) - s[i] + v
  {
    var t := s[i := v];
    var last := |s| - 1;
    assert t[..last] == if i == last then s[..last] else s[..last][i := v];
    if i < last {
      SumUpdate(s[..last], i, v);
    }
  }

  /** Scaling a non-negative step by 1.1 never lowers the sum, and scaling
      it by 0.9 never raises it. */
  lemma ScalingMovesSum(s: seq<real>, i: nat)
    requires i < |s| && s[i] >= 0.0
    ensures Sum(s[i := s[i] * 1.1]) >= Sum(s)
    ensures Sum(s[i := s[i] * 0.9]) <= Sum(s)
  {
    SumUpdate(s, i, s[i] * 1.1);
    SumUpdate(s, i, s[i] * 0.9);
  }
}

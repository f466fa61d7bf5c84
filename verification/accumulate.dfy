/** What a round of `updateError` calls leaves in the accumulators. */
module Accumulate {
  import opened Twiddler

  /** Feeds the samples to `updateError` in order. */
  function UpdateAll(t: Tuner, samples: seq<real>): (r: Tuner)
    ensures SameSearch(t, r)
  {
    if |samples| == 0 then t
    else UpdateError(UpdateAll(t, samples[..|samples| - 1]), samples[|samples| - 1])
  }

  /** The sum of the samples' magnitudes. */
  function SumAbs(samples: seq<real>): real
  {
    if |samples| == 0 then 0.0
    else SumAbs(samples[..|samples| - 1]) + Abs(samples[|samples| - 1])
  }

  /** After a round of samples, the total is the previous total plus the sum
      of their magnitudes, the count has grown by their number, the maximum
      bounds every magnitude and is either the previous maximum or one of
      them, and the search state is untouched. */
  lemma {:induction false} RoundTotals(t: Tuner, samples: seq<real>)
    ensures SameSearch(t, UpdateAll(t, samples))
    ensures UpdateAll(t, samples).totalCte == t.totalCte + SumAbs(samples)
    ensures UpdateAll(t, samples).countCte == t.countCte + |samples|
    ensures UpdateAll(t, samples).maxCte >= t.maxCte
    ensures forall i :: 0 <= i < |samples| ==> UpdateAll(t, samples).maxCte >= Abs(samples[i])
    ensures UpdateAll(t, samples).maxCte == t.maxCte
            || exists i :: 0 <= i < |samples| && UpdateAll(t, samples).maxCte == Abs(samples[i])
  {
    if |samples| > 0 {
      var init := samples[..|samples| - 1];
      RoundTotals(t, init);
      var r := UpdateAll(t, samples);
      forall i | 0 <= i < |samples|
        ensures r.maxCte >= Abs(samples[i])
      {
        if i < |samples| - 1 {
          assert samples[i] == init[i];
        }
      }
      var prev := UpdateAll(t, init);
      if r.maxCte != t.maxCte {
        if r.maxCte == prev.maxCte {
          var j :| 0 <= j < |init| && prev.maxCte == Abs(init[j]);
          assert samples[j] == init[j];
        } else {
          assert r.maxCte == Abs(samples[|samples| - 1]);
        }
      }
    }
  }

  /** Two samples in either order leave the same tuner. */
  lemma UpdateErrorCommutes(t: Tuner, x: real, y: real)
    ensures UpdateError(UpdateError(t, x), y) == UpdateError(UpdateError(t, y), x)
  {
  }

  /** A sample can be moved from just after `p` to the very end. */
  lemma {:induction false} MoveToEnd(t: Tuner, p: seq<real>, x: real, q: seq<real>)
    ensures UpdateAll(t, p + q + [x]) == UpdateAll(t, p + [x] + q)
  {
    if |q| == 0 {
      assert p + q + [x] == p + [x] + q;
    } else {
      var q' := q[..|q| - 1];
      var y := q[|q| - 1];
      assert (p + q + [x])[..|p + q + [x]| - 1] == p + q;
      assert (p + q)[..|p + q| - 1] == p + q';
      assert (p + q' + [x])[..|p + q' + [x]| - 1] == p + q';
      assert (p + [x] + q)[..|p + [x] + q| - 1] == p + [x] + q';
      calc {
        UpdateAll(t, p + q + [x]);
        UpdateError(UpdateError(UpdateAll(t, p + q'), y), x);
        { UpdateErrorCommutes(UpdateAll(t, p + q'), y, x); }
        UpdateError(UpdateAll(t, p + q' + [x]), y);
        { MoveToEnd(t, p, x, q'); }
        UpdateError(UpdateAll(t, p + [x] + q'), y);
        UpdateAll(t, p + [x] + q);
      }
    }
  }

  /** The order of the samples does not matter: any rearrangement of the
      same samples leaves the same tuner. */
  lemma {:induction false} OrderIrrelevant(t: Tuner, a: seq<real>, b: seq<real>)
    requires multiset(a) == multiset(b)
    ensures UpdateAll(t, a) == UpdateAll(t, b)
  {
    if |a| > 0 {
      var a' := a[..|a| - 1];
      var x := a[|a| - 1];
      assert a == a' + [x];
      assert x in multiset(b);
      var k :| 0 <= k < |b| && b[k] == x;
      var p := b[..k];
      var q := b[k + 1..];
      assert b == p + [x] + q;
      Cancel(a', x, p, q);
      OrderIrrelevant(t, a', p + q);
      assert (p + q + [x])[..|p + q + [x]| - 1] == p + q;
      MoveToEnd(t, p, x, q);
    }
  }

  /** Taking the same element out of two equal multisets leaves equal
      multisets. */
  lemma Cancel(a: seq<real>, x: real, p: seq<real>, q: seq<real>)
    requires multiset(a + [x]) == multiset(p + [x] + q)
    ensures multiset(a) == multiset(p + q)
  {
    assert multiset(a + [x]) == multiset(a) + multiset{x};
    assert multiset(p + [x] + q) == multiset(p) + multiset{x} + multiset(q);
    assert multiset(p + q) == multiset(p) + multiset(q);
    forall e
      ensures multiset(a)[e] == multiset(p + q)[e]
    {
      assert (multiset(a) + multiset{x})[e] == (multiset(p + q) + multiset{x})[e];
    }
  }
}

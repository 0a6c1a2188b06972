/** `Extended.converge_to_O_dvh`: every dose-volume histogram is made to
    end with a zero count. A curve whose last count is not zero gets
    three more bins, at the last bin centre plus 0, 1 and 2, with count
    zero; a curve already ending at zero is returned as it is. */
module Dvh {
  import opened Common

  /** A DVH as the dose calculation returns it. */
  datatype Curve = Curve(bincenters: seq<real>, counts: seq<real>)

  /** What the padding rule reads without raising: a last count, and a
      last bin centre whenever that count is not zero. */
  predicate Convergeable(d: Curve)
  {
    |d.counts| > 0 && (Last(d.counts) != 0.0 ==> |d.bincenters| > 0)
  }

  /** The bins of `for i in range(3): tmp_bincenters.append(b + i)`. */
  function PaddingBins(b: real): (p: seq<real>)
    ensures |p| == 3
    ensures forall i :: 0 <= i < 3 ==> p[i] == b + i as real
  {
    seq(3, i requires 0 <= i < 3 => b + i as real)
  }

  function Converge(d: Curve): (r: Curve)
    requires Convergeable(d)
    ensures Convergeable(r) && Last(r.counts) == 0.0
    ensures |d.bincenters| <= |r.bincenters| && r.bincenters[..|d.bincenters|] == d.bincenters
    ensures |d.counts| <= |r.counts| && r.counts[..|d.counts|] == d.counts
    ensures |d.bincenters| == |d.counts| ==> |r.bincenters| == |r.counts|
  {
    if Last(d.counts) != 0.0 then
      Curve(d.bincenters + PaddingBins(Last(d.bincenters)), d.counts + [0.0, 0.0, 0.0])
    else
      d
  }

  /** A curve not ending at zero grows by exactly three bins: centres
      b, b+1, b+2 for the last centre b, each with count zero. */
  lemma ConvergePads(d: Curve)
    requires Convergeable(d) && Last(d.counts) != 0.0
    ensures var r, n, m := Converge(d), |d.bincenters|, |d.counts|;
      && |r.bincenters| == n + 3 && |r.counts| == m + 3
      && (forall i :: n <= i < n + 3 ==> r.bincenters[i] == d.bincenters[n - 1] + (i - n) as real)
      && (forall i :: m <= i < m + 3 ==> r.counts[i] == 0.0)
  {
  }

  /** A curve already ending at zero is left alone. */
  lemma ConvergeKeepsZeroEnded(d: Curve)
    requires |d.counts| > 0 && Last(d.counts) == 0.0
    ensures Converge(d) == d
  {
  }

  lemma ConvergeIdempotent(d: Curve)
    requires Convergeable(d)
    ensures Converge(Converge(d)) == Converge(d)
  {
  }

  ghost predicate NonDecreasing(s: seq<real>)
  {
    forall i, j :: 0 <= i < j < |s| ==> s[i] <= s[j]
  }

  /** Padding keeps the bin centres non-decreasing; the first added
      centre repeats the last one, so a strictly increasing axis does not
      stay strictly increasing. */
  lemma {:induction false} ConvergeKeepsOrder(d: Curve)
    requires Convergeable(d) && NonDecreasing(d.bincenters)
    ensures NonDecreasing(Converge(d).bincenters)
    ensures Last(d.counts) != 0.0 ==>
      Converge(d).bincenters[|d.bincenters|] == Converge(d).bincenters[|d.bincenters| - 1]
  {
    var r := Converge(d);
    if Last(d.counts) != 0.0 {
      var n := |d.bincenters|;
      var b := d.bincenters[n - 1];
      forall i, j | 0 <= i < j < |r.bincenters|
        ensures r.bincenters[i] <= r.bincenters[j]
      {
        if j >= n {
          assert r.bincenters[j] == b + (j - n) as real;
          if i >= n {
            assert r.bincenters[i] == b + (i - n) as real;
          } else {
            assert r.bincenters[i] == d.bincenters[i];
            assert i == n - 1 || d.bincenters[i] <= d.bincenters[n - 1];
          }
        } else {
          assert r.bincenters[i] == d.bincenters[i] && r.bincenters[j] == d.bincenters[j];
        }
      }
    }
  }

  /** The padding rule over the DVH of every ROI. */
  function ConvergeAll(dictDvh: map<int, Curve>): (res: map<int, Curve>)
    requires forall roi :: roi in dictDvh ==> Convergeable(dictDvh[roi])
    ensures res.Keys == dictDvh.Keys
    ensures forall roi :: roi in res ==> Convergeable(res[roi]) && Last(res[roi].counts) == 0.0
  {
    map roi | roi in dictDvh :: Converge(dictDvh[roi])
  }

  /** Applying the rule a second time changes no curve. */
  lemma ConvergeAllIdempotent(dictDvh: map<int, Curve>)
    requires forall roi :: roi in dictDvh ==> Convergeable(dictDvh[roi])
    ensures ConvergeAll(ConvergeAll(dictDvh)) == ConvergeAll(dictDvh)
  {
    var once := ConvergeAll(dictDvh);
    forall roi | roi in once
      ensures ConvergeAll(once)[roi] == once[roi]
    {
      ConvergeIdempotent(dictDvh[roi]);
    }
  }

  /** The worked case [5, 3, 1] at bins [10, 20, 30]. */
  lemma ConvergeExample()
    ensures Converge(Curve([10.0, 20.0, 30.0], [5.0, 3.0, 1.0]))
         == Curve([10.0, 20.0, 30.0, 30.0, 31.0, 32.0], [5.0, 3.0, 1.0, 0.0, 0.0, 0.0])
  {
    assert PaddingBins(30.0) == [30.0, 31.0, 32.0];
  }
}

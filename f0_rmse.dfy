/** The contour alignment and error computation of `extract_f0rmse` in
    `evaluation/f0_rmse.py`. The contours arrive already extracted (Praat's
    tracker is not part of this model); `log2`, `np.median`, `math.sqrt` and
    the DTW path are parameters. */
module F0Rmse {
  import opened Errors
  import opened Alignment
  import Utils

  /** The sum of squared element-wise differences. */
  function SumSquares(a: seq<real>, b: seq<real>): (r: real)
    requires |a| == |b|
    ensures r >= 0.0
  {
    if a == [] then 0.0
    else (a[0] - b[0]) * (a[0] - b[0]) + SumSquares(a[1..], b[1..])
  }

  /** `np.square(np.subtract(a, b)).mean()` on two equal-length arrays. */
  function Mse(a: seq<real>, b: seq<real>): (r: real)
    requires |a| == |b| && |a| > 0
    ensures r >= 0.0
  {
    SumSquares(a, b) / |a| as real
  }

  lemma {:induction false} SumSquaresSymmetric(a: seq<real>, b: seq<real>)
    requires |a| == |b|
    ensures SumSquares(a, b) == SumSquares(b, a)
  {
    if a != [] {
      SumSquaresSymmetric(a[1..], b[1..]);
    }
  }

  /** The error is a symmetric distance. */
  lemma MseSymmetric(a: seq<real>, b: seq<real>)
    requires |a| == |b| && |a| > 0
    ensures Mse(a, b) == Mse(b, a)
  {
    SumSquaresSymmetric(a, b);
  }

  /** Identical sequences are at distance zero. */
  lemma {:induction false} SumSquaresSelf(a: seq<real>)
    ensures SumSquares(a, a) == 0.0
  {
    if a != [] {
      SumSquaresSelf(a[1..]);
    }
  }

  /** The contours after the optional median centring: with `needMean`
      each becomes the cents of its voiced frames, less their median. */
  function Contours(f0Ref: seq<real>, f0Deg: seq<real>, needMean: bool,
                    log2: real -> real, median: seq<real> -> real): (r: (seq<real>, seq<real>))
    ensures needMean ==> |r.0| == |Utils.Voiced(f0Ref)| && |r.1| == |Utils.Voiced(f0Deg)|
    ensures needMean ==>
      var centsRef, centsDeg := Utils.GetCents(f0Ref, log2), Utils.GetCents(f0Deg, log2);
      && (forall i :: 0 <= i < |r.0| ==> r.0[i] == centsRef[i] - median(centsRef))
      && (forall i :: 0 <= i < |r.1| ==> r.1[i] == centsDeg[i] - median(centsDeg))
    ensures !needMean ==> r == (f0Ref, f0Deg)
  {
    if needMean then
      (Utils.GetPitchSubMedian(f0Ref, log2, median), Utils.GetPitchSubMedian(f0Deg, log2, median))
    else (f0Ref, f0Deg)
  }

  /** Lines 77-110 of `extract_f0rmse`: centring, the silence guard, the
      alignment chosen by the `method` argument (`strategy` here), then the
      root of the mean squared error.
      Any method other than `cut` and `dtw` leaves the contours as they are, and
      numpy then fails on contours of different lengths. */
  method ExtractF0Rmse(f0Ref: seq<real>, f0Deg: seq<real>, strategy: string, needMean: bool,
                       log2: real -> real, median: seq<real> -> real, dtw: Dtw,
                       sqrt: real -> real)
    returns (r: Result<real>)
    requires IsDtw(dtw)
    ensures var (a, b) := Contours(f0Ref, f0Deg, needMean, log2, median);
            && (Min(|a|, |b|) <= 1 ==> r == Ok(0.0))
            && (Min(|a|, |b|) > 1 && strategy == "cut" ==>
                  var (ca, cb) := Cut(a, b); r == Ok(sqrt(Mse(ca, cb))))
            && (Min(|a|, |b|) > 1 && strategy == "dtw" ==>
                  var (wa, wb) := Warp(a, b, dtw(a, b)); r == Ok(sqrt(Mse(wa, wb))))
            && (Min(|a|, |b|) > 1 && strategy != "cut" && strategy != "dtw" ==>
                  r == if |a| == |b| then Ok(sqrt(Mse(a, b))) else Err(ShapeMismatch))
  {
    var a, b := f0Ref, f0Deg;
    if needMean {
      a := Utils.GetPitchSubMedian(a, log2, median);
      b := Utils.GetPitchSubMedian(b, log2, median);
    }
    var minLength := Min(|a|, |b|);
    if minLength <= 1 {
      return Ok(0.0);
    }
    if strategy == "cut" {
      var length := Min(|a|, |b|);
      a, b := a[..length], b[..length];
    } else if strategy == "dtw" {
      var wp := dtw(a, b);
      a, b := DtwAlign(a, b, wp);
    }
    if |a| != |b| {
      return Err(ShapeMismatch);
    }
    var mse := Mse(a, b);
    r := Ok(sqrt(mse));
  }

  /** With the `cut` strategy, swapping reference and degraded contour does
      not change the error. */
  lemma CutErrorSymmetric(a: seq<real>, b: seq<real>)
    requires Min(|a|, |b|) > 0
    ensures var (ca, cb) := Cut(a, b);
            var (cb', ca') := Cut(b, a);
            Mse(ca, cb) == Mse(cb', ca')
  {
    var (ca, cb) := Cut(a, b);
    MseSymmetric(ca, cb);
  }
}

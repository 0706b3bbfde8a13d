/** The two length-alignment strategies shared by `evaluation/f0_rmse.py`
    (on pitch contours) and `evaluation/pesq.py` (on audio samples).

    The warping path comes from `librosa.sequence.dtw`, which is outside the
    model: a DTW function is a parameter, of which the model assumes only that
    for two non-empty inputs it returns a non-empty path of in-bounds index
    pairs. Its order and its optimality are not used. */
module Alignment {
  import opened Errors

  /** A warping path: pairs `(reference index, degraded index)`. */
  type Path = seq<(nat, nat)>

  type Dtw = (seq<real>, seq<real>) -> Path

  predicate InBounds(wp: Path, n: nat, m: nat)
  {
    forall i :: 0 <= i < |wp| ==> wp[i].0 < n && wp[i].1 < m
  }

  /** What is assumed of `librosa.sequence.dtw(x, y, backtrack=True)[1]`. */
  ghost predicate IsDtw(dtw: Dtw)
  {
    forall x: seq<real>, y: seq<real> :: |x| > 0 && |y| > 0 ==>
      |dtw(x, y)| > 0 && InBounds(dtw(x, y), |x|, |y|)
  }

  /** `min(a, b)`. */
  function Min(a: int, b: int): int
  {
    if a <= b then a else b
  }

  /** The `cut` strategy: both sequences truncated to the shorter length. */
  function Cut<T>(a: seq<T>, b: seq<T>): (r: (seq<T>, seq<T>))
    ensures |r.0| == |r.1| == Min(|a|, |b|)
    ensures r.0 <= a && r.1 <= b
  {
    var n := Min(|a|, |b|);
    (a[..n], b[..n])
  }

  /** Truncating sequences of equal length changes nothing. */
  lemma CutEqual<T>(a: seq<T>, b: seq<T>)
    requires |a| == |b|
    ensures Cut(a, b) == (a, b)
  {
    assert a[..|a|] == a && b[..|b|] == b;
  }

  function Firsts(wp: Path): (r: seq<nat>)
  {
    seq(|wp|, i requires 0 <= i < |wp| => wp[i].0)
  }

  function Seconds(wp: Path): (r: seq<nat>)
  {
    seq(|wp|, i requires 0 <= i < |wp| => wp[i].1)
  }

  /** The elements of `s` at the positions `idx`, in the order of `idx`. */
  function Gather<T>(s: seq<T>, idx: seq<nat>): (r: seq<T>)
    requires forall i :: 0 <= i < |idx| ==> idx[i] < |s|
    ensures |r| == |idx|
    ensures forall i :: 0 <= i < |idx| ==> r[i] == s[idx[i]]
  {
    if idx == [] then []
    else Gather(s, idx[..|idx| - 1]) + [s[idx[|idx| - 1]]]
  }

  /** The `dtw` strategy: the projection of the warping path onto both inputs. */
  function Warp<T>(a: seq<T>, b: seq<T>, wp: Path): (r: (seq<T>, seq<T>))
    requires InBounds(wp, |a|, |b|)
    ensures |r.0| == |r.1| == |wp|
    ensures forall i :: 0 <= i < |wp| ==> r.0[i] == a[wp[i].0] && r.1[i] == b[wp[i].1]
  {
    (Gather(a, Firsts(wp)), Gather(b, Seconds(wp)))
  }

  /** The loop over the path steps, appending one element to each output. */
  method DtwAlign<T>(a: seq<T>, b: seq<T>, wp: Path) returns (outA: seq<T>, outB: seq<T>)
    requires InBounds(wp, |a|, |b|)
    ensures (outA, outB) == Warp(a, b, wp)
  {
    outA, outB := [], [];
    var i := 0;
    while i < |wp|
      invariant 0 <= i <= |wp|
      invariant |outA| == |outB| == i
      invariant forall k :: 0 <= k < i ==> outA[k] == a[wp[k].0] && outB[k] == b[wp[k].1]
    {
      var (aIndex, bIndex) := wp[i];
      outA := outA + [a[aIndex]];
      outB := outB + [b[bIndex]];
      i := i + 1;
    }
    var w := Warp(a, b, wp);
    assert outA == w.0 && outB == w.1;
  }
}

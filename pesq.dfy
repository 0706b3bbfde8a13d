/** The resampling decision and length alignment of `extract_pesq` in
    `evaluation/pesq.py`. Loading, resampling, the DTW path and the PESQ
    score itself (ITU-T P.862, computed by `pypesq`) are parameters. */
module Pesq {
  import opened Errors
  import opened Alignment

  /** The only rate the PESQ scorer is given. */
  const PesqRate: nat := 16000

  type Resampler = (seq<real>, nat, nat) -> seq<real>

  /** A signal at rate `sr` brought to 16 kHz: resampled exactly when its
      rate differs. */
  function AtPesqRate(audio: seq<real>, sr: nat, resample: Resampler): (r: seq<real>)
    ensures sr == PesqRate ==> r == audio
    ensures sr != PesqRate ==> r == resample(audio, sr, PesqRate)
  {
    if sr != PesqRate then resample(audio, sr, PesqRate) else audio
  }

  /** The alignment step: signals of equal length pass through whatever the
      method; otherwise `cut` truncates, `dtw` projects the warping path, and
      any other method leaves both signals as they are. There is no guard for
      short signals. */
  function PesqAlignment(ref: seq<real>, deg: seq<real>, strategy: string, dtw: Dtw)
    : (r: Result<(seq<real>, seq<real>)>)
    requires IsDtw(dtw)
    ensures |ref| == |deg| ==> r == Ok((ref, deg))
    ensures |ref| != |deg| && strategy == "cut" ==>
      && r.Ok? && |r.value.0| == |r.value.1| == Min(|ref|, |deg|)
      && r.value.0 <= ref && r.value.1 <= deg
    ensures |ref| != |deg| && strategy == "dtw" && |ref| > 0 && |deg| > 0 ==>
      var wp := dtw(ref, deg);
      && r.Ok? && |r.value.0| == |r.value.1| == |wp|
      && forall i :: 0 <= i < |wp| ==>
           r.value.0[i] == ref[wp[i].0] && r.value.1[i] == deg[wp[i].1]
    ensures |ref| != |deg| && strategy == "dtw" && (|ref| == 0 || |deg| == 0) ==>
      r == Err(DtwFailure)
    ensures |ref| != |deg| && strategy != "cut" && strategy != "dtw" ==> r == Ok((ref, deg))
  {
    if |ref| == |deg| then Ok((ref, deg))
    else if strategy == "cut" then Ok(Cut(ref, deg))
    else if strategy == "dtw" then
      if |ref| == 0 || |deg| == 0 then Err(DtwFailure)
      else Ok(Warp(ref, deg, dtw(ref, deg)))
    else Ok((ref, deg))
  }

  /** Without a guard for short signals, cutting against an empty signal
      leaves two empty signals for the scorer. */
  lemma CutAgainstEmpty(ref: seq<real>, deg: seq<real>, dtw: Dtw)
    requires IsDtw(dtw)
    requires (|ref| == 0) != (|deg| == 0)
    ensures PesqAlignment(ref, deg, "cut", dtw) == Ok(([], []))
  {
  }

  /** `extract_pesq` from line 25 on: resample, align, score at 16 kHz. */
  method ExtractPesq(refAudio: seq<real>, refSr: nat, degAudio: seq<real>, degSr: nat,
                     strategy: string, resample: Resampler, dtw: Dtw,
                     pesq: (seq<real>, seq<real>, nat) -> real)
    returns (r: Result<real>)
    requires IsDtw(dtw)
    ensures var aligned := PesqAlignment(AtPesqRate(refAudio, refSr, resample),
                                         AtPesqRate(degAudio, degSr, resample), strategy, dtw);
            && (aligned.Err? ==> r == Err(aligned.error))
            && (aligned.Ok? ==> r == Ok(pesq(aligned.value.0, aligned.value.1, PesqRate)))
  {
    var a, b := refAudio, degAudio;
    if refSr != PesqRate {
      a := resample(a, refSr, PesqRate);
    }
    if degSr != PesqRate {
      b := resample(b, degSr, PesqRate);
    }
    var fs := PesqRate;
    if |a| != |b| {
      if strategy == "cut" {
        var length := Min(|a|, |b|);
        a, b := a[..length], b[..length];
      } else if strategy == "dtw" {
        if |a| == 0 || |b| == 0 {
          return Err(DtwFailure);
        }
        var wp := dtw(a, b);
        a, b := DtwAlign(a, b, wp);
      }
    }
    r := Ok(pesq(a, b, fs));
  }
}

/** The orchestration loop of `main.py`: configuration checks, the path of
    each synthesised file, and one result record per manifest line.

    Every extractor is a parameter. The PESQ and F0 extractors report their
    own failures (their models are `Pesq.ExtractPesq` and
    `F0Rmse.ExtractF0Rmse`); the model-backed ones (speaker similarity, the
    recognisers, MCD, UTMOS) are taken to return a value. File reading and
    JSON encoding are not modelled: a manifest line arrives as a map from
    field name to string, a result line leaves as a map from key to value. */
module Evaluate {
  import opened Errors
  import Wer

  /** The command-line options `main` uses. */
  datatype Config = Config(
    wavDir: string, strategy: string, lang: string, device: string, simModel: string)

  /** The three `assert`s at the start of `main`. */
  predicate ValidConfig(cfg: Config): (b: bool)
    ensures b <==> && cfg.lang in ["zh", "en"]
                   && cfg.strategy in ["cut", "dtw"]
                   && cfg.simModel in ["eres2net", "wavlm"]
  {
    && (cfg.lang == "zh" || cfg.lang == "en")
    && (cfg.strategy == "cut" || cfg.strategy == "dtw")
    && (cfg.simModel == "eres2net" || cfg.simModel == "wavlm")
  }

  /** The external scorers and recognisers. */
  datatype Extractors = Extractors(
    pesq: (string, string, string) -> Result<real>,   // (ref wav, deg wav, method)
    simWavlm: (string, string, string) -> real,       // (ref wav, deg wav, device)
    simEres2net: (string, string, string) -> real,    // (ref wav, deg wav, lang)['score']
    f0Rmse: (string, string, string) -> Result<real>, // (ref wav, deg wav, method)
    inferZh: string -> string,
    inferEn: string -> string,
    matcher: Wer.SequenceMatcher,
    mcd: (string, string) -> real,
    utmos: (string, string, string) -> real)          // (ref wav, deg wav, device)

  datatype Json = Num(x: real) | Int(n: int) | Str(s: string)

  type Record = map<string, Json>

  /** The keys of every result line; `cor` from `get_wer` is not among them. */
  const ResultKeys: set<string> :=
    {"gen_wav", "pesq", "cos_sim", "f0_rmse", "wer", "ref", "hyp", "del", "sub", "ins", "mcd", "utmos"}

  /** `f'{wav_dir}/{out_key}.wav'`. */
  function DegradedPath(wavDir: string, outKey: string): (p: string)
    ensures |p| == |wavDir| + |outKey| + 5
    ensures p[..|wavDir|] == wavDir && p[|wavDir|] == '/'
    ensures p[|wavDir| + 1..|p| - 4] == outKey && p[|p| - 4..] == ".wav"
  {
    wavDir + "/" + outKey + ".wav"
  }

  /** The recogniser `main` picks for `lang`. `main` tests `zh` and then
      `en`; an unlisted language would leave `wer_` unbound there. Only
      `RunEvaluation` reaches this, after `ValidConfig`, so the `else` branch
      is the `en` one. */
  function Recognise(ex: Extractors, lang: string, degWav: string): (r: string)
    ensures lang == "zh" ==> r == ex.inferZh(degWav)
    ensures lang != "zh" ==> r == ex.inferEn(degWav)
  {
    if lang == "zh" then ex.inferZh(degWav) else ex.inferEn(degWav)
  }

  /** The speaker-similarity model `main` picks for `sim_model`. `main` tests
      `wavlm` and then `eres2net`; an unlisted model would leave `cos_sim`
      unbound there. Only `RunEvaluation` reaches this, after `ValidConfig`,
      so the `else` branch is the `eres2net` one. */
  function Similarity(ex: Extractors, cfg: Config, refWav: string, degWav: string): (r: real)
    ensures cfg.simModel == "wavlm" ==> r == ex.simWavlm(refWav, degWav, cfg.device)
    ensures cfg.simModel != "wavlm" ==> r == ex.simEres2net(refWav, degWav, cfg.lang)
  {
    if cfg.simModel == "wavlm" then ex.simWavlm(refWav, degWav, cfg.device)
    else ex.simEres2net(refWav, degWav, cfg.lang)
  }

  /** `result_dict`, filled key by key in the order `main` fills it. */
  function Assemble(degWav: string, pesq: real, cosSim: real, f0Rmse: real,
                    report: Wer.WerReport, mcd: real, utmos: real): (rec: Record)
    ensures rec.Keys == ResultKeys
    ensures rec["gen_wav"] == Str(degWav) && rec["pesq"] == Num(pesq)
    ensures rec["cos_sim"] == Num(cosSim) && rec["f0_rmse"] == Num(f0Rmse)
    ensures rec["wer"] == Num(report.wer) && rec["ref"] == Str(report.ref)
    ensures rec["hyp"] == Str(report.hyp) && rec["del"] == Int(report.del)
    ensures rec["sub"] == Int(report.sub) && rec["ins"] == Int(report.ins)
    ensures rec["mcd"] == Num(mcd) && rec["utmos"] == Num(utmos)
  {
    map["gen_wav" := Str(degWav)]["pesq" := Num(pesq)]["cos_sim" := Num(cosSim)]
       ["f0_rmse" := Num(f0Rmse)]["wer" := Num(report.wer)]["ref" := Str(report.ref)]
       ["hyp" := Str(report.hyp)]["del" := Int(report.del)]["sub" := Int(report.sub)]
       ["ins" := Int(report.ins)]["mcd" := Num(mcd)]["utmos" := Num(utmos)]
  }

  /** The record `main` writes for one manifest line, or the exception that
      ends the run at that line. Meaningful for a configuration that passes
      `ValidConfig`, the only one `RunEvaluation` hands on. */
  function RecordFor(cfg: Config, ex: Extractors, line: map<string, string>): (r: Result<Record>)
    ensures r.Ok? ==> r.value.Keys == ResultKeys
    ensures r.Ok? <==>
      && "text" in line && "gt_wav" in line && "out_key" in line
      && ex.pesq(line["gt_wav"], DegradedPath(cfg.wavDir, line["out_key"]), cfg.strategy).Ok?
      && ex.f0Rmse(line["gt_wav"], DegradedPath(cfg.wavDir, line["out_key"]), cfg.strategy).Ok?
      && Wer.Normalize(line["text"], cfg.lang) != []
  {
    if "text" !in line then Err(KeyError("text"))
    else if "gt_wav" !in line then Err(KeyError("gt_wav"))
    else if "out_key" !in line then Err(KeyError("out_key"))
    else
      var refWav := line["gt_wav"];
      var degWav := DegradedPath(cfg.wavDir, line["out_key"]);
      var pesq := ex.pesq(refWav, degWav, cfg.strategy);
      var f0Rmse := ex.f0Rmse(refWav, degWav, cfg.strategy);
      var report := Wer.WerOf(line["text"], Recognise(ex, cfg.lang, degWav), cfg.lang, ex.matcher);
      if pesq.Err? then Err(pesq.error)
      else if f0Rmse.Err? then Err(f0Rmse.error)
      else if report.Err? then Err(report.error)
      else Ok(Assemble(degWav, pesq.value, Similarity(ex, cfg, refWav, degWav), f0Rmse.value,
                       report.value, ex.mcd(refWav, degWav), ex.utmos(refWav, degWav, cfg.device)))
  }

  /** `cor`, which `get_wer` also reports, never reaches a result line. */
  lemma RecordDropsCor(cfg: Config, ex: Extractors, line: map<string, string>)
    requires RecordFor(cfg, ex, line).Ok?
    ensures "cor" !in RecordFor(cfg, ex, line).value
  {
  }

  /** Which exception ends the run at a failing line: the first of the
      missing `text`, `gt_wav` and `out_key` fields, in that order, then the
      PESQ error, then the F0-RMSE error, then the division by zero of
      `get_wer` on an empty cleaned reference. */
  lemma RecordFailure(cfg: Config, ex: Extractors, line: map<string, string>)
    requires RecordFor(cfg, ex, line).Err?
    ensures var e := RecordFor(cfg, ex, line).error;
      if "text" !in line then e == KeyError("text")
      else if "gt_wav" !in line then e == KeyError("gt_wav")
      else if "out_key" !in line then e == KeyError("out_key")
      else
        var degWav := DegradedPath(cfg.wavDir, line["out_key"]);
        var pesq := ex.pesq(line["gt_wav"], degWav, cfg.strategy);
        var f0Rmse := ex.f0Rmse(line["gt_wav"], degWav, cfg.strategy);
        if pesq.Err? then e == pesq.error
        else if f0Rmse.Err? then e == f0Rmse.error
        else e == ZeroDivision
  {
  }

  /** How a written record is wired: the degraded path, the one alignment
      method shared by PESQ and F0-RMSE, and the language shared by the
      recogniser and the text cleaner. */
  lemma RecordWiring(cfg: Config, ex: Extractors, line: map<string, string>)
    requires RecordFor(cfg, ex, line).Ok?
    ensures "text" in line && "gt_wav" in line && "out_key" in line
    ensures var rec := RecordFor(cfg, ex, line).value;
            var degWav := DegradedPath(cfg.wavDir, line["out_key"]);
            var refWav := line["gt_wav"];
            var pesq := ex.pesq(refWav, degWav, cfg.strategy);
            var f0Rmse := ex.f0Rmse(refWav, degWav, cfg.strategy);
            var hyp := Recognise(ex, cfg.lang, degWav);
            var report := Wer.WerOf(line["text"], hyp, cfg.lang, ex.matcher);
            && pesq.Ok? && f0Rmse.Ok? && report.Ok?
            && rec["gen_wav"] == Str(degWav)
            && rec["pesq"] == Num(pesq.value)
            && rec["f0_rmse"] == Num(f0Rmse.value)
            && rec["wer"] == Num(report.value.wer)
            && rec["ref"] == Str(Wer.Normalize(line["text"], cfg.lang))
            && rec["hyp"] == Str(Wer.Normalize(hyp, cfg.lang))
            && rec["del"] == Int(report.value.del)
            && rec["sub"] == Int(report.value.sub)
            && rec["ins"] == Int(report.value.ins)
            && rec["cos_sim"] == Num(Similarity(ex, cfg, refWav, degWav))
            && rec["mcd"] == Num(ex.mcd(refWav, degWav))
            && rec["utmos"] == Num(ex.utmos(refWav, degWav, cfg.device))
  {
    var degWav := DegradedPath(cfg.wavDir, line["out_key"]);
    var hyp := Recognise(ex, cfg.lang, degWav);
    Wer.WerOfReport(line["text"], hyp, cfg.lang, ex.matcher);
  }

  /** The body of `main`'s loop for one manifest line: reads the fields,
      then fills the record key by key, stopping at the first exception. */
  method EvaluateLine(cfg: Config, ex: Extractors, line: map<string, string>)
    returns (r: Result<Record>)
    ensures r == RecordFor(cfg, ex, line)
  {
    if "text" !in line {
      return Err(KeyError("text"));
    }
    var refText := line["text"];
    if "gt_wav" !in line {
      return Err(KeyError("gt_wav"));
    }
    var audioRef := line["gt_wav"];
    if "out_key" !in line {
      return Err(KeyError("out_key"));
    }
    var audioDeg := DegradedPath(cfg.wavDir, line["out_key"]);
    var result: Record := map["gen_wav" := Str(audioDeg)];

    var pesq :- ex.pesq(audioRef, audioDeg, cfg.strategy);
    result := result["pesq" := Num(pesq)];

    var cosSim;
    if cfg.simModel == "wavlm" {
      cosSim := ex.simWavlm(audioRef, audioDeg, cfg.device);
    } else {
      cosSim := ex.simEres2net(audioRef, audioDeg, cfg.lang);
    }
    result := result["cos_sim" := Num(cosSim)];

    var f0Rmse :- ex.f0Rmse(audioRef, audioDeg, cfg.strategy);
    result := result["f0_rmse" := Num(f0Rmse)];

    var hypText;
    if cfg.lang == "zh" {
      hypText := ex.inferZh(audioDeg);
    } else {
      hypText := ex.inferEn(audioDeg);
    }
    var wer :- Wer.GetWer(refText, hypText, cfg.lang, ex.matcher);
    result := result["wer" := Num(wer.wer)];
    result := result["ref" := Str(wer.ref)];
    result := result["hyp" := Str(wer.hyp)];
    result := result["del" := Int(wer.del)];
    result := result["sub" := Int(wer.sub)];
    result := result["ins" := Int(wer.ins)];

    result := result["mcd" := Num(ex.mcd(audioRef, audioDeg))];
    result := result["utmos" := Num(ex.utmos(audioRef, audioDeg, cfg.device))];
    assert result == Assemble(audioDeg, pesq, cosSim, f0Rmse, wer,
                              ex.mcd(audioRef, audioDeg), ex.utmos(audioRef, audioDeg, cfg.device));
    r := Ok(result);
  }

  /** `main`'s loop: evaluates the manifest lines in turn and writes each
      record. The first exception ends the run; the records written before
      it stay written. Called by `RunEvaluation` only after `ValidConfig`. */
  method EvaluateLines(cfg: Config, ex: Extractors, lines: seq<map<string, string>>)
    returns (written: seq<Record>, failure: Option<Error>)
    ensures |written| <= |lines|
    ensures forall i :: 0 <= i < |written| ==> RecordFor(cfg, ex, lines[i]) == Ok(written[i])
    ensures failure.None? ==> |written| == |lines|
    ensures failure.Some? ==>
      |written| < |lines| && RecordFor(cfg, ex, lines[|written|]) == Err(failure.value)
  {
    written, failure := [], None;
    var i := 0;
    while i < |lines|
      invariant 0 <= i <= |lines| && |written| == i
      invariant forall j :: 0 <= j < i ==> RecordFor(cfg, ex, lines[j]) == Ok(written[j])
    {
      var r := EvaluateLine(cfg, ex, lines[i]);
      if r.Err? {
        return written, Some(r.error);
      }
      written := written + [r.value];
      i := i + 1;
    }
  }

  /** `main`: checks the options, then runs the loop over the manifest. */
  method RunEvaluation(cfg: Config, ex: Extractors, lines: seq<map<string, string>>)
    returns (written: seq<Record>, failure: Option<Error>)
    ensures !ValidConfig(cfg) ==> written == [] && failure == Some(AssertionFailed)
    ensures ValidConfig(cfg) ==>
      && |written| <= |lines|
      && (forall i :: 0 <= i < |written| ==> RecordFor(cfg, ex, lines[i]) == Ok(written[i]))
      && (failure.None? ==> |written| == |lines|)
      && (failure.Some? ==> |written| < |lines|
                            && RecordFor(cfg, ex, lines[|written|]) == Err(failure.value))
  {
    if !ValidConfig(cfg) {
      return [], Some(AssertionFailed);
    }
    written, failure := EvaluateLines(cfg, ex, lines);
  }
}

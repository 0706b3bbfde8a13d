/** The corpus averaging of `average.py`: one pass over the per-utterance
    records, five lists, then one mean per list. Parsing the JSON lines and
    `float(...)` are outside the model: a record arrives as a map from metric
    name to its value. */
module Average {
  import opened Errors

  /** The metrics `average.py` reads from every line, in the order it reads them. */
  const MetricKeys: seq<string> := ["pesq", "wer", "f0_rmse", "utmos", "mcd"]

  type Line = map<string, real>

  /** Python's `sum` of a list of floats, as exact reals. */
  function Sum(s: seq<real>): real
  {
    if s == [] then 0.0 else Sum(s[..|s| - 1]) + s[|s| - 1]
  }

  /** `sum(s) / len(s)`. */
  function Mean(s: seq<real>): (r: real)
    requires |s| > 0
    ensures r * |s| as real == Sum(s)
  {
    Sum(s) / |s| as real
  }

  lemma MeanOfOneTwoThree()
    ensures Mean([1.0, 2.0, 3.0]) == 2.0
  {
    assert [1.0, 2.0, 3.0][..2] == [1.0, 2.0];
    assert [1.0, 2.0][..1] == [1.0];
    assert [1.0][..0] == [];
  }

  lemma {:induction false} SumBounds(s: seq<real>, lo: real, hi: real)
    requires forall i :: 0 <= i < |s| ==> lo <= s[i] <= hi
    ensures |s| as real * lo <= Sum(s) <= |s| as real * hi
  {
    if s != [] {
      SumBounds(s[..|s| - 1], lo, hi);
    }
  }

  /** A mean lies between any lower and any upper bound of its list, in
      particular between its minimum and its maximum. */
  lemma MeanBounds(s: seq<real>, lo: real, hi: real)
    requires |s| > 0
    requires forall i :: 0 <= i < |s| ==> lo <= s[i] <= hi
    ensures lo <= Mean(s) <= hi
  {
    SumBounds(s, lo, hi);
    var n := |s| as real;
    assert Mean(s) * n == Sum(s);
  }

  /** The first metric, in reading order, that `line` lacks. */
  function MissingKey(line: Line): (r: Option<string>)
    ensures r.Some? ==> r.value in MetricKeys && r.value !in line
    ensures r.Some? ==> exists i :: 0 <= i < |MetricKeys| && r.value == MetricKeys[i]
                                   && forall j :: 0 <= j < i ==> MetricKeys[j] in line
    ensures r.None? <==> forall k :: k in MetricKeys ==> k in line
  {
    if "pesq" !in line then Some("pesq")
    else if "wer" !in line then Some("wer")
    else if "f0_rmse" !in line then Some("f0_rmse")
    else if "utmos" !in line then Some("utmos")
    else if "mcd" !in line then Some("mcd")
    else None
  }

  /** `line` holds every metric `main` reads. */
  predicate Complete(line: Line)
  {
    forall k :: k in MetricKeys ==> k in line
  }

  /** The values of metric `key` across all lines, in line order. */
  function Column(lines: seq<Line>, key: string): (r: seq<real>)
    requires forall j :: 0 <= j < |lines| ==> key in lines[j]
    ensures |r| == |lines|
    ensures forall j :: 0 <= j < |lines| ==> r[j] == lines[j][key]
  {
    seq(|lines|, j requires 0 <= j < |lines| => lines[j][key])
  }

  /** Reading one more line appends its value to the column. */
  lemma ColumnSnoc(lines: seq<Line>, i: nat, key: string)
    requires i < |lines|
    requires forall j :: 0 <= j <= i ==> key in lines[j]
    ensures Column(lines[..i + 1], key) == Column(lines[..i], key) + [lines[i][key]]
  {
  }

  /** `out_dict`: the mean of each metric's column, keyed by the metric. */
  function Means(lines: seq<Line>): (r: map<string, real>)
    requires |lines| > 0
    requires forall k, j :: k in MetricKeys && 0 <= j < |lines| ==> k in lines[j]
    ensures r.Keys == set k | k in MetricKeys
    ensures forall k :: k in MetricKeys ==> r[k] == Mean(Column(lines, k))
  {
    assert "pesq" in MetricKeys && "wer" in MetricKeys && "f0_rmse" in MetricKeys;
    assert "utmos" in MetricKeys && "mcd" in MetricKeys;
    map["pesq" := Mean(Column(lines, "pesq")),
        "wer" := Mean(Column(lines, "wer")),
        "f0_rmse" := Mean(Column(lines, "f0_rmse")),
        "utmos" := Mean(Column(lines, "utmos")),
        "mcd" := Mean(Column(lines, "mcd"))]
  }

  /** What `main` produces: the key error of the first incomplete line, a
      division by zero on an empty input, or one mean per metric. */
  function AverageOf(lines: seq<Line>): (r: Result<map<string, real>>)
    ensures r.Ok? <==> |lines| > 0 && forall j :: 0 <= j < |lines| ==> Complete(lines[j])
    ensures r.Ok? ==> r.value.Keys == set k | k in MetricKeys
    ensures r.Ok? ==> forall k :: k in MetricKeys ==> r.value[k] == Mean(Column(lines, k))
    ensures |lines| == 0 ==> r == Err(ZeroDivision)
  {
    if lines == [] then Err(ZeroDivision)
    else if MissingKey(lines[0]).Some? then Err(KeyError(MissingKey(lines[0]).value))
    else
      var rest := AverageOf(lines[1..]);
      if rest.Err? && rest.error.KeyError? then rest
      else
        Ok(Means(lines))
  }

  /** The error for incomplete input names a missing metric of the first
      incomplete line. */
  lemma {:induction false} AverageOfFirstIncomplete(lines: seq<Line>, i: nat)
    requires i < |lines|
    requires forall j :: 0 <= j < i ==> Complete(lines[j])
    requires !Complete(lines[i])
    ensures AverageOf(lines) == Err(KeyError(MissingKey(lines[i]).value))
  {
    if i > 0 {
      AverageOfFirstIncomplete(lines[1..], i - 1);
    }
  }

  /** `main`: appends one value per metric per line, then takes each mean. */
  method Average(lines: seq<Line>) returns (r: Result<map<string, real>>)
    ensures r == AverageOf(lines)
  {
    var pesqLst, werLst, f0RmseLst, utmosLst, mcdLst := [], [], [], [], [];
    var i := 0;
    while i < |lines|
      invariant 0 <= i <= |lines|
      invariant forall j :: 0 <= j < i ==> Complete(lines[j])
      invariant pesqLst == Column(lines[..i], "pesq")
      invariant werLst == Column(lines[..i], "wer")
      invariant f0RmseLst == Column(lines[..i], "f0_rmse")
      invariant utmosLst == Column(lines[..i], "utmos")
      invariant mcdLst == Column(lines[..i], "mcd")
    {
      var line := lines[i];
      var missing := MissingKey(line);
      if missing.Some? {
        AverageOfFirstIncomplete(lines, i);
        return Err(KeyError(missing.value));
      }
      ColumnSnoc(lines, i, "pesq");
      ColumnSnoc(lines, i, "wer");
      ColumnSnoc(lines, i, "f0_rmse");
      ColumnSnoc(lines, i, "utmos");
      ColumnSnoc(lines, i, "mcd");
      pesqLst := pesqLst + [line["pesq"]];
      werLst := werLst + [line["wer"]];
      f0RmseLst := f0RmseLst + [line["f0_rmse"]];
      utmosLst := utmosLst + [line["utmos"]];
      mcdLst := mcdLst + [line["mcd"]];
      i := i + 1;
    }
    assert lines[..i] == lines;
    if |pesqLst| == 0 {
      return Err(ZeroDivision);
    }
    var out: map<string, real> := map[];
    out := out["pesq" := Mean(pesqLst)];
    out := out["wer" := Mean(werLst)];
    out := out["f0_rmse" := Mean(f0RmseLst)];
    out := out["utmos" := Mean(utmosLst)];
    out := out["mcd" := Mean(mcdLst)];
    r := Ok(out);
  }
}

# TTS-Evaluation, the deterministic core, in Dafny

TTS-Evaluation scores synthesised speech against reference recordings. For
each line of a manifest it produces PESQ, speaker similarity, F0-RMSE, word
(character) error rate, MCD and UTMOS. A second script averages a results
file. The scores themselves come from models and signal libraries. This
project models the sequential logic around those scores and proves
properties of it. That logic covers:

- text cleaning and error-rate accounting (`Wer`, and the `Asr.AsrPipeline`
  class that repeats it);
- the `cut`/`dtw` length alignment shared by F0-RMSE and PESQ (`Alignment`,
  `F0Rmse`, `Pesq`);
- the pitch helpers, the hop size and the `JsonHParams` attribute bag (`Utils`);
- the corpus averaging (`Average`);
- the per-line orchestration of `main.py` (`Evaluate`).

Python exceptions are values of `Errors.Result` / `Errors.Error`. Every
model-backed or library routine is a function parameter and is otherwise
unconstrained: the edit-distance matcher, DTW, resampling, the PESQ scorer,
`log2`, `median`, `sqrt`, the recognisers and the similarity, MCD and UTMOS
models. The one exception is DTW, which is assumed to return a non-empty,
in-bounds warping path for two non-empty inputs (`Alignment.IsDtw`).

Some behaviour of the code is worth noting:

- Result lines carry the cleaned texts under `ref` and `hyp`.
- The matcher compares characters, not words: the cleaned strings themselves
  are handed to it, so the rate divides by a character count, spaces included.
- `average.py` reads all five metrics from every line. A line that lacks one
  ends the run with a `KeyError`; there is no per-key averaging.
- F0-RMSE returns 0 for contours of at most one frame. PESQ has no such guard.

## Model

| member | source | states |
|---|---|---|
| Wer.Strip | evaluation/wer.py:26-27 | deleting a set of characters: never lengthens, and a character survives iff it was present and is not in the set |
| Wer.ReplaceEach | evaluation/wer.py:26-27 | the loop of `text.replace(c, '')` over the punctuation string deletes exactly the characters of that string |
| Wer.CleanEn | evaluation/wer.py:24-29 | the English cleaner's output is no longer than its input, holds no ASCII punctuation and no upper-case letter, keeps every other character of the input in lower-case form, and holds nothing else: each output character is the lowering of a non-punctuation input character |
| Wer.CleanTextEn | evaluation/wer.py:24-29 | the loop-and-lower method returns exactly `CleanEn` |
| Wer.CleanEnAppend | evaluation/wer.py:24-29 | the English cleaner works character by character, so surviving characters keep their order |
| Wer.CleanEnIdempotent | evaluation/wer.py:24-29 | cleaning an already cleaned English text changes nothing |
| Wer.HanziPunctuationMarks | evaluation/wer.py:33 | a character is in `hanzi.punctuation` iff it is one of the listed hanzi marks |
| Wer.CleanZhIsStrip | evaluation/wer.py:32-36 | removing the punctuation string's characters one after another removes exactly the hanzi punctuation |
| Wer.CleanTextZh | evaluation/wer.py:32-36 | the loop method returns exactly `CleanZh` |
| Wer.CleanZhKeeps | evaluation/wer.py:32-36 | the Chinese cleaner keeps a character iff it is not hanzi punctuation, leaves case alone and keeps order |
| Wer.StripStrip | evaluation/wer.py:26-27 | deleting one set and then another equals deleting their union, which makes the loop correct |
| Wer.StripAppend | evaluation/wer.py:26-27 | deletion distributes over concatenation |
| Wer.StripNothing | evaluation/wer.py:26-27 | a text without any character of the set is unchanged |
| Wer.LowerChar | evaluation/wer.py:28 | a lowered character is never an upper-case letter; it changes iff it was one, and then moves to its lower-case letter |
| Wer.Lower | evaluation/wer.py:28 | lower-casing a text keeps its length, lowers every position, and leaves no upper-case letter |
| Wer.LowerFrom | evaluation/wer.py:28 | every character of a lowered text is the lowering of a character of the original |
| Wer.LowerAppend | evaluation/wer.py:28 | lower-casing distributes over concatenation |
| Wer.CountTag | evaluation/wer.py:86-92 | an opcode count never exceeds the number of opcodes |
| Wer.TagsPartition | evaluation/wer.py:86-92 | every opcode lands in exactly one of the delete, insert, replace and equal counts |
| Wer.Normalize | evaluation/wer.py:73-78 | `en` selects the English cleaner, `zh` the Chinese one, and any other language leaves the text as it is; no choice lengthens the text |
| Wer.WerOf | evaluation/wer.py:72-101 | `get_wer` raises `ZeroDivisionError` iff the cleaned reference is empty; otherwise the rate is non-negative |
| Wer.WerOfReport | evaluation/wer.py:72-101 | the report holds the cleaned texts (one cleaner for both), distance over cleaned reference length, the matcher's match count, `del`, `ins` and `sub` the numbers of delete, insert and replace opcodes, and del+ins+sub plus the equal opcodes is the opcode count |
| Wer.GetWer | evaluation/wer.py:72-101 | the method with its counting loop returns exactly `WerOf` |
| Asr.AsrPipeline.constructor | evaluation/asr_pipeline.py:26-27 | the pipeline's language is the one it was built with; it is immutable afterwards |
| Asr.AsrPipeline.CleanTextEn | evaluation/asr_pipeline.py:40-45 | same output as the module cleaner: no ASCII punctuation and no upper-case letter |
| Asr.AsrPipeline.CleanTextZh | evaluation/asr_pipeline.py:48-52 | same output as the module cleaner: exactly the characters that are not hanzi punctuation survive |
| Asr.AsrPipeline.GetWer | evaluation/asr_pipeline.py:79-108 | the same report as `wer.get_wer(ref, hyp, self.lang)`; fails iff the cleaned reference is empty |
| Alignment.Cut | evaluation/f0_rmse.py:91-94 | `cut` gives two prefixes of the inputs, both of the shorter length |
| Alignment.CutEqual | evaluation/pesq.py:33-37 | cutting inputs of equal length changes nothing |
| Alignment.Warp | evaluation/f0_rmse.py:95-106 | `dtw` gives two outputs as long as the path, with `out_ref[i] = ref[wp[i][0]]` and `out_deg[i] = deg[wp[i][1]]` |
| Alignment.DtwAlign | evaluation/pesq.py:38-49 | the append loop over the path builds exactly `Warp` |
| F0Rmse.SumSquares | evaluation/f0_rmse.py:109 | a sum of squared differences is non-negative |
| F0Rmse.Mse | evaluation/f0_rmse.py:109 | the mean squared error of aligned contours is non-negative |
| F0Rmse.SumSquaresSymmetric | evaluation/f0_rmse.py:109 | the squared-difference sum is symmetric |
| F0Rmse.MseSymmetric | evaluation/f0_rmse.py:109 | the error does not depend on which contour is the reference |
| F0Rmse.SumSquaresSelf | evaluation/f0_rmse.py:109 | identical contours have zero error |
| F0Rmse.Contours | evaluation/f0_rmse.py:78-83 | with `need_mean` each contour becomes the median-centred cents of its voiced frames, one per voiced frame (element i is cent value i less the median of the cents), so the guard counts voiced frames; without it they are untouched |
| F0Rmse.ExtractF0Rmse | evaluation/f0_rmse.py:77-110 | returns 0 when a contour has at most one frame; otherwise the root of the error after `cut` or `dtw`; any other method keeps the contours and fails on unequal lengths |
| F0Rmse.CutErrorSymmetric | evaluation/f0_rmse.py:91-94 | under `cut`, swapping the reference and degraded contours gives the same error |
| Pesq.AtPesqRate | evaluation/pesq.py:26-30 | a signal already at 16000 Hz passes through untouched; a signal at any other rate is resampled from that rate to 16000 Hz |
| Pesq.PesqAlignment | evaluation/pesq.py:32-49 | equal lengths pass through; `cut` gives two prefixes of the shorter length; `dtw` gives the path projection; any other method leaves both; DTW on an empty signal fails |
| Pesq.CutAgainstEmpty | evaluation/pesq.py:32-37 | with no short-signal guard, cutting against an empty signal hands two empty signals to the scorer |
| Pesq.ExtractPesq | evaluation/pesq.py:25-53 | resamples a signal exactly when its rate is not 16000, aligns, and scores at 16000 |
| Utils.Wrap | evaluation/utils.py:22-23 | a plain value is stored as it is; a dict becomes a fresh nested instance holding the dict's keys, with each plain item bound to its value and each dict item to a further nested instance |
| Utils.BindAll | evaluation/utils.py:21-24 | the loop binds exactly the keyword names, each as `Wrap` stores its value |
| Utils.JsonHParams.constructor | evaluation/utils.py:20-24 | every keyword becomes an attribute holding its value; a dict value becomes a fresh nested instance over the same keys, whose plain items keep their values |
| Utils.JsonHParams.Len | evaluation/utils.py:35-36 | the length is the number of stored keys |
| Utils.JsonHParams.Contains | evaluation/utils.py:44-45 | `key in h` holds iff the key is a stored attribute, and then the instance is not empty |
| Utils.JsonHParams.GetItem | evaluation/utils.py:38-39 | a present key yields its value; a missing key raises `AttributeError` |
| Utils.JsonHParams.SetItem | evaluation/utils.py:41-45 | after `h[k] = v`: `k in h`, `h[k] == v`, every other key unchanged, and the length grows by one iff `k` was new |
| Utils.RoundHalfEven | evaluation/utils.py:65 | `np.round` lands within one half of its argument and breaks ties towards even |
| Utils.HopSize | evaluation/utils.py:65 | with the default speed 1 the hop is `cfg.hop_size` |
| Utils.Voiced | evaluation/utils.py:90 | the voiced filter keeps every non-zero frame (as a multiset) and no zero frame |
| Utils.VoicedAppend | evaluation/utils.py:90 | the filter keeps the frames' order |
| Utils.GetCents | evaluation/utils.py:83-91 | one value per voiced frame, element i being `1200*log2(v_i/440)` |
| Utils.GetPitchSubMedian | evaluation/utils.py:94-99 | the same length as the cents; each element plus the median is the cent value |
| Utils.SubMedianKeepsShape | evaluation/utils.py:94-99 | one common offset is subtracted: every difference between frames is kept |
| Average.Mean | average.py:59-63 | the mean times the list's length is the list's sum |
| Average.MeanOfOneTwoThree | average.py:59-63 | the mean of [1, 2, 3] is 2 |
| Average.SumBounds | average.py:59-63 | a sum lies between length times any lower bound and length times any upper bound |
| Average.MeanBounds | average.py:59-63 | a mean lies between any lower and any upper bound of its list |
| Average.MissingKey | average.py:47-51 | reports the first metric, in reading order, that a line lacks, and nothing iff the line has all five |
| Average.Column | average.py:53-57 | a metric's list has one value per line, in line order: position j holds line j's value |
| Average.ColumnSnoc | average.py:53-57 | one more line appends exactly its value to a list |
| Average.Means | average.py:58-63 | `out_dict` has exactly the five metric keys, each bound to the mean of its list |
| Average.AverageOf | average.py:39-63 | succeeds iff the input is non-empty and every line has all five metrics; the result has exactly the five keys, each the mean of its column in line order; empty input is a division by zero |
| Average.AverageOfFirstIncomplete | average.py:45-51 | the key error is the one of the first incomplete line |
| Average.Average | average.py:39-63 | the five-list loop and the key-by-key dictionary give exactly `AverageOf` |
| Evaluate.ValidConfig | main.py:75-77 | a configuration passes iff `lang` is `zh` or `en`, `method` is `cut` or `dtw`, and `sim_model` is `eres2net` or `wavlm` |
| Evaluate.DegradedPath | main.py:84-85 | the degraded path is the directory, a slash, the key and `.wav` |
| Evaluate.Similarity | main.py:91-95 | `wavlm` scores with WavLM on the configured device; otherwise ERes2Net scores with the configured language |
| Evaluate.Recognise | main.py:100-105 | `zh` transcribes with the Chinese recogniser and any other language with the English one; after the language check only `en` is left |
| Evaluate.Assemble | main.py:86-117 | a record has exactly the twelve result keys, each bound to its score |
| Evaluate.RecordFor | main.py:81-117 | a line yields a record iff it has `text`, `gt_wav` and `out_key`, PESQ and F0-RMSE succeed on it, and its cleaned reference is non-empty; a written record has exactly the keys `gen_wav`, `pesq`, `cos_sim`, `f0_rmse`, `wer`, `ref`, `hyp`, `del`, `sub`, `ins`, `mcd`, `utmos` |
| Evaluate.RecordFailure | main.py:81-105 | a failing line raises the first of: the missing `text`, `gt_wav` or `out_key` key, in that order, then the PESQ error, then the F0-RMSE error, then the division by zero of `get_wer` |
| Evaluate.RecordDropsCor | main.py:106-111 | `cor` from `get_wer` never reaches a result line |
| Evaluate.RecordWiring | main.py:84-111 | `gen_wav` is the derived path; PESQ and F0-RMSE get the same method; the recogniser and the cleaner get the same language; `ref`/`hyp` are the cleaned texts; `cos_sim`, `mcd` and `utmos` are the chosen similarity model's, MCD's and UTMOS's scores for the two files |
| Evaluate.EvaluateLine | main.py:81-117 | the loop body returns exactly `RecordFor`, failing on the first missing field or extractor exception |
| Evaluate.EvaluateLines | main.py:80-118 | one record per line in input order, up to the first failing line, whose exception ends the run |
| Evaluate.RunEvaluation | main.py:75-118 | a configuration outside the three allowed sets fails before any line; otherwise exactly the records of the lines before the first failure are written, in order |

## Left out

- Speaker similarity, UTMOS, MCD and the recognisers (Whisper, paraformer) are model calls. They are parameters that always return a value; their own failures are not modelled.
- Audio loading, `librosa.resample`, Praat pitch tracking (evaluation/utils.py:67-79) and the audio loading at the top of `extract_f0rmse` are not modelled. The contours and signals arrive as sequences.
- The time step derived from the hop size (evaluation/utils.py:68) is not modelled.
- `librosa.sequence.dtw` is a parameter. Only a non-empty, in-bounds path for non-empty inputs is assumed; the path's order and optimality are not.
- The PESQ score (ITU-T P.862, `pypesq`) is a parameter.
- The Levenshtein distance, match count and opcode grouping of `edit_distance.SequenceMatcher` are parameters.
- Floating point: every value is an exact `real`; `sqrt`, `log2` and `np.median` are uninterpreted parameters.
- Wer.LowerChar: lower-cases ASCII letters only. Python's `str.lower` also maps capitals of other scripts, can lengthen a string ('İ' becomes 'i' followed by a combining dot, two code points) and lowers a final capital sigma depending on its neighbours. The length bound of `Wer.CleanEn` and the distributivity of `Wer.CleanEnAppend` hold for this ASCII lowering only; they are false for the real cleaner on such input.
- The `zhon` package is not part of this model; its `hanzi.punctuation` string is reproduced as a constant.
- `JsonHParams.keys`, `items`, `values` and `__repr__`, and `getattr` finding class attributes such as `keys` through `h['keys']`, are not modelled.
- Average.AverageOf: the `ValueError` that `float(...)` raises on a non-numeric metric value (average.py:46-50) is not modelled; every value arrives as a number.
- Average.AverageOf: each mean is a `real`; the `str(...)` formatting of `out_dict` values is not modelled.
- File and JSON reading and writing, `argparse`, `tqdm` and printing are not modelled. A manifest line is a map from field to string; a result line is a map from key to value.
- Evaluate.RunEvaluation: with `sim_model` `wavlm`, `extract_sim_wavlm_base` returns a NumPy array (evaluation/similarity.py:78-79), which `json.dumps` at main.py:118 cannot encode, so the program would fail on the first line; the model treats the score as a number and writes the record.

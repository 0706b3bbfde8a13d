/** The `ASRPipeline` class of `evaluation/asr_pipeline.py`. Its cleaners and
    `get_wer` have the same bodies as the module-level functions of
    `evaluation/wer.py`, so the methods here run the `Wer` methods; the only
    state the model keeps is the language, fixed by the constructor. */
module Asr {
  import opened Errors
  import Wer

  class AsrPipeline {
    /** `self.lang`: assigned once, in the constructor, and only read after. */
    const lang: string

    constructor (lang: string)
      ensures this.lang == lang
    {
      this.lang := lang;
    }

    /** Removes every ASCII punctuation character and lower-cases. */
    method CleanTextEn(text: string) returns (r: string)
      ensures r == Wer.CleanEn(text)
      ensures forall c :: c in r ==> c !in Wer.AsciiPunctuation && !Wer.IsUpper(c)
    {
      r := Wer.CleanTextEn(text);
    }

    /** Removes exactly the hanzi punctuation characters. */
    method CleanTextZh(text: string) returns (r: string)
      ensures r == Wer.CleanZh(text)
      ensures forall c :: c in r <==> c in text && !Wer.IsHanziPunctuation(c)
    {
      r := Wer.CleanTextZh(text);
    }

    /** The same report as `wer.get_wer(ref_text, hyp_text, self.lang)`. */
    method GetWer(refText: string, hypText: string, sm: Wer.SequenceMatcher)
      returns (r: Result<Wer.WerReport>)
      ensures r == Wer.WerOf(refText, hypText, lang, sm)
      ensures r.Err? <==> Wer.Normalize(refText, lang) == []
    {
      r := Wer.GetWer(refText, hypText, lang, sm);
    }
  }
}

/** Text cleaning and word-error-rate accounting of `evaluation/wer.py`.

    The edit-distance library (`edit_distance.SequenceMatcher`) is outside the
    model: a `SequenceMatcher` is a function from the cleaned reference and
    hypothesis strings to what the library reports (its distance, its match
    count and its opcode list). Matching is per character, because the cleaned
    strings themselves, not word lists, are handed to the matcher. */
module Wer {
  import opened Errors

  /** Python's `string.punctuation`: the 32 ASCII punctuation characters. */
  const AsciiPunctuation: string := "!\"#$%&'()*+,-./:;<=>?@[\\]^_`{|}~"

  /** The fullwidth variants of ASCII punctuation. */
  const FullwidthMarks: string :=
    "\U{FF02}\U{FF03}\U{FF04}\U{FF05}\U{FF06}\U{FF07}\U{FF08}\U{FF09}\U{FF0A}\U{FF0B}\U{FF0C}\U{FF0D}"
    + "\U{FF0F}\U{FF1A}\U{FF1B}\U{FF1C}\U{FF1D}\U{FF1E}\U{FF20}\U{FF3B}\U{FF3C}\U{FF3D}\U{FF3E}\U{FF3F}"
    + "\U{FF40}\U{FF5B}\U{FF5C}\U{FF5D}\U{FF5E}\U{FF5F}\U{FF60}"

  predicate IsFullwidthMark(c: char)
  {
    || c == '\U{FF02}' || c == '\U{FF03}' || c == '\U{FF04}' || c == '\U{FF05}' || c == '\U{FF06}'
    || c == '\U{FF07}' || c == '\U{FF08}' || c == '\U{FF09}' || c == '\U{FF0A}' || c == '\U{FF0B}'
    || c == '\U{FF0C}' || c == '\U{FF0D}' || c == '\U{FF0F}' || c == '\U{FF1A}' || c == '\U{FF1B}'
    || c == '\U{FF1C}' || c == '\U{FF1D}' || c == '\U{FF1E}' || c == '\U{FF20}' || c == '\U{FF3B}'
    || c == '\U{FF3C}' || c == '\U{FF3D}' || c == '\U{FF3E}' || c == '\U{FF3F}' || c == '\U{FF40}'
    || c == '\U{FF5B}' || c == '\U{FF5C}' || c == '\U{FF5D}' || c == '\U{FF5E}' || c == '\U{FF5F}'
    || c == '\U{FF60}'
  }

  lemma FullwidthMarkTable(c: char)
    ensures c in FullwidthMarks <==> IsFullwidthMark(c)
  {
  }

  /** The halfwidth CJK punctuation. */
  const HalfwidthMarks: string :=
    "\U{FF62}\U{FF63}\U{FF64}"

  predicate IsHalfwidthMark(c: char)
  {
    || c == '\U{FF62}' || c == '\U{FF63}' || c == '\U{FF64}'
  }

  lemma HalfwidthMarkTable(c: char)
    ensures c in HalfwidthMarks <==> IsHalfwidthMark(c)
  {
  }

  /** The CJK symbols, brackets and other CJK punctuation. */
  const CjkMarks: string :=
    "\U{3000}\U{3001}\U{3003}\U{3008}\U{3009}\U{300A}\U{300B}\U{300C}\U{300D}\U{300E}\U{300F}\U{3010}"
    + "\U{3011}\U{3014}\U{3015}\U{3016}\U{3017}\U{3018}\U{3019}\U{301A}\U{301B}\U{301C}\U{301D}\U{301E}"
    + "\U{301F}\U{3030}\U{303E}\U{303F}"

  predicate IsCjkMark(c: char)
  {
    || c == '\U{3000}' || c == '\U{3001}' || c == '\U{3003}' || c == '\U{3008}' || c == '\U{3009}'
    || c == '\U{300A}' || c == '\U{300B}' || c == '\U{300C}' || c == '\U{300D}' || c == '\U{300E}'
    || c == '\U{300F}' || c == '\U{3010}' || c == '\U{3011}' || c == '\U{3014}' || c == '\U{3015}'
    || c == '\U{3016}' || c == '\U{3017}' || c == '\U{3018}' || c == '\U{3019}' || c == '\U{301A}'
    || c == '\U{301B}' || c == '\U{301C}' || c == '\U{301D}' || c == '\U{301E}' || c == '\U{301F}'
    || c == '\U{3030}' || c == '\U{303E}' || c == '\U{303F}'
  }

  lemma CjkMarkTable(c: char)
    ensures c in CjkMarks <==> IsCjkMark(c)
  {
  }

  /** Dashes, quotation marks, ellipses and the other general punctuation. */
  const GeneralMarks: string :=
    "\U{2013}\U{2014}\U{2018}\U{2019}\U{201B}\U{201C}\U{201D}\U{201E}\U{201F}\U{2026}\U{2027}\U{FE4F}"
    + "\U{FE51}\U{FE54}\U{00B7}"

  predicate IsGeneralMark(c: char)
  {
    || c == '\U{2013}' || c == '\U{2014}' || c == '\U{2018}' || c == '\U{2019}' || c == '\U{201B}'
    || c == '\U{201C}' || c == '\U{201D}' || c == '\U{201E}' || c == '\U{201F}' || c == '\U{2026}'
    || c == '\U{2027}' || c == '\U{FE4F}' || c == '\U{FE51}' || c == '\U{FE54}' || c == '\U{00B7}'
  }

  lemma GeneralMarkTable(c: char)
    ensures c in GeneralMarks <==> IsGeneralMark(c)
  {
  }

  /** The sentence-ending stops. */
  const HanziStops: string :=
    "\U{FF01}\U{FF1F}\U{FF61}\U{3002}"

  predicate IsHanziStop(c: char)
  {
    || c == '\U{FF01}' || c == '\U{FF1F}' || c == '\U{FF61}' || c == '\U{3002}'
  }

  lemma HanziStopTable(c: char)
    ensures c in HanziStops <==> IsHanziStop(c)
  {
  }

  /** `zhon.hanzi.punctuation`: the non-stop marks followed by the stops. */
  const HanziPunctuation: string :=
    FullwidthMarks + HalfwidthMarks + CjkMarks + GeneralMarks + HanziStops

  /** Membership in `zhon.hanzi.punctuation`, as a test on one character.
      `clean_text_zh` iterates over the string `HanziPunctuation`; the model
      cleans by this predicate instead, so that proofs about the cleaner
      decide membership by a few comparisons rather than unfolding the long
      literal, and `CleanZhIsStrip` ties the two together. */
  predicate IsHanziPunctuation(c: char)
  {
    IsFullwidthMark(c) || IsHalfwidthMark(c) || IsCjkMark(c) || IsGeneralMark(c) || IsHanziStop(c)
  }

  /** The predicate and the string hold the same characters. */
  lemma HanziPunctuationMarks(c: char)
    ensures c in HanziPunctuation <==> IsHanziPunctuation(c)
  {
    FullwidthMarkTable(c);
    HalfwidthMarkTable(c);
    CjkMarkTable(c);
    GeneralMarkTable(c);
    HanziStopTable(c);
  }

  // ---------------------------------------------------------------------
  // Cleaning
  // ---------------------------------------------------------------------

  /** `text` with every character of `punct` deleted; `text.replace(c, '')`
      is `Strip(text, [c])`. */
  function Strip(text: string, punct: string): (r: string)
    ensures |r| <= |text|
    ensures forall c :: c in r <==> c in text && c !in punct
  {
    if text == [] then []
    else (if text[0] in punct then [] else [text[0]]) + Strip(text[1..], punct)
  }

  /** `str.lower()` on one character, for the ASCII letters. */
  function LowerChar(c: char): (r: char)
    ensures !IsUpper(r)
    ensures r == c <==> !IsUpper(c)
    ensures IsUpper(c) ==> r as int - c as int == 'a' as int - 'A' as int
  {
    if 'A' <= c <= 'Z' then (c as int + 32) as char else c
  }

  /** `str.lower()` on a whole text, character by character. */
  function Lower(text: string): (r: string)
    ensures |r| == |text|
    ensures forall i :: 0 <= i < |text| ==> r[i] == LowerChar(text[i])
    ensures forall c :: c in r ==> !IsUpper(c)
  {
    seq(|text|, i requires 0 <= i < |text| => LowerChar(text[i]))
  }

  predicate IsUpper(c: char) { 'A' <= c <= 'Z' }

  /** What `clean_text_en` returns. */
  function CleanEn(text: string): (r: string)
    ensures |r| <= |text|
    ensures forall c :: c in r ==> c !in AsciiPunctuation && !IsUpper(c)
    ensures forall c :: c in text && c !in AsciiPunctuation ==> LowerChar(c) in r
    ensures forall c :: c in r ==>
              exists d :: d in text && d !in AsciiPunctuation && LowerChar(d) == c
  {
    var kept := Strip(text, AsciiPunctuation);
    LowerAvoids(kept, AsciiPunctuation);
    LowerFrom(kept);
    Lower(kept)
  }

  /** Every character of a lowered text is the lowering of one of its own. */
  lemma LowerFrom(s: string)
    ensures forall c :: c in Lower(s) ==> exists d :: d in s && LowerChar(d) == c
  {
    forall c | c in Lower(s)
      ensures exists d :: d in s && LowerChar(d) == c
    {
      var i :| 0 <= i < |s| && Lower(s)[i] == c;
      assert s[i] in s;
    }
  }

  /** Lower-casing a text free of `punct` keeps it free of `punct` when no
      lower-case letter is punctuation, and leaves no upper-case letter. */
  lemma LowerAvoids(s: string, punct: string)
    requires forall c :: c in s ==> c !in punct
    requires forall c :: c in punct ==> !('a' <= c <= 'z')
    ensures forall c :: c in Lower(s) ==> c !in punct && !IsUpper(c)
  {
    forall c | c in Lower(s)
      ensures c !in punct && !IsUpper(c)
    {
      var i :| 0 <= i < |s| && Lower(s)[i] == c;
      assert c == LowerChar(s[i]);
    }
  }

  /** What `clean_text_zh` returns: `text` without its hanzi punctuation. */
  function CleanZh(text: string): (r: string)
    ensures |r| <= |text|
    ensures forall c :: c in r <==> c in text && !IsHanziPunctuation(c)
  {
    if text == [] then []
    else (if IsHanziPunctuation(text[0]) then [] else [text[0]]) + CleanZh(text[1..])
  }

  /** The cleaner `get_wer` applies to both texts for language `lang`. */
  function Normalize(text: string, lang: string): (r: string)
    ensures |r| <= |text|
    ensures lang == "en" ==> r == CleanEn(text)
    ensures lang == "zh" ==> r == CleanZh(text)
    ensures lang != "en" && lang != "zh" ==> r == text
  {
    if lang == "en" then CleanEn(text)
    else if lang == "zh" then CleanZh(text)
    else text
  }

  /** Deleting one set of characters and then another is deleting both. */
  lemma {:induction false} StripStrip(text: string, ps: string, qs: string)
    ensures Strip(Strip(text, ps), qs) == Strip(text, ps + qs)
  {
    if text != [] {
      var head := if text[0] in ps then [] else [text[0]];
      StripAppend(head, Strip(text[1..], ps), qs);
      StripStrip(text[1..], ps, qs);
    }
  }

  /** Deletion works character by character: the surviving characters keep
      their relative order. */
  lemma {:induction false} StripAppend(a: string, b: string, punct: string)
    ensures Strip(a + b, punct) == Strip(a, punct) + Strip(b, punct)
  {
    if a != [] {
      var head := if a[0] in punct then [] else [a[0]];
      assert (a + b)[0] == a[0];
      assert (a + b)[1..] == a[1..] + b;
      StripAppend(a[1..], b, punct);
      assert Strip(a + b, punct) == head + Strip(a[1..] + b, punct);
    } else {
      assert a + b == b;
    }
  }

  /** A text with no character of `punct` is left unchanged. */
  lemma {:induction false} StripNothing(text: string, punct: string)
    requires forall c :: c in text ==> c !in punct
    ensures Strip(text, punct) == text
  {
    if text != [] {
      StripNothing(text[1..], punct);
    }
  }

  lemma LowerAppend(a: string, b: string)
    ensures Lower(a + b) == Lower(a) + Lower(b)
  {
  }

  /** The English cleaner keeps the order of what it keeps. */
  lemma CleanEnAppend(a: string, b: string)
    ensures CleanEn(a + b) == CleanEn(a) + CleanEn(b)
  {
    StripAppend(a, b, AsciiPunctuation);
    LowerAppend(Strip(a, AsciiPunctuation), Strip(b, AsciiPunctuation));
  }

  /** The English cleaner is idempotent. */
  lemma CleanEnIdempotent(text: string)
    ensures CleanEn(CleanEn(text)) == CleanEn(text)
  {
    var once := CleanEn(text);
    StripNothing(once, AsciiPunctuation);
    assert Lower(once) == once;
  }

  /** Deleting the characters of `hanzi.punctuation` one after the other
      deletes exactly the hanzi punctuation. */
  lemma {:induction false} CleanZhIsStrip(text: string)
    ensures CleanZh(text) == Strip(text, HanziPunctuation)
  {
    if text != [] {
      HanziPunctuationMarks(text[0]);
      CleanZhIsStrip(text[1..]);
    }
  }

  /** The Chinese cleaner deletes exactly the hanzi punctuation: every other
      character survives, unchanged and in order, and case is untouched. */
  lemma CleanZhKeeps(a: string, b: string)
    ensures forall c :: c in CleanZh(a) <==> c in a && c !in HanziPunctuation
    ensures CleanZh(a + b) == CleanZh(a) + CleanZh(b)
  {
    CleanZhIsStrip(a);
    CleanZhIsStrip(b);
    CleanZhIsStrip(a + b);
    StripAppend(a, b, HanziPunctuation);
  }

  /** `for x in punct: text = text.replace(x, '')`: deletes each
      punctuation character in turn. */
  method ReplaceEach(text: string, punct: string) returns (r: string)
    ensures r == Strip(text, punct)
  {
    r := text;
    StripNothing(text, []);
    assert punct[..0] == [];
    var i := 0;
    while i < |punct|
      invariant 0 <= i <= |punct|
      invariant r == Strip(text, punct[..i])
    {
      StripStrip(text, punct[..i], [punct[i]]);
      assert punct[..i] + [punct[i]] == punct[..i + 1];
      r := Strip(r, [punct[i]]);
      i := i + 1;
    }
    assert punct[..i] == punct;
  }

  /** `clean_text_en`: deletes the ASCII punctuation, then lower-cases. */
  method CleanTextEn(text: string) returns (r: string)
    ensures r == CleanEn(text)
  {
    r := ReplaceEach(text, AsciiPunctuation);
    r := Lower(r);
  }

  /** `clean_text_zh`: deletes the hanzi punctuation. */
  method CleanTextZh(text: string) returns (r: string)
    ensures r == CleanZh(text)
  {
    r := ReplaceEach(text, HanziPunctuation);
    CleanZhIsStrip(text);
  }

  // ---------------------------------------------------------------------
  // Scoring
  // ---------------------------------------------------------------------

  datatype Tag = Equal | Insert | Delete | Replace

  /** One opcode `(tag, i1, i2, j1, j2)`: `ref[i1:i2]` against `hyp[j1:j2]`. */
  datatype Opcode = Opcode(tag: Tag, i1: nat, i2: nat, j1: nat, j2: nat)

  /** What the library reports for one pair of strings. */
  datatype Matcher = Matcher(distance: nat, matches: nat, opcodes: seq<Opcode>)

  type SequenceMatcher = (string, string) -> Matcher

  /** The dictionary `get_wer` returns. */
  datatype WerReport = WerReport(
    ref: string, hyp: string, wer: real, cor: nat, del: nat, ins: nat, sub: nat)

  /** The number of opcodes carrying `tag`, each counted once whatever its span. */
  function CountTag(ops: seq<Opcode>, tag: Tag): (n: nat)
    ensures n <= |ops|
  {
    if ops == [] then 0
    else CountTag(ops[..|ops| - 1], tag) + (if ops[|ops| - 1].tag == tag then 1 else 0)
  }

  /** Every opcode carries exactly one of the four tags. */
  lemma {:induction false} TagsPartition(ops: seq<Opcode>)
    ensures CountTag(ops, Delete) + CountTag(ops, Insert) + CountTag(ops, Replace)
            + CountTag(ops, Equal) == |ops|
  {
    if ops != [] {
      TagsPartition(ops[..|ops| - 1]);
    }
  }

  /** The result of `get_wer(ref_text, hyp_text, lang)`. */
  function WerOf(refText: string, hypText: string, lang: string, sm: SequenceMatcher)
    : (r: Result<WerReport>)
    ensures r.Err? <==> Normalize(refText, lang) == []
    ensures r.Err? ==> r.error == ZeroDivision
    ensures r.Ok? ==> r.value.wer >= 0.0
  {
    var ref := Normalize(refText, lang);
    var hyp := Normalize(hypText, lang);
    var m := sm(ref, hyp);
    if |ref| == 0 then Err(ZeroDivision)
    else Ok(WerReport(ref, hyp, m.distance as real / |ref| as real, m.matches,
                      CountTag(m.opcodes, Delete), CountTag(m.opcodes, Insert),
                      CountTag(m.opcodes, Replace)))
  }

  /** What `get_wer` reports, in terms of the cleaned texts and the matcher. */
  lemma WerOfReport(refText: string, hypText: string, lang: string, sm: SequenceMatcher)
    requires WerOf(refText, hypText, lang, sm).Ok?
    ensures var r := WerOf(refText, hypText, lang, sm).value;
            var m := sm(r.ref, r.hyp);
            && r.ref == Normalize(refText, lang)
            && r.hyp == Normalize(hypText, lang)
            && r.wer == m.distance as real / |r.ref| as real
            && r.cor == m.matches
            && r.del == CountTag(m.opcodes, Delete)
            && r.ins == CountTag(m.opcodes, Insert)
            && r.sub == CountTag(m.opcodes, Replace)
            && r.del + r.ins + r.sub + CountTag(m.opcodes, Equal) == |m.opcodes|
  {
    var ref := Normalize(refText, lang);
    var hyp := Normalize(hypText, lang);
    TagsPartition(sm(ref, hyp).opcodes);
  }

  /** `get_wer`: cleans both texts with the same cleaner, divides the distance
      by the cleaned reference's length in characters, then counts opcodes. */
  method GetWer(refText: string, hypText: string, lang: string, sm: SequenceMatcher)
    returns (r: Result<WerReport>)
    ensures r == WerOf(refText, hypText, lang, sm)
  {
    var ref, hyp := refText, hypText;
    if lang == "en" {
      ref := CleanTextEn(ref);
      hyp := CleanTextEn(hyp);
    } else if lang == "zh" {
      ref := CleanTextZh(ref);
      hyp := CleanTextZh(hyp);
    }
    var m := sm(ref, hyp);
    if |ref| == 0 {
      return Err(ZeroDivision);
    }
    var wer := m.distance as real / |ref| as real;
    var delError, insError, subError := 0, 0, 0;
    var i := 0;
    while i < |m.opcodes|
      invariant 0 <= i <= |m.opcodes|
      invariant delError == CountTag(m.opcodes[..i], Delete)
      invariant insError == CountTag(m.opcodes[..i], Insert)
      invariant subError == CountTag(m.opcodes[..i], Replace)
    {
      assert m.opcodes[..i + 1][..i] == m.opcodes[..i];
      var op := m.opcodes[i];
      if op.tag == Delete {
        delError := delError + 1;
      } else if op.tag == Insert {
        insError := insError + 1;
      } else if op.tag == Replace {
        subError := subError + 1;
      }
      i := i + 1;
    }
    assert m.opcodes[..i] == m.opcodes;
    r := Ok(WerReport(ref, hyp, wer, m.matches, delError, insError, subError));
  }
}

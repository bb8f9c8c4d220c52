/**
 * The prompt text layer of `src/tokenizer.py`: whitespace normalisation,
 * quality suffixes keyed by style, negative prompts keyed by category,
 * prompt variations and keyword extraction. The CLIP tokenizer itself is
 * not part of this model; only the preprocessing it is fed is.
 */
module Tokenizer {
  import opened Text
  import opened Wrappers

  // ---------------------------------------------------------------- enhance_prompt

  const Enhancements: map<string, string> := map[
    "realistic" := "photorealistic, high quality, detailed, 8k resolution",
    "artistic" := "artistic, beautiful, masterpiece, high quality",
    "professional" := "professional photography, studio lighting, high quality",
    "cinematic" := "cinematic lighting, dramatic, high quality, film photography"
  ]

  /** The suffix a style selects; an unknown style silently selects "realistic". */
  function Enhancement(style: string): (e: string)
    ensures e in Enhancements.Values
    ensures style in Enhancements ==> e == Enhancements[style]
  {
    if style in Enhancements then Enhancements[style] else Enhancements["realistic"]
  }

  /**
   * The prompt, untouched, then ", " and the style's suffix: the prompt is
   * neither trimmed nor validated.
   */
  function EnhancePrompt(prompt: string, style: string): (r: string)
    ensures |r| > |prompt| + 2 && r[..|prompt|] == prompt
    ensures r[|prompt|..] == ", " + Enhancement(style)
  {
    prompt + ", " + Enhancement(style)
  }

  /** An unknown style enhances exactly like "realistic". */
  lemma EnhanceUnknownStyle(prompt: string, style: string)
    requires style !in Enhancements
    ensures EnhancePrompt(prompt, style) == EnhancePrompt(prompt, "realistic")
  {
  }

  /** The original prompt can be read back from its enhancement. */
  lemma EnhancePromptInjective(p1: string, p2: string, style: string)
    requires EnhancePrompt(p1, style) == EnhancePrompt(p2, style)
    ensures p1 == p2
  {
    var r := EnhancePrompt(p1, style);
    assert |p1| == |r| - 2 - |Enhancement(style)| == |p2|;
  }

  // ---------------------------------------------------------------- create_negative_prompt

  const NegativePrompts: map<string, string> := map[
    "general" := "blurry, low quality, distorted, deformed, bad anatomy, bad proportions",
    "portrait" := "blurry, low quality, bad face, deformed face, extra limbs, bad anatomy",
    "landscape" := "blurry, low quality, distorted horizon, bad composition, oversaturated",
    "object" := "blurry, low quality, deformed, bad shape, unrealistic proportions"
  ]

  /** The negative prompt of a category, "general" for any unknown one. */
  function NegativePrompt(category: string): (r: string)
    ensures r in NegativePrompts.Values
    ensures category in NegativePrompts ==> r == NegativePrompts[category]
  {
    if category in NegativePrompts then NegativePrompts[category] else NegativePrompts["general"]
  }

  lemma NegativeUnknownCategory(category: string)
    requires category !in NegativePrompts
    ensures NegativePrompt(category) == "blurry, low quality, distorted, deformed, bad anatomy, bad proportions"
  {
  }

  // ---------------------------------------------------------------- preprocess_text

  const EmptyPromptText := "a simple image"

  /** `strip`, collapse whitespace runs with `" ".join(text.split())`, default when empty. */
  function Preprocess(text: string): (r: string)
    ensures r != []
    ensures Normalized(r)
    ensures IsBlank(text) ==> r == EmptyPromptText
    ensures !IsBlank(text) ==> Words(r) == Words(text)
  {
    var t := JoinSpace(Words(Strip(text)));
    PreprocessFacts(text);
    if t == "" then
      EmptyNormalized();
      EmptyPromptText
    else t
  }

  lemma PreprocessFacts(text: string)
    ensures Words(Strip(text)) == Words(text)
    ensures JoinSpace(Words(text)) == "" <==> IsBlank(text)
    ensures Normalized(JoinSpace(Words(text)))
    ensures Words(JoinSpace(Words(text))) == Words(text)
  {
    WordsOfStrip(text);
    WordsEmptyIffBlank(text);
    JoinSpaceNormalized(Words(text));
    WordsOfJoinSpace(Words(text));
  }

  lemma EmptyNormalized()
    ensures Normalized(EmptyPromptText)
  {
    var ws := ["a", "simple", "image"];
    assert JoinSpace(ws) == EmptyPromptText;
    assert forall i :: 0 <= i < |ws| ==> IsWord(ws[i]);
    JoinSpaceNormalized(ws);
  }

  /** On non-blank input the result is the input's words joined by single spaces. */
  lemma PreprocessJoinsWords(text: string)
    requires !IsBlank(text)
    ensures Preprocess(text) == JoinSpace(Words(text))
  {
    WordsOfStrip(text);
    WordsEmptyIffBlank(text);
    JoinSpaceNormalized(Words(text));
  }

  /** Preprocessing twice is preprocessing once. */
  lemma PreprocessIdempotent(text: string)
    ensures Preprocess(Preprocess(text)) == Preprocess(text)
  {
    var r := Preprocess(text);
    PreprocessFacts(r);
    JoinSpaceWordsOfNormalized(r);
  }

  // ---------------------------------------------------------------- tokenize_text preprocessing

  /** What `tokenize_text` accepts: one prompt or a list of prompts. */
  datatype TextInput = One(text: string) | Many(texts: seq<string>)

  /** The preprocessing step of `tokenize_text`, applied to one prompt or to each prompt. */
  function PreprocessInput(t: TextInput): (r: TextInput)
    ensures r.One? <==> t.One?
    ensures t.One? ==> r.text == Preprocess(t.text)
    ensures t.One? ==> r.text != [] && Normalized(r.text)
    ensures t.Many? ==> |r.texts| == |t.texts|
    ensures t.Many? ==> forall i :: 0 <= i < |t.texts| ==> r.texts[i] == Preprocess(t.texts[i])
    ensures t.Many? ==> forall i :: 0 <= i < |t.texts| ==> r.texts[i] != [] && Normalized(r.texts[i])
  {
    match t
    case One(s) => One(Preprocess(s))
    case Many(ss) => Many(seq(|ss|, i requires 0 <= i < |ss| => Preprocess(ss[i])))
  }

  /** Feeding preprocessed input back in changes nothing. */
  lemma PreprocessInputIdempotent(t: TextInput)
    ensures PreprocessInput(PreprocessInput(t)) == PreprocessInput(t)
  {
    match t
    case One(s) => PreprocessIdempotent(s);
    case Many(ss) =>
      forall i | 0 <= i < |ss| ensures Preprocess(Preprocess(ss[i])) == Preprocess(ss[i]) {
        PreprocessIdempotent(ss[i]);
      }
  }

  // ---------------------------------------------------------------- create_prompt_variations

  const DefaultVariations: seq<string> := [
    "high quality, detailed",
    "photorealistic, 8k resolution",
    "artistic, beautiful",
    "professional photography",
    "masterpiece, best quality"
  ]

  /** The base prompt, then the base with each modifier appended after ", ". */
  function PromptVariations(base: string, variations: seq<string>): (r: seq<string>)
    ensures |r| == 1 + |variations|
    ensures r[0] == base
    ensures forall i :: 0 <= i < |variations| ==> r[i + 1] == base + ", " + variations[i]
  {
    if variations == [] then [base]
    else PromptVariations(base, variations[..|variations| - 1]) + [base + ", " + variations[|variations| - 1]]
  }

  /** With no modifiers given, the five defaults give six prompts. */
  function DefaultPromptVariations(base: string, variations: Option<seq<string>>): (r: seq<string>)
    ensures variations.None? ==> |r| == 6
    ensures variations.None? ==> r[0] == base && forall i :: 0 <= i < 5 ==> r[i + 1] == base + ", " + DefaultVariations[i]
    ensures variations.Some? ==> |r| == 1 + |variations.value|
    ensures variations.Some? ==> r[0] == base && forall i :: 0 <= i < |variations.value| ==> r[i + 1] == base + ", " + variations.value[i]
  {
    PromptVariations(base, if variations.Some? then variations.value else DefaultVariations)
  }

  // ---------------------------------------------------------------- extract_keywords

  const StopWords: set<string> := {
    "the", "a", "an", "and", "or", "but", "in", "on", "at", "to", "for",
    "of", "with", "by", "is", "are", "was", "were", "be", "been", "being"
  }

  /** The distinct lower-cased words longer than two characters that are not stop words. */
  function ExtractKeywords(text: string): (ks: set<string>)
    ensures forall k :: k in ks ==> |k| > 2 && k !in StopWords && k in Words(Lower(text))
    ensures forall k, c :: k in ks && c in k ==> !IsUpper(c)
  {
    var ks := set w | w in Words(Lower(text)) && w !in StopWords && |w| > 2;
    WordsChars(Lower(text));
    LowerHasNoUpper(text);
    ks
  }

  lemma LowerHasNoUpper(text: string)
    ensures forall c :: c in Lower(text) ==> !IsUpper(c)
  {
  }

  /** Every qualifying word of the prompt is a keyword. */
  lemma ExtractKeywordsComplete(text: string, w: string)
    requires w in Words(Lower(text)) && w !in StopWords && |w| > 2
    ensures w in ExtractKeywords(text)
  {
  }

  /** Keyword extraction ignores case: lower-casing first changes nothing. */
  lemma ExtractKeywordsCaseInsensitive(text: string)
    ensures ExtractKeywords(Lower(text)) == ExtractKeywords(text)
  {
    LowerIdempotent(text);
  }

  lemma LowerIdempotent(text: string)
    ensures Lower(Lower(text)) == Lower(text)
  {
  }
}

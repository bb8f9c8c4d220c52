/**
 * `unified_multimedia_interface.py`: the demo picture of
 * `create_demo_image` and the bulleted generation details of
 * `generate_multimedia_content`, whose "Enhanced prompt" line appears only
 * when the enhanced prompt differs from the original.
 */
module MultimediaInterface {
  import opened Text
  import opened Wrappers
  import opened Colors
  import opened Wrap
  import opened Files
  import opened Frontend
  import Tokenizer
  import Classifier

  // ---------------------------------------------------------------- create_demo_image

  const Schemes: map<string, Palette> := map[
    "realistic" := Palette(Rgb(245, 248, 255), Rgb(70, 130, 180), Rgb(25, 25, 112)),
    "artistic" := Palette(Rgb(255, 245, 238), Rgb(255, 140, 0), Rgb(139, 69, 19)),
    "professional" := Palette(Rgb(248, 248, 255), Rgb(105, 105, 105), Rgb(47, 79, 79)),
    "cinematic" := Palette(Rgb(25, 25, 25), Rgb(255, 215, 0), Rgb(255, 255, 255))
  ]

  const Themes: seq<Theme> := [
    Theme(Dog, ["dog", "puppy"]),
    Theme(Cat, ["cat", "kitten"]),
    Theme(Car, ["car", "vehicle"]),
    Theme(Human, ["human", "person", "portrait"])
  ]

  /** A candidate line fits while `len(candidate) < 50`. */
  const PromptWidth := Width(1, 50)
  const PromptCap := 3

  datatype Picture = Picture(palette: Palette, subject: Subject, prompt: seq<TextRow>)

  function PictureOf(prompt: string, style: string): Picture {
    Picture(SchemeFor(Schemes, style), SubjectOf(prompt, Themes),
            Rows(DrawnLines(prompt, PromptWidth, PromptCap), 440, 18))
  }

  method CreateDemoImage(prompt: string, style: string) returns (p: Picture)
    ensures p == PictureOf(prompt, style)
  {
    var lines := WrapPadded(prompt, PromptWidth);
    p := Picture(SchemeFor(Schemes, style), SubjectOf(prompt, Themes), Rows(Take(lines, PromptCap), 440, 18));
  }

  /**
   * At most three prompt lines, 18 apart from y = 440, each a non-empty
   * line of the greedy wrap, every multi-word line shorter than 50.
   */
  lemma PicturePrompt(prompt: string, style: string)
    ensures var rows := PictureOf(prompt, style).prompt;
      && |rows| <= 3
      && (|rows| == |Lines(PromptWidth, prompt)| || |rows| == 3)
      && forall i :: 0 <= i < |rows| ==>
           && rows[i] == TextRow(440 + 18 * i, Lines(PromptWidth, prompt)[i])
           && rows[i].text != ""
           && (|Words(rows[i].text)| >= 2 ==> |rows[i].text| < 50)
  {
    DrawnLinesFacts(prompt, PromptWidth, PromptCap);
    var d := DrawnLines(prompt, PromptWidth, PromptCap);
    var all := Lines(PromptWidth, prompt);
    assert forall i :: 0 <= i < |d| ==> d[i] == all[i];
  }

  /** A prompt naming none of the keywords is drawn as the creative fallback. */
  lemma CreativeFallback(prompt: string, style: string)
    requires forall k :: 0 <= k < |Themes| ==> !Classifier.Matches(Lower(prompt), Themes[k].keywords)
    ensures PictureOf(prompt, style).subject == Creative
  {
  }

  // ---------------------------------------------------------------- narration

  const NarrationThemes: seq<Theme> := [
    Theme(Dog, ["dog", "puppy"]),
    Theme(Cat, ["cat", "kitten"]),
    Theme(Car, ["car", "vehicle"]),
    Theme(Human, ["human", "person", "portrait"])
  ]

  function Sentence(s: Subject): string {
    match s
    case Dog => "This image shows a friendly dog with characteristic features like ears, eyes, and a nose, rendered in a realistic style."
    case Cat => "This image depicts a cat with pointed ears, green eyes, and typical feline characteristics."
    case Car => "This image shows a car with body, wheels, and automotive features in a stylized representation."
    case Human => "This image represents a human figure with facial features and body in a artistic style."
    case _ => "This image shows a creative artistic representation of the described concept."
  }

  function NarrationIntro(prompt: string): string {
    "This is an AI generated description of: " + prompt + ". "
  }

  function NarrationOutro(style: string): string {
    " The image is rendered in " + style + " style with appropriate colors and visual elements."
  }

  /** The narration of a subject: the introduction, the subject's sentence, the closing sentence. */
  function Narration(prompt: string, style: string, s: Subject): string {
    NarrationIntro(prompt) + Sentence(s) + NarrationOutro(style)
  }

  function AudioText(prompt: string, style: string): string {
    Narration(prompt, style, Pick(Lower(prompt), NarrationThemes))
  }

  /** The narration describes exactly the subject the picture shows. */
  lemma NarrationDescribesPicture(prompt: string, style: string)
    ensures AudioText(prompt, style) == Narration(prompt, style, PictureOf(prompt, style).subject)
  {
    assert NarrationThemes == Themes;
  }

  // ---------------------------------------------------------------- generate_multimedia_content

  /**
   * The speech back-ends: the AI converter (absent, its file, or the
   * exception it raised) and the fallback helper's `(path, status)` pair,
   * which is consulted only when the converter is absent or raised.
   */
  datatype Speech = Speech(ai: Option<Result<string, string>>, fallbackPath: Option<string>, fallbackStatus: string)

  function ImagePath(style: string, clock: Clock): string {
    PathJoin("outputs/unified_images", "unified_" + style + "_" + Stamp(clock) + ".png")
  }

  function EnhancedPrompt(prompt: string, style: string, e: Enhancer): string {
    EnhancedOrKept(prompt, style, e, QualityFallback(prompt, style))
  }

  /** The image report: three lines and the enhanced prompt when it differs, or the exception. */
  function ImageReport(prompt: string, style: string, e: Enhancer, clock: Clock, imageError: Option<string>): seq<string> {
    match imageError
    case None =>
      ["\U{2705} Image generated successfully", "\U{1F4F8} Style: " + style, "\U{1F4C1} Image saved to: " + ImagePath(style, clock)]
      + (var enhanced := EnhancedPrompt(prompt, style, e);
         if enhanced != prompt then ["\U{1F524} Enhanced prompt: '" + enhanced + "'"] else [])
    case Some(err) => ["\U{274C} Image generation failed: " + err]
  }

  const AudioSkipped := "\U{1F507} Audio generation skipped (disabled)"

  function AudioReport(includeAudio: bool, speech: Speech): (r: seq<string>)
    ensures !includeAudio ==> r == [AudioSkipped]
  {
    if !includeAudio then [AudioSkipped]
    else match speech.ai
      case Some(Ok(path)) => ["\U{2705} Audio generated using AI TTS", "\U{1F3B5} Audio saved to: " + path]
      case Some(Err(err)) => ["\U{26A0}\U{FE0F} AI TTS failed, trying Windows TTS: " + err, speech.fallbackStatus]
      case None => [speech.fallbackStatus]
  }

  function AudioPath(includeAudio: bool, speech: Speech): Option<string> {
    if !includeAudio then None
    else match speech.ai
      case Some(Ok(path)) => Some(path)
      case _ => speech.fallbackPath
  }

  function Results(prompt: string, style: string, e: Enhancer, clock: Clock, imageError: Option<string>,
                   includeAudio: bool, speech: Speech): seq<string>
  {
    ImageReport(prompt, style, e, clock, imageError) + AudioReport(includeAudio, speech)
  }

  /**
   * "Enhanced prompt" is reported exactly when processing is available and
   * the image was made, and then it carries the enhanced prompt.
   */
  lemma EnhancedReported(prompt: string, style: string, e: Enhancer, clock: Clock)
    ensures |ImageReport(prompt, style, e, clock, None)| == 4 <==> e != Unavailable
    ensures e == Working ==>
              ImageReport(prompt, style, e, clock, None)[3] ==
              "\U{1F524} Enhanced prompt: '" + Tokenizer.EnhancePrompt(prompt, style) + "'"
    ensures e == Raising ==>
              ImageReport(prompt, style, e, clock, None)[3] ==
              "\U{1F524} Enhanced prompt: '" + QualityFallback(prompt, style) + "'"
  {
    EnhancedDiffers(prompt, style, e);
  }

  /** One detail line: `f"  • {result}\n"`. */
  function Bullet(result: string): string {
    "  \U{2022} " + result + "\n"
  }

  function Bulleted(results: seq<string>): string {
    if results == [] then "" else Bullet(results[0]) + Bulleted(results[1..])
  }

  lemma {:induction false} BulletedAppend(a: seq<string>, b: seq<string>)
    ensures Bulleted(a + b) == Bulleted(a) + Bulleted(b)
    decreases |a|
  {
    if a == [] {
      assert a + b == b;
    } else {
      assert (a + b)[0] == a[0];
      assert (a + b)[1..] == a[1..] + b;
      BulletedAppend(a[1..], b);
    }
  }

  /** The `for result in results` loop that builds the details block. */
  method BulletResults(results: seq<string>) returns (details: string)
    ensures details == Bulleted(results)
  {
    details := "";
    for i := 0 to |results|
      invariant details == Bulleted(results[..i])
    {
      BulletedAppend(results[..i], [results[i]]);
      assert results[..i + 1] == results[..i] + [results[i]];
      details := details + Bullet(results[i]);
    }
    assert results[..|results|] == results;
  }

  datatype Reply = Refused(message: string) | Reply(picture: Option<Picture>, audio: Option<string>, details: string)

  method GenerateMultimediaContent(prompt: string, style: string, includeAudio: bool, e: Enhancer, clock: Clock,
                                   imageError: Option<string>, speech: Speech) returns (r: Reply)
    ensures IsBlank(prompt) <==> r == Refused(PromptRequired)
    ensures !IsBlank(prompt) ==>
      r == Reply(if imageError.None? then Some(PictureOf(prompt, style)) else None,
                 AudioPath(includeAudio, speech),
                 Bulleted(Results(prompt, style, e, clock, imageError, includeAudio, speech)))
  {
    if IsBlank(prompt) {
      return Refused(PromptRequired);
    }
    var picture: Option<Picture> := None;
    if imageError.None? {
      var p := CreateDemoImage(prompt, style);
      picture := Some(p);
    }
    var details := BulletResults(Results(prompt, style, e, clock, imageError, includeAudio, speech));
    r := Reply(picture, AudioPath(includeAudio, speech), details);
  }
}

/**
 * `unified_multimedia_simplified.py`: the demo picture of
 * `create_demo_image` (style scheme, subject, tie, wrapped prompt) and the
 * numbered generation details of `generate_multimedia_content`, including
 * the narration text whose description follows the drawn subject.
 */
module MultimediaSimplified {
  import opened Text
  import opened Wrappers
  import opened Colors
  import opened Classifier
  import opened Wrap
  import opened Files
  import opened Frontend
  import Tokenizer

  // ---------------------------------------------------------------- create_demo_image

  datatype Scheme = Scheme(bg: Rgb, accent: Rgb, text: Rgb, subject: Rgb)

  const Schemes: map<string, Scheme> := map[
    "realistic" := Scheme(Rgb(245, 248, 255), Rgb(70, 130, 180), Rgb(25, 25, 112), Rgb(139, 69, 19)),
    "artistic" := Scheme(Rgb(255, 245, 238), Rgb(255, 140, 0), Rgb(139, 69, 19), Rgb(255, 100, 100)),
    "professional" := Scheme(Rgb(248, 248, 255), Rgb(105, 105, 105), Rgb(47, 79, 79), Rgb(70, 130, 180)),
    "cinematic" := Scheme(Rgb(25, 25, 25), Rgb(255, 215, 0), Rgb(255, 255, 255), Rgb(255, 100, 100))
  ]

  /** The keyword branches of the drawing, in the order they are tried. */
  const Themes: seq<Theme> := [
    Theme(Dog, ["dog", "puppy", "golden retriever"]),
    Theme(Cat, ["cat", "kitten", "fluffy"]),
    Theme(Car, ["car", "vehicle", "sports car", "red car"]),
    Theme(Human, ["human", "person", "portrait", "business"]),
    Theme(Landscape, ["mountain", "landscape", "lake", "beautiful"])
  ]

  /** A candidate line fits while `len(candidate) < 45`. */
  const PromptWidth := Width(1, 45)
  const PromptCap := 3

  /** What `create_demo_image` decides, apart from pixels and fonts. */
  datatype Picture = Picture(scheme: Scheme, subject: Subject, tie: bool, prompt: seq<TextRow>)

  /** `f'"{line}"'`, how each prompt line is drawn. */
  function Quoted(line: string): (r: string)
    ensures |r| == |line| + 2 && r[1..|r| - 1] == line
  {
    "\"" + line + "\""
  }

  function QuoteAll(lines: seq<string>): (r: seq<string>)
    ensures |r| == |lines|
    ensures forall i :: 0 <= i < |lines| ==> r[i] == Quoted(lines[i])
  {
    if lines == [] then [] else [Quoted(lines[0])] + QuoteAll(lines[1..])
  }

  /** The tie is drawn on the person only when the prompt is about business. */
  function Tie(prompt: string, subject: Subject): (t: bool)
    ensures t <==> subject == Human && (Contains(Lower(prompt), "business") || Contains(Lower(prompt), "professional"))
  {
    subject == Human && (Contains(Lower(prompt), "business") || Contains(Lower(prompt), "professional"))
  }

  function PictureOf(prompt: string, style: string): Picture {
    var subject := SubjectOf(prompt, Themes);
    Picture(SchemeFor(Schemes, style), subject, Tie(prompt, subject),
            Rows(QuoteAll(DrawnLines(prompt, PromptWidth, PromptCap)), 420, 20))
  }

  /** The picture, with the prompt wrapped by the script's own loop. */
  method CreateDemoImage(prompt: string, style: string) returns (p: Picture)
    ensures p == PictureOf(prompt, style)
  {
    var subject := SubjectOf(prompt, Themes);
    var lines := WrapPadded(prompt, PromptWidth);
    p := Picture(SchemeFor(Schemes, style), subject, Tie(prompt, subject),
                 Rows(QuoteAll(Take(lines, PromptCap)), 420, 20));
  }

  /**
   * The drawn prompt: at most three quoted lines, 20 apart from y = 420,
   * each a line of the greedy wrap, none empty, every multi-word line
   * shorter than 45 characters.
   */
  lemma PicturePrompt(prompt: string, style: string)
    ensures var rows := PictureOf(prompt, style).prompt;
      && |rows| <= 3
      && (|rows| == |Lines(PromptWidth, prompt)| || |rows| == 3)
      && forall i :: 0 <= i < |rows| ==>
           && rows[i].y == 420 + 20 * i
           && rows[i].text == Quoted(Lines(PromptWidth, prompt)[i])
           && Lines(PromptWidth, prompt)[i] != ""
           && (|Words(Lines(PromptWidth, prompt)[i])| >= 2 ==> |Lines(PromptWidth, prompt)[i]| < 45)
  {
    DrawnLinesFacts(prompt, PromptWidth, PromptCap);
    var d := DrawnLines(prompt, PromptWidth, PromptCap);
    var all := Lines(PromptWidth, prompt);
    assert forall i :: 0 <= i < |d| ==> d[i] == all[i];
  }

  /** An unrecognised style draws with the realistic scheme. */
  lemma UnknownStyleLooksRealistic(prompt: string, style: string)
    requires style !in Schemes
    ensures PictureOf(prompt, style).scheme == Scheme(Rgb(245, 248, 255), Rgb(70, 130, 180), Rgb(25, 25, 112), Rgb(139, 69, 19))
  {
  }

  // ---------------------------------------------------------------- narration

  /** The branches the narration text is chosen by, in their own order. */
  const NarrationThemes: seq<Theme> := [
    Theme(Dog, ["dog", "puppy", "golden retriever"]),
    Theme(Cat, ["cat", "kitten", "fluffy"]),
    Theme(Car, ["car", "vehicle", "sports car", "red car"]),
    Theme(Human, ["human", "person", "portrait", "business"]),
    Theme(Landscape, ["mountain", "landscape", "lake", "beautiful"])
  ]

  const DogSentence := "The image shows a golden retriever dog with characteristic features including ears, eyes, nose, and a wagging tail. The dog appears friendly and is rendered with warm brown colors in a realistic style."
  const CatSentence := "The image depicts a fluffy cat with pointed ears, bright green eyes, and typical feline characteristics. The cat has whiskers and a curved tail, rendered in gray tones with artistic detail."
  const CarSentence := "The image shows a red sports car with a sleek body, windshield, wheels with chrome rims, and bright headlights. The vehicle represents modern automotive design with clean lines and sporty proportions."
  const HumanSentence := "The image represents a professional person with facial features, hair, and business attire including a tie. The portrait shows a human figure in a formal, business-appropriate style."
  const LandscapeSentence := "The image shows a beautiful mountain landscape with peaks, a serene lake, and trees. The scene includes natural elements like mountains in the background, water in the foreground, and vegetation, creating a peaceful natural setting."
  const CreativeSentence := "The image shows a creative artistic representation with colorful elements and geometric shapes. The composition includes multiple colors and forms arranged in an aesthetically pleasing manner."

  /** The description sentence the narration gives for a subject. */
  function Sentence(s: Subject): string {
    match s
    case Dog => DogSentence
    case Cat => CatSentence
    case Car => CarSentence
    case Human => HumanSentence
    case Landscape => LandscapeSentence
    case _ => CreativeSentence
  }

  function NarrationIntro(prompt: string): string {
    "This is an AI generated multimedia content. The prompt was: " + prompt + ". "
  }

  function NarrationOutro(style: string): string {
    " The image is rendered in " + style + " style with appropriate colors, lighting, and visual elements that enhance the overall composition and mood."
  }

  /** The narration of a subject: the introduction, the subject's sentence, the closing sentence. */
  function Narration(prompt: string, style: string, s: Subject): string {
    NarrationIntro(prompt) + Sentence(s) + NarrationOutro(style)
  }

  /** `audio_text` as `generate_multimedia_content` assembles it. */
  function AudioText(prompt: string, style: string): string {
    Narration(prompt, style, Pick(Lower(prompt), NarrationThemes))
  }

  /** The narration describes exactly the subject the picture shows. */
  lemma NarrationDescribesPicture(prompt: string, style: string)
    ensures AudioText(prompt, style) == Narration(prompt, style, PictureOf(prompt, style).subject)
  {
    NarrationSubject(prompt);
    PictureSubject(prompt, style);
  }

  lemma PictureSubject(prompt: string, style: string)
    ensures PictureOf(prompt, style).subject == SubjectOf(prompt, Themes)
  {
  }

  /** The subject narrated is the subject the keyword chain of the picture picks. */
  lemma NarrationSubject(prompt: string)
    ensures Pick(Lower(prompt), NarrationThemes) == SubjectOf(prompt, Themes)
  {
    NarrationKeywords();
  }

  /** The narration's keyword chain is the picture's, branch for branch. */
  lemma NarrationKeywords()
    ensures NarrationThemes == Themes
  {
  }

  // ---------------------------------------------------------------- generate_multimedia_content

  /** What the text-to-speech helper did: its status and file, or the exception it raised. */
  datatype Speech = Spoke(status: string, path: Option<string>) | SpeechFailed(error: string)

  const ImageFolder := "outputs/unified_images"

  /** `outputs/unified_images/multimedia_{style}_{timestamp}.png`. */
  function ImagePath(style: string, clock: Clock): string {
    PathJoin(ImageFolder, "multimedia_" + style + "_" + Stamp(clock) + ".png")
  }

  /** The enhancement report, when processing is available. */
  function EnhancementReport(prompt: string, style: string, e: Enhancer): (r: seq<string>)
    ensures e == Unavailable <==> r == []
  {
    match e
    case Unavailable => []
    case Raising => ["\U{1F524} Basic enhancement applied"]
    case Working => ["\U{1F524} Enhanced prompt: '" + Tokenizer.EnhancePrompt(prompt, style) + "'"]
  }

  /** The image report: three lines on success, the exception otherwise. */
  function ImageReport(style: string, clock: Clock, imageError: Option<string>): (r: seq<string>)
    ensures |r| == if imageError.None? then 3 else 1
  {
    match imageError
    case None => ["\U{2705} Image generated successfully", "\U{1F4F8} Style: " + Title(style),
                  "\U{1F4C1} Image saved to: " + ImagePath(style, clock)]
    case Some(err) => ["\U{274C} Image generation failed: " + err]
  }

  const AudioSkipped := "\U{1F507} Audio generation skipped (user disabled)"

  /** The audio report: skipped, the helper's status (and a ready line when it made a file), or the exception. */
  function AudioReport(includeAudio: bool, speech: Speech): (r: seq<string>)
    ensures !includeAudio ==> r == [AudioSkipped]
    ensures 1 <= |r| <= 2
    ensures includeAudio && speech.Spoke? ==> r[0] == speech.status && (|r| == 2 <==> speech.path.Some?)
  {
    if !includeAudio then [AudioSkipped]
    else match speech
      case Spoke(status, path) =>
        [status] + (if path.Some? then ["\U{1F3B5} Audio ready for playback"] else [])
      case SpeechFailed(err) => ["\U{274C} Audio generation failed: " + err]
  }

  /** `results`, in the order the three stages append to it. */
  function Results(prompt: string, style: string, e: Enhancer, clock: Clock, imageError: Option<string>,
                   includeAudio: bool, speech: Speech): seq<string>
  {
    EnhancementReport(prompt, style, e) + ImageReport(style, clock, imageError) + AudioReport(includeAudio, speech)
  }

  /** One detail line: `f"  {i}. {result}\n"`. */
  function Item(i: nat, result: string): string {
    "  " + NatToString(i) + ". " + result + "\n"
  }

  /** The details block, numbering `results` consecutively from `start`. */
  function Numbered(results: seq<string>, start: nat): string {
    if results == [] then "" else Item(start, results[0]) + Numbered(results[1..], start + 1)
  }

  /** Numbering a list is numbering its two halves, the second continuing the count. */
  lemma {:induction false} NumberedAppend(a: seq<string>, b: seq<string>, start: nat)
    ensures Numbered(a + b, start) == Numbered(a, start) + Numbered(b, start + |a|)
    decreases |a|
  {
    if a == [] {
      assert a + b == b;
    } else {
      assert (a + b)[0] == a[0];
      assert (a + b)[1..] == a[1..] + b;
      NumberedAppend(a[1..], b, start + 1);
    }
  }

  /** The `i`-th result (from 0) is announced with number `start + i`. */
  lemma NumberedItem(results: seq<string>, start: nat, i: nat)
    requires i < |results|
    ensures Numbered(results, start) ==
              Numbered(results[..i], start) + Item(start + i, results[i]) + Numbered(results[i + 1..], start + i + 1)
  {
    assert results == results[..i] + [results[i]] + results[i + 1..];
    NumberedAppend(results[..i] + [results[i]], results[i + 1..], start);
    NumberedAppend(results[..i], [results[i]], start);
    assert Numbered([results[i]], start + i) == Item(start + i, results[i]) + Numbered([], start + i + 1);
  }

  /** The `for i, result in enumerate(results, 1)` loop that builds the details block. */
  method NumberResults(results: seq<string>) returns (details: string)
    ensures details == Numbered(results, 1)
  {
    details := "";
    for i := 0 to |results|
      invariant details == Numbered(results[..i], 1)
    {
      NumberedAppend(results[..i], [results[i]], 1);
      assert results[..i + 1] == results[..i] + [results[i]];
      details := details + Item(i + 1, results[i]);
    }
    assert results[..|results|] == results;
  }

  /** What `generate_multimedia_content` returns, with the status reduced to its details block. */
  datatype Reply = Refused(message: string) | Reply(picture: Option<Picture>, audio: Option<string>, details: string)

  function AudioPath(includeAudio: bool, speech: Speech): Option<string> {
    if includeAudio && speech.Spoke? then speech.path else None
  }

  /**
   * The whole call: a blank prompt is refused before anything else; any
   * other prompt yields the picture unless drawing or saving raised, the
   * audio file when one was made, and the numbered details.
   */
  method GenerateMultimediaContent(prompt: string, style: string, includeAudio: bool, e: Enhancer, clock: Clock,
                                   imageError: Option<string>, speech: Speech) returns (r: Reply)
    ensures IsBlank(prompt) <==> r == Refused(PromptRequired)
    ensures !IsBlank(prompt) ==>
      r == Reply(if imageError.None? then Some(PictureOf(prompt, style)) else None,
                 AudioPath(includeAudio, speech),
                 Numbered(Results(prompt, style, e, clock, imageError, includeAudio, speech), 1))
  {
    if IsBlank(prompt) {
      return Refused(PromptRequired);
    }
    var picture: Option<Picture> := None;
    if imageError.None? {
      var p := CreateDemoImage(prompt, style);
      picture := Some(p);
    }
    var details := NumberResults(Results(prompt, style, e, clock, imageError, includeAudio, speech));
    r := Reply(picture, AudioPath(includeAudio, speech), details);
  }

  /**
   * The details open with the enhancement report when processing is
   * available, and close with the skipped-audio line exactly when audio
   * was not requested.
   */
  lemma DetailsReport(prompt: string, style: string, e: Enhancer, clock: Clock, imageError: Option<string>,
                      includeAudio: bool, speech: Speech)
    ensures var rs := Results(prompt, style, e, clock, imageError, includeAudio, speech);
      && (e == Working ==> Numbered(rs, 1)[..|Item(1, rs[0])|] == Item(1, "\U{1F524} Enhanced prompt: '" + Tokenizer.EnhancePrompt(prompt, style) + "'"))
      && (!includeAudio ==> rs[|rs| - 1] == AudioSkipped)
  {
    var rs := Results(prompt, style, e, clock, imageError, includeAudio, speech);
    if e == Working {
      NumberedItem(rs, 1, 0);
      assert rs[..0] == [];
    }
  }
}

/**
 * `simple_working_interface.py`: the demo picture of `create_demo_image`
 * and the image loop of `generate_image`, which draws and saves exactly
 * the requested number of pictures under distinct numbered names.
 */
module SimpleWorking {
  import opened Text
  import opened Wrappers
  import opened Colors
  import opened Wrap
  import opened Files
  import opened Frontend

  // ---------------------------------------------------------------- create_demo_image

  const Schemes: map<string, Palette> := map[
    "realistic" := Palette(Rgb(245, 248, 255), Rgb(70, 130, 180), Rgb(25, 25, 112)),
    "artistic" := Palette(Rgb(255, 245, 238), Rgb(255, 140, 0), Rgb(139, 69, 19)),
    "professional" := Palette(Rgb(248, 248, 255), Rgb(105, 105, 105), Rgb(47, 79, 79)),
    "cinematic" := Palette(Rgb(25, 25, 25), Rgb(255, 215, 0), Rgb(255, 255, 255))
  ]

  const Themes: seq<Theme> := [
    Theme(Dog, ["dog", "puppy"]),
    Theme(Cat, ["cat", "kitten"]),
    Theme(Car, ["car", "vehicle"]),
    Theme(Human, ["human", "person", "portrait"])
  ]

  /** A candidate line fits while `len(candidate) < 50`. */
  const PromptWidth := Width(1, 50)
  const PromptCap := 3

  datatype Picture = Picture(palette: Palette, subject: Subject, prompt: seq<TextRow>)

  function PictureOf(prompt: string, style: string): Picture {
    Picture(SchemeFor(Schemes, style), SubjectOf(prompt, Themes),
            Rows(DrawnLines(prompt, PromptWidth, PromptCap), 440, 18))
  }

  method CreateDemoImage(prompt: string, style: string) returns (p: Picture)
    ensures p == PictureOf(prompt, style)
  {
    var lines := WrapPadded(prompt, PromptWidth);
    p := Picture(SchemeFor(Schemes, style), SubjectOf(prompt, Themes), Rows(Take(lines, PromptCap), 440, 18));
  }

  /**
   * At most three prompt lines, 18 apart from y = 440, each a non-empty
   * line of the greedy wrap, every multi-word line shorter than 50.
   */
  lemma PicturePrompt(prompt: string, style: string)
    ensures var rows := PictureOf(prompt, style).prompt;
      && |rows| <= 3
      && (|rows| == |Lines(PromptWidth, prompt)| || |rows| == 3)
      && forall i :: 0 <= i < |rows| ==>
           && rows[i] == TextRow(440 + 18 * i, Lines(PromptWidth, prompt)[i])
           && rows[i].text != ""
           && (|Words(rows[i].text)| >= 2 ==> |rows[i].text| < 50)
  {
    DrawnLinesFacts(prompt, PromptWidth, PromptCap);
    var d := DrawnLines(prompt, PromptWidth, PromptCap);
    var all := Lines(PromptWidth, prompt);
    assert forall i :: 0 <= i < |d| ==> d[i] == all[i];
  }

  // ---------------------------------------------------------------- generate_image

  const OutputFolder := "outputs/simple_generated"

  function SavedStem(style: string, clock: Clock): string {
    "demo_" + style + "_" + Stamp(clock)
  }

  /** `outputs/simple_generated/demo_{style}_{timestamp}_{i+1}.png`. */
  function SavedPath(style: string, clock: Clock, i: nat): string {
    PathJoin(OutputFolder, NumberedName(SavedStem(style, clock), i))
  }

  /** The "Enhanced prompt" status line is present only when enhancement changed the prompt. */
  function EnhancedLine(prompt: string, style: string, e: Enhancer): (r: Option<string>)
    ensures r.Some? <==> e != Unavailable
    ensures r.Some? ==> r.value == "\U{1F524} Enhanced prompt: '" + EnhancedOrKept(prompt, style, e, QualityFallback(prompt, style)) + "'\n"
  {
    EnhancedDiffers(prompt, style, e);
    var enhanced := EnhancedOrKept(prompt, style, e, QualityFallback(prompt, style));
    if enhanced != prompt then Some("\U{1F524} Enhanced prompt: '" + enhanced + "'\n") else None
  }

  /** What `generate_image` returns and writes: the pictures, the files saved, the enhanced-prompt line. */
  datatype Outcome = Refused(message: string) | Made(images: seq<Picture>, saved: seq<string>, enhanced: Option<string>)

  /**
   * A blank prompt is refused; otherwise `numImages` identical pictures are
   * drawn, the `i`-th saved as `demo_{style}_{timestamp}_{i+1}.png`.
   */
  method GenerateImage(prompt: string, style: string, numImages: nat, e: Enhancer, clock: Clock) returns (r: Outcome)
    ensures IsBlank(prompt) <==> r == Refused(PromptRequired)
    ensures !IsBlank(prompt) ==>
      r == Made(Repeated(PictureOf(prompt, style), numImages),
                NumberedPaths(OutputFolder, SavedStem(style, clock), numImages),
                EnhancedLine(prompt, style, e))
  {
    if IsBlank(prompt) {
      return Refused(PromptRequired);
    }
    var images: seq<Picture> := [];
    var saved: seq<string> := [];
    for i := 0 to numImages
      invariant images == Repeated(PictureOf(prompt, style), i)
      invariant saved == NumberedPaths(OutputFolder, SavedStem(style, clock), i)
    {
      var img := CreateDemoImage(prompt, style);
      images := images + [img];
      saved := saved + [SavedPath(style, clock, i)];
    }
    r := Made(images, saved, EnhancedLine(prompt, style, e));
  }

  /** The files of one call are pairwise distinct: no picture overwrites another. */
  lemma SavedPathsDistinct(style: string, clock: Clock, i: nat, j: nat)
    requires i != j
    ensures SavedPath(style, clock, i) != SavedPath(style, clock, j)
  {
    NumberedNamesDistinct(OutputFolder, SavedStem(style, clock), i, j);
  }
}

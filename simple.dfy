/**
 * `simple_interface.py`: `generate_demo_image` draws, for each requested
 * image, a clamped gradient over the style's base colour, the original
 * prompt wrapped at `10 * len < 472` (three lines at most), the enhanced
 * prompt wrapped at `8 * len < 472` (four lines at most) below it, and an
 * icon chosen from the prompt's keywords; each image is saved once.
 */
module SimpleDemo {
  import opened Text
  import opened Wrappers
  import opened Colors
  import opened Classifier
  import opened Wrap
  import opened Files
  import opened Frontend
  import Tokenizer

  const BaseColors: map<string, Rgb> := map[
    "realistic" := Rgb(135, 206, 235),
    "artistic" := Rgb(147, 112, 219),
    "professional" := Rgb(70, 130, 180),
    "cinematic" := Rgb(25, 25, 112)
  ]

  lemma BaseColorsValid()
    ensures forall s | s in BaseColors :: ValidRgb(BaseColors[s])
  {
    forall s | s in BaseColors
      ensures ValidRgb(BaseColors[s])
    {
    }
  }

  // ---------------------------------------------------------------- gradient

  /**
   * `int(255 * (y / 512))` for a row `0 <= y < 512`. Both `y / 512` and its
   * product with 255 are exact in binary floating point, so the value is the
   * integer floor of `255 * y / 512`.
   */
  function Intensity(y: nat): nat {
    255 * y / 512
  }

  /** `min(255, c + color_intensity // 4)`. */
  function Lift(c: int, y: nat): int {
    var v := c + Intensity(y) / 4;
    if v < 255 then v else 255
  }

  /** The colour of gradient row `y`. */
  function GradientRow(base: Rgb, y: nat): Rgb {
    Rgb(Lift(base.r, y), Lift(base.g, y), Lift(base.b, y))
  }

  lemma IntensityBounds(y: nat)
    requires y < 512
    ensures Intensity(y) / 4 <= 63
  {
  }

  lemma IntensityMonotone(y1: nat, y2: nat)
    requires y1 <= y2
    ensures Intensity(y1) <= Intensity(y2)
  {
  }

  /**
   * Every gradient colour is a valid byte triple; the first row is the base
   * colour; each component only grows down the image, by at most 63.
   */
  lemma GradientFacts(base: Rgb, y1: nat, y2: nat)
    requires ValidRgb(base) && y1 <= y2 < 512
    ensures ValidRgb(GradientRow(base, y1)) && ValidRgb(GradientRow(base, y2))
    ensures GradientRow(base, 0) == base
    ensures GradientRow(base, y1).r <= GradientRow(base, y2).r
    ensures GradientRow(base, y1).g <= GradientRow(base, y2).g
    ensures GradientRow(base, y1).b <= GradientRow(base, y2).b
    ensures base.r <= GradientRow(base, y2).r <= base.r + 63
  {
    IntensityBounds(y2);
    IntensityMonotone(y1, y2);
  }

  // ---------------------------------------------------------------- prompt texts

  /** The enhanced prompt: the enhancer's when it works, the quality fallback otherwise. */
  function EnhancedText(prompt: string, style: string, e: Enhancer): (r: string)
    ensures e == Working ==> r == Tokenizer.EnhancePrompt(prompt, style)
    ensures e != Working ==> r == QualityFallback(prompt, style)
    ensures |r| > |prompt| && r[..|prompt|] == prompt
  {
    if e == Working then Tokenizer.EnhancePrompt(prompt, style) else QualityFallback(prompt, style)
  }

  /** The negative prompt: `create_negative_prompt()` (category "general") when it works, a fixed fallback otherwise. */
  function NegativeText(e: Enhancer): (r: string)
    ensures e == Working ==> r == Tokenizer.NegativePrompt("general")
    ensures e != Working ==> r == "low quality, blurry"
  {
    if e == Working then Tokenizer.NegativePrompt("general") else "low quality, blurry"
  }

  // ---------------------------------------------------------------- icon

  /** The icon branches: "dog"; "human" or "person"; "car"; "landscape". */
  const IconThemes: seq<Theme> := [
    Theme(Dog, ["dog"]),
    Theme(Human, ["human", "person"]),
    Theme(Car, ["car"]),
    Theme(Landscape, ["landscape"])
  ]

  /** The icon drawn in the corner, if any. */
  function IconOf(prompt: string): Option<Subject> {
    var s := SubjectOf(prompt, IconThemes);
    if s == Creative then None else Some(s)
  }

  /** The icon as the `if / elif` chain reads, keyword by keyword. */
  lemma IconChoice(prompt: string)
    ensures var t := Lower(prompt);
      IconOf(prompt) ==
        if Contains(t, "dog") then Some(Dog)
        else if Contains(t, "human") || Contains(t, "person") then Some(Human)
        else if Contains(t, "car") then Some(Car)
        else if Contains(t, "landscape") then Some(Landscape)
        else None
  {
    var t := Lower(prompt);
    MatchesSingle(t, "dog");
    MatchesPair(t, "human", "person");
    MatchesSingle(t, "car");
    MatchesSingle(t, "landscape");
  }

  // ---------------------------------------------------------------- one picture

  /** `10 * len(test_line) < 472` for the original prompt, `8 * len(test_line) < 472` for the enhanced one. */
  const OriginalWidth := Width(10, 472)
  const EnhancedWidth := Width(8, 472)

  /**
   * What one demo picture shows: its base colour, its number, the original
   * prompt rows, the height of the "Enhanced:" heading, the enhanced prompt
   * rows, the icon, and the negative prompt the script computes alongside.
   */
  datatype Picture = Picture(base: Rgb, number: nat, original: seq<TextRow>, heading: int,
                             enhanced: seq<TextRow>, icon: Option<Subject>, negative: string)

  function PictureOf(prompt: string, style: string, e: Enhancer, i: nat): Picture {
    var original := DrawnLines(prompt, OriginalWidth, 3);
    var m := |original|;
    Picture(SchemeFor(BaseColors, style), i + 1,
            Rows(original, 145, 30), 165 + m * 30,
            Rows(DrawnLines(EnhancedText(prompt, style, e), EnhancedWidth, 4), 190 + m * 30, 22),
            IconOf(prompt), NegativeText(e))
  }

  /** The drawing of picture `i`, with `y_pos` advanced line by line as the script does. */
  method DrawPicture(prompt: string, style: string, e: Enhancer, i: nat) returns (p: Picture)
    ensures p == PictureOf(prompt, style, e, i)
  {
    var enhanced := EnhancedText(prompt, style, e);
    var negative := NegativeText(e);
    var original, heading, enhancedRows := DrawTexts(prompt, enhanced);
    p := Picture(SchemeFor(BaseColors, style), i + 1, original, heading, enhancedRows, IconOf(prompt), negative);
  }

  /** The two text blocks of a picture, `y_pos` moving from 120 past the original prompt, the heading and the enhanced prompt. */
  method DrawTexts(prompt: string, enhanced: string) returns (original: seq<TextRow>, heading: int, enhancedRows: seq<TextRow>)
    ensures var m := |DrawnLines(prompt, OriginalWidth, 3)|;
      && original == Rows(DrawnLines(prompt, OriginalWidth, 3), 145, 30)
      && heading == 165 + m * 30
      && enhancedRows == Rows(DrawnLines(enhanced, EnhancedWidth, 4), 190 + m * 30, 22)
  {
    var y := 120;
    y := y + 25;
    var next;
    original, next := DrawBlock(prompt, OriginalWidth, 3, y, 30);
    next := next + 20;
    heading := next;
    next := next + 25;
    enhancedRows, next := DrawBlock(enhanced, EnhancedWidth, 4, next, 22);
  }

  /** The original prompt rows: between y = 145 and y = 205, each multi-word line within `10 * len < 472`. */
  lemma OriginalRows(prompt: string)
    ensures var lines := DrawnLines(prompt, OriginalWidth, 3);
      var rows := Rows(lines, 145, 30);
      && |rows| <= 3
      && (forall k :: 0 <= k < |rows| ==> 145 <= rows[k].y < 165 + |lines| * 30)
      && (forall k :: 0 <= k < |rows| && |Words(rows[k].text)| >= 2 ==> 10 * |rows[k].text| < 472)
  {
    DrawnLinesFacts(prompt, OriginalWidth, 3);
  }

  /** The enhanced prompt rows below a heading at `165 + 30 * m`: above y = 480, each multi-word line within `8 * len < 472`. */
  lemma EnhancedRows(text: string, m: nat)
    requires m <= 3
    ensures var rows := Rows(DrawnLines(text, EnhancedWidth, 4), 190 + m * 30, 22);
      && |rows| <= 4
      && (forall k :: 0 <= k < |rows| ==> 165 + m * 30 < rows[k].y < 480)
      && (forall k :: 0 <= k < |rows| && |Words(rows[k].text)| >= 2 ==> 8 * |rows[k].text| < 472)
  {
    DrawnLinesFacts(text, EnhancedWidth, 4);
  }

  /**
   * The text blocks never collide: every original row lies above the
   * "Enhanced:" heading, every enhanced row below it and above the footer
   * line at y = 480; the wrapped lines keep their width tests.
   */
  lemma PictureLayout(prompt: string, style: string, e: Enhancer, i: nat)
    ensures var p := PictureOf(prompt, style, e, i);
      && |p.original| <= 3 && |p.enhanced| <= 4
      && (forall k :: 0 <= k < |p.original| ==> 120 < p.original[k].y < p.heading)
      && (forall k :: 0 <= k < |p.enhanced| ==> p.heading < p.enhanced[k].y < 480)
      && (forall k :: 0 <= k < |p.original| && |Words(p.original[k].text)| >= 2 ==> 10 * |p.original[k].text| < 472)
      && (forall k :: 0 <= k < |p.enhanced| && |Words(p.enhanced[k].text)| >= 2 ==> 8 * |p.enhanced[k].text| < 472)
  {
    OriginalLayout(prompt, style, e, i);
    EnhancedLayout(prompt, style, e, i);
  }

  /** The original prompt rows of a picture lie between its top band and the "Enhanced:" heading. */
  lemma OriginalLayout(prompt: string, style: string, e: Enhancer, i: nat)
    ensures var p := PictureOf(prompt, style, e, i);
      && |p.original| <= 3
      && (forall k :: 0 <= k < |p.original| ==> 120 < p.original[k].y < p.heading)
      && (forall k :: 0 <= k < |p.original| && |Words(p.original[k].text)| >= 2 ==> 10 * |p.original[k].text| < 472)
  {
    OriginalRows(prompt);
  }

  /** The enhanced prompt rows of a picture lie between the "Enhanced:" heading and the footer line. */
  lemma EnhancedLayout(prompt: string, style: string, e: Enhancer, i: nat)
    ensures var p := PictureOf(prompt, style, e, i);
      && |p.enhanced| <= 4
      && (forall k :: 0 <= k < |p.enhanced| ==> p.heading < p.enhanced[k].y < 480)
      && (forall k :: 0 <= k < |p.enhanced| && |Words(p.enhanced[k].text)| >= 2 ==> 8 * |p.enhanced[k].text| < 472)
  {
    var m := |DrawnLines(prompt, OriginalWidth, 3)|;
    DrawnLinesFacts(prompt, OriginalWidth, 3);
    EnhancedRows(EnhancedText(prompt, style, e), m);
  }

  // ---------------------------------------------------------------- generate_demo_image

  const OutputFolder := "outputs/generated"

  function SavedStem(style: string, clock: Clock): string {
    "demo_" + style + "_" + Stamp(clock)
  }

  /** `outputs/generated/demo_{style}_{timestamp}_{i+1}.png`. */
  function SavedPath(style: string, clock: Clock, i: nat): string {
    PathJoin(OutputFolder, NumberedName(SavedStem(style, clock), i))
  }

  /** The first `n` pictures, numbered from 1. */
  function Pictures(prompt: string, style: string, e: Enhancer, n: nat): (r: seq<Picture>)
    ensures |r| == n && forall i :: 0 <= i < n ==> r[i] == PictureOf(prompt, style, e, i)
  {
    if n == 0 then [] else Pictures(prompt, style, e, n - 1) + [PictureOf(prompt, style, e, n - 1)]
  }

  datatype Outcome = Refused(message: string) | Made(images: seq<Picture>, saved: seq<string>)

  /**
   * A blank prompt is refused; otherwise picture `i` is drawn and saved as
   * `demo_{style}_{timestamp}_{i+1}.png`, once each, for every `i < numImages`.
   */
  method GenerateDemoImage(prompt: string, style: string, numImages: nat, e: Enhancer, clock: Clock) returns (r: Outcome)
    ensures IsBlank(prompt) <==> r == Refused(PromptRequired)
    ensures !IsBlank(prompt) ==>
      r == Made(Pictures(prompt, style, e, numImages), NumberedPaths(OutputFolder, SavedStem(style, clock), numImages))
  {
    if IsBlank(prompt) {
      return Refused(PromptRequired);
    }
    var images: seq<Picture> := [];
    var saved: seq<string> := [];
    for i := 0 to numImages
      invariant images == Pictures(prompt, style, e, i) && saved == NumberedPaths(OutputFolder, SavedStem(style, clock), i)
    {
      var img := DrawPicture(prompt, style, e, i);
      images := images + [img];
      saved := saved + [PathJoin(OutputFolder, NumberedName(SavedStem(style, clock), i))];
    }
    r := Made(images, saved);
  }

  lemma SavedPathsDistinct(style: string, clock: Clock, i: nat, j: nat)
    requires i != j
    ensures SavedPath(style, clock, i) != SavedPath(style, clock, j)
  {
    NumberedNamesDistinct(OutputFolder, SavedStem(style, clock), i, j);
  }
}

/**
 * `enhanced_generator.py`: `create_realistic_demo_image` (style palette,
 * the ten-branch subject chain, the prompt drawn line by line inside the
 * wrap loop), `create_generic_illustration` (four shapes alternating
 * rectangle and ellipse) and the image count of `generate_enhanced_images`,
 * where a successful real generation takes the place of one demo image.
 */
module EnhancedDemo {
  import opened Text
  import opened Wrappers
  import opened Colors
  import opened Classifier
  import opened Wrap
  import opened Files
  import opened Frontend
  import Tokenizer

  // ---------------------------------------------------------------- create_realistic_demo_image

  const Schemes: map<string, Palette> := map[
    "realistic" := Palette(Rgb(240, 248, 255), Rgb(70, 130, 180), Rgb(25, 25, 112)),
    "artistic" := Palette(Rgb(255, 228, 225), Rgb(147, 112, 219), Rgb(72, 61, 139)),
    "professional" := Palette(Rgb(248, 248, 255), Rgb(105, 105, 105), Rgb(47, 79, 79)),
    "cinematic" := Palette(Rgb(25, 25, 25), Rgb(255, 215, 0), Rgb(255, 255, 255))
  ]

  /** The ten illustrated subjects, in the order the chain tries them. */
  const Themes: seq<Theme> := [
    Theme(Dog, ["dog", "puppy", "canine"]),
    Theme(Cat, ["cat", "kitten", "feline"]),
    Theme(Car, ["car", "automobile", "vehicle"]),
    Theme(Bike, ["bike", "bicycle", "cycle"]),
    Theme(Laptop, ["laptop", "computer", "pc"]),
    Theme(Human, ["human", "person", "portrait", "man", "woman"]),
    Theme(Landscape, ["landscape", "nature", "mountain", "forest"]),
    Theme(House, ["house", "building", "home"]),
    Theme(Flower, ["flower", "plant", "garden"]),
    Theme(Food, ["food", "cake", "pizza", "burger"])
  ]

  /** A candidate line fits while `len(candidate) < 60`. */
  const PromptWidth := Width(1, 60)

  datatype Kind = Rectangle | Ellipse

  /** One shape of the generic illustration: kind, bounding box, fill and outline. */
  datatype Shape = Shape(kind: Kind, x1: int, y1: int, x2: int, y2: int, fill: Rgb, outline: Rgb)

  const ShapeBoxes: seq<(int, int, int, int)> := [(150, 200, 200, 250), (250, 180, 300, 230), (200, 250, 280, 320), (300, 240, 370, 310)]
  const ShapeColors: seq<Rgb> := [Rgb(255, 100, 100), Rgb(100, 255, 100), Rgb(100, 100, 255), Rgb(255, 255, 100)]

  function ShapeAt(accent: Rgb, i: nat): Shape
    requires i < 4
  {
    var (x1, y1, x2, y2) := ShapeBoxes[i];
    Shape(if i % 2 == 0 then Rectangle else Ellipse, x1, y1, x2, y2, ShapeColors[i % |ShapeColors|], accent)
  }

  function GenericShapes(accent: Rgb): seq<Shape> {
    seq(4, i requires 0 <= i < 4 => ShapeAt(accent, i))
  }

  /** The `for i, (x1, y1, x2, y2) in enumerate(shapes)` loop of `create_generic_illustration`. */
  method DrawGeneric(accent: Rgb) returns (shapes: seq<Shape>)
    ensures shapes == GenericShapes(accent)
  {
    shapes := [];
    for i := 0 to 4
      invariant shapes == GenericShapes(accent)[..i]
    {
      shapes := shapes + [ShapeAt(accent, i)];
    }
  }

  /**
   * Shape `i` is a rectangle when `i` is even and an ellipse when it is
   * odd, is filled with colour `i mod 4`, is outlined in the accent colour,
   * and has a box with positive width and height; every fill is a valid colour.
   */
  lemma GenericShapesFacts(accent: Rgb)
    ensures var shapes := GenericShapes(accent);
      && |shapes| == 4
      && forall i :: 0 <= i < 4 ==>
           && (shapes[i].kind == Rectangle <==> i % 2 == 0)
           && shapes[i].fill == ShapeColors[i % 4] && ValidRgb(shapes[i].fill)
           && shapes[i].outline == accent
           && shapes[i].x1 < shapes[i].x2 && shapes[i].y1 < shapes[i].y2
  {
  }

  /** What the picture shows: the palette, the subject, the prompt rows and, for the creative fallback, the shapes. */
  datatype Picture = Picture(palette: Palette, subject: Subject, prompt: seq<TextRow>, shapes: seq<Shape>)

  function PictureOf(prompt: string, style: string): Picture {
    var palette := SchemeFor(Schemes, style);
    var subject := SubjectOf(prompt, Themes);
    Picture(palette, subject, PromptRows(prompt), if subject == Creative then GenericShapes(palette.accent) else [])
  }

  /** The prompt drawn from y = 440, 18 apart: every line of the wrap, no cap. */
  function PromptRows(prompt: string): seq<TextRow> {
    Rows(Lines(PromptWidth, prompt), 440, 18)
  }

  method CreateRealisticDemoImage(prompt: string, style: string) returns (p: Picture)
    ensures p == PictureOf(prompt, style)
  {
    var palette := SchemeFor(Schemes, style);
    var subject := SubjectOf(prompt, Themes);
    var shapes: seq<Shape> := [];
    if subject == Creative {
      shapes := DrawGeneric(palette.accent);
    }
    var rows := DrawWhileWrapping(prompt, PromptWidth, 440, 18);
    assert rows == PromptRows(prompt);
    p := Picture(palette, subject, rows, shapes);
  }

  /**
   * Every line of the wrap is drawn (no cap), none empty, every multi-word
   * line shorter than 60 characters, and together they spell the prompt's
   * words in order.
   */
  lemma PicturePrompt(prompt: string, style: string)
    ensures var rows := PictureOf(prompt, style).prompt;
      && |rows| == |Lines(PromptWidth, prompt)|
      && JoinSpace(Lines(PromptWidth, prompt)) == JoinSpace(Words(prompt))
      && forall i :: 0 <= i < |rows| ==>
           && rows[i] == TextRow(440 + 18 * i, Lines(PromptWidth, prompt)[i])
           && rows[i].text != ""
           && (|Words(rows[i].text)| >= 2 ==> |rows[i].text| < 60)
  {
    PromptRowsFacts(prompt);
  }

  lemma PromptRowsFacts(prompt: string)
    ensures var rows := PromptRows(prompt);
      && |rows| == |Lines(PromptWidth, prompt)|
      && JoinSpace(Lines(PromptWidth, prompt)) == JoinSpace(Words(prompt))
      && forall i :: 0 <= i < |rows| ==>
           && rows[i] == TextRow(440 + 18 * i, Lines(PromptWidth, prompt)[i])
           && rows[i].text != ""
           && (|Words(rows[i].text)| >= 2 ==> |rows[i].text| < 60)
  {
    LinesOfPrompt(PromptWidth, prompt);
  }

  /**
   * Because earlier branches win, a keyword of branch `k` guarantees one
   * of the first `k + 1` subjects and never the creative fallback: a prompt
   * holding "woman" is drawn as a person only when no dog, cat, car, bike
   * or laptop keyword (such as "pc") occurs in it as well.
   */
  lemma EarlierBranchesWin(prompt: string, style: string, k: nat)
    requires k < |Themes| && Matches(Lower(prompt), Themes[k].keywords)
    ensures exists j :: 0 <= j <= k && PictureOf(prompt, style).subject == Themes[j].subject
  {
    var t := Lower(prompt);
    assert PictureOf(prompt, style).subject == Pick(t, Themes);
  }

  // ---------------------------------------------------------------- generate_enhanced_images

  const OutputFolder := "outputs/generated"

  function RealPath(clock: Clock): string {
    PathJoin(OutputFolder, "real_ai_" + Stamp(clock) + ".png")
  }

  function DemoStem(style: string, clock: Clock): string {
    "enhanced_demo_" + style + "_" + Stamp(clock)
  }

  /** `outputs/generated/enhanced_demo_{style}_{timestamp}_{i+1}.png`. */
  function DemoPath(style: string, clock: Clock, i: nat): string {
    PathJoin(OutputFolder, NumberedName(DemoStem(style, clock), i))
  }

  datatype Image = RealImage | DemoImage(picture: Picture)

  datatype Outcome = Refused(message: string) | Made(images: seq<Image>, saved: seq<string>, messages: seq<string>)

  /** `range(num_images)` after the decrement: the number of demo images drawn. */
  function DemoCount(numImages: nat, realOk: bool): nat {
    if realOk && numImages >= 1 then numImages - 1 else if realOk then 0 else numImages
  }

  const RealMessage := "\U{2705} Real AI generation successful!"

  function EnhancedMessage(prompt: string, style: string): string {
    "\U{1F524} Enhanced: " + Tokenizer.EnhancePrompt(prompt, style)
  }

  /** One "Enhanced:" message per demo image when processing works, none otherwise. */
  function EnhancedMessages(prompt: string, style: string, e: Enhancer, n: nat): seq<string> {
    if e == Working then Repeated(EnhancedMessage(prompt, style), n) else []
  }

  /** The `for i in range(num_images)` loop: `demos` demo pictures, their files and the enhancement messages. */
  method DrawDemos(prompt: string, style: string, demos: nat, e: Enhancer, clock: Clock)
    returns (images: seq<Image>, saved: seq<string>, messages: seq<string>)
    ensures images == Repeated(DemoImage(PictureOf(prompt, style)), demos)
    ensures saved == NumberedPaths(OutputFolder, DemoStem(style, clock), demos)
    ensures messages == EnhancedMessages(prompt, style, e, demos)
  {
    images, saved, messages := [], [], [];
    ghost var p := PictureOf(prompt, style);
    ghost var m := EnhancedMessage(prompt, style);
    for i := 0 to demos
      invariant images == Repeated(DemoImage(p), i)
      invariant saved == NumberedPaths(OutputFolder, DemoStem(style, clock), i)
      invariant messages == if e == Working then Repeated(m, i) else []
    {
      if e == Working {
        messages := messages + [EnhancedMessage(prompt, style)];
      }
      var img := CreateRealisticDemoImage(prompt, style);
      images := images + [DemoImage(img)];
      saved := saved + [PathJoin(OutputFolder, NumberedName(DemoStem(style, clock), i))];
    }
  }

  /**
   * A blank prompt is refused. Otherwise a successful real generation is
   * saved first as `real_ai_{timestamp}.png`, then `DemoCount` demo
   * pictures follow, the `i`-th saved as
   * `enhanced_demo_{style}_{timestamp}_{i+1}.png`, each announcing the
   * enhanced prompt when processing works.
   */
  method GenerateEnhancedImages(prompt: string, style: string, numImages: nat, e: Enhancer, clock: Clock, realOk: bool)
    returns (r: Outcome)
    ensures IsBlank(prompt) <==> r == Refused(PromptRequired)
    ensures !IsBlank(prompt) ==>
      var demos := DemoCount(numImages, realOk);
      r == Made((if realOk then [RealImage] else []) + Repeated(DemoImage(PictureOf(prompt, style)), demos),
                (if realOk then [RealPath(clock)] else []) + NumberedPaths(OutputFolder, DemoStem(style, clock), demos),
                (if realOk then [RealMessage] else []) + EnhancedMessages(prompt, style, e, demos))
  {
    if IsBlank(prompt) {
      return Refused(PromptRequired);
    }
    var images, saved, messages, demos := TryReal(numImages, clock, realOk);
    var demoImages, demoSaved, demoMessages := DrawDemos(prompt, style, demos, e, clock);
    r := Made(images + demoImages, saved + demoSaved, messages + demoMessages);
  }

  /** The real-generation attempt: on success its image, file and message come first and one image fewer is left for the demos. */
  method TryReal(numImages: nat, clock: Clock, realOk: bool)
    returns (images: seq<Image>, saved: seq<string>, messages: seq<string>, demos: nat)
    ensures images == (if realOk then [RealImage] else [])
    ensures saved == (if realOk then [RealPath(clock)] else [])
    ensures messages == (if realOk then [RealMessage] else [])
    ensures demos == DemoCount(numImages, realOk)
  {
    images, saved, messages := [], [], [];
    var n: int := numImages;
    if realOk {
      images := images + [RealImage];
      saved := saved + [RealPath(clock)];
      messages := messages + [RealMessage];
      n := n - 1;
    }
    demos := if n < 0 then 0 else n;
  }

  /**
   * The images of the outcome: one per requested image (the real one
   * included when it succeeded), the real image first, then the same demo
   * picture every time (`PictureOf(prompt, style)` in `GenerateEnhancedImages`).
   */
  lemma OutcomeImages(picture: Picture, numImages: nat, realOk: bool)
    ensures var first := if realOk then 1 else 0;
      var demos := DemoCount(numImages, realOk);
      var images := (if realOk then [RealImage] else []) + Repeated(DemoImage(picture), demos);
      && |images| == first + demos
      && (numImages >= 1 ==> |images| == numImages)
      && (realOk ==> images[0] == RealImage)
      && forall i :: first <= i < |images| ==> images[i] == DemoImage(picture)
  {
    var demos := DemoCount(numImages, realOk);
    var rest := Repeated(DemoImage(picture), demos);
    if realOk {
      assert forall i :: 1 <= i < 1 + demos ==> ([RealImage] + rest)[i] == rest[i - 1];
    } else {
      assert [] + rest == rest;
    }
  }

  /** The files of the outcome: `real_ai_{timestamp}.png` first when the real generation succeeded, then demo file `i` numbered `i + 1`. */
  lemma OutcomeFiles(style: string, numImages: nat, clock: Clock, realOk: bool)
    ensures var demos := DemoCount(numImages, realOk);
      var saved := (if realOk then [RealPath(clock)] else []) + NumberedPaths(OutputFolder, DemoStem(style, clock), demos);
      && |saved| == (if realOk then 1 else 0) + demos
      && (realOk ==> saved[0] == RealPath(clock) && forall i :: 1 <= i < |saved| ==> saved[i] == DemoPath(style, clock, i - 1))
      && (!realOk ==> forall i :: 0 <= i < |saved| ==> saved[i] == DemoPath(style, clock, i))
  {
    if realOk {
      DemoPathsAfter([RealPath(clock)], style, clock, DemoCount(numImages, realOk));
    } else {
      DemoPathsAfter([], style, clock, DemoCount(numImages, realOk));
    }
  }

  /** Demo files listed after other files keep their numbers. */
  lemma DemoPathsAfter(head: seq<string>, style: string, clock: Clock, n: nat)
    ensures var s := head + NumberedPaths(OutputFolder, DemoStem(style, clock), n);
      |s| == |head| + n && (forall i :: 0 <= i < |head| ==> s[i] == head[i]) && forall i :: |head| <= i < |s| ==> s[i] == DemoPath(style, clock, i - |head|)
  {
    PathsAfter(head, OutputFolder, DemoStem(style, clock), n);
  }

  /** For one or more requested images the total is what was requested, realOk success or not. */
  lemma TotalIsRequested(numImages: nat, realOk: bool)
    requires numImages >= 1
    ensures (if realOk then 1 else 0) + DemoCount(numImages, realOk) == numImages
  {
  }

  /** No two files of one call collide: the realOk image and the numbered demo images all differ. */
  lemma SavedPathsDistinct(style: string, clock: Clock, i: nat, j: nat)
    ensures DemoPath(style, clock, i) != RealPath(clock)
    ensures i != j ==> DemoPath(style, clock, i) != DemoPath(style, clock, j)
  {
    var a := NumberedName(DemoStem(style, clock), i);
    var b := "real_ai_" + Stamp(clock) + ".png";
    if DemoPath(style, clock, i) == RealPath(clock) {
      PathJoinInjective(OutputFolder, a, b);
    }
    if i != j {
      NumberedNamesDistinct(OutputFolder, DemoStem(style, clock), i, j);
    }
  }
}

/**
 * The batch generator `batch_realistic_generator.py`: five objects with four
 * variations each, one detailed illustration and one file per
 * (object, variation) pair, the colour and shape choices behind each
 * illustration, and the integer grid of the summary contact sheet.
 * Pixels are not modelled; an image is identified by what was drawn.
 */
module Batch {
  import opened Text
  import opened Files
  import opened Colors
  import opened Classifier
  import opened Wrappers

  // ---------------------------------------------------------------- objects and file names

  datatype Subject = Subject(name: string, variations: seq<string>)

  const Objects: seq<Subject> := [
    Subject("dog", ["golden retriever", "german shepherd", "beagle", "husky"]),
    Subject("cat", ["persian cat", "siamese cat", "tabby cat", "maine coon"]),
    Subject("bike", ["mountain bike", "road bike", "bmx bike", "electric bike"]),
    Subject("car", ["sports car", "SUV", "sedan", "convertible"]),
    Subject("laptop", ["gaming laptop", "ultrabook", "workstation laptop", "2-in-1 laptop"])
  ]

  const OutputDir := "outputs/batch_realistic"

  /** One illustration of the batch: its object, its position among the object's variations, the variation. */
  datatype Job = Job(category: string, index: nat, variation: string)

  /** `f"{name}_{i+1}_{variation with ' ' -> '_'}_{timestamp}.png"`. */
  function BatchFileName(name: string, i: nat, variation: string, clock: Clock): (f: string)
    ensures |f| > |name| && f[..|name|] == name && f[|name|] == '_'
    ensures |f| >= 4 && f[|f| - 4..] == ".png"
  {
    name + "_" + NatToString(i + 1) + "_" + ReplaceChar(variation, ' ', '_') + "_" + Stamp(clock) + ".png"
  }

  function JobFileName(j: Job, clock: Clock): string {
    BatchFileName(j.category, j.index, j.variation, clock)
  }

  /** The jobs of one object, in the order of its variations. */
  function JobsOf(s: Subject): (js: seq<Job>)
    ensures |js| == |s.variations|
    ensures forall i :: 0 <= i < |js| ==> js[i] == Job(s.name, i, s.variations[i])
  {
    seq(|s.variations|, i requires 0 <= i < |s.variations| => Job(s.name, i, s.variations[i]))
  }

  /** The nested loops' order: objects in list order, each object's variations in list order. */
  function Jobs(objs: seq<Subject>): (js: seq<Job>)
  {
    if objs == [] then [] else Jobs(objs[..|objs| - 1]) + JobsOf(objs[|objs| - 1])
  }

  /** The jobs of a prefix of the objects are a prefix of all the jobs. */
  lemma {:induction false} JobsPrefix(objs: seq<Subject>, k: nat)
    requires k <= |objs|
    ensures |Jobs(objs[..k])| <= |Jobs(objs)|
    ensures Jobs(objs[..k]) == Jobs(objs)[..|Jobs(objs[..k])|]
    decreases |objs|
  {
    if k < |objs| {
      var init := objs[..|objs| - 1];
      assert init[..k] == objs[..k];
      JobsPrefix(init, k);
    } else {
      assert objs[..k] == objs;
    }
  }

  /**
   * Variation `i` of object `o` is the job right after the jobs of the
   * objects before `o`: one job per (object, variation) pair, in list order.
   */
  lemma JobsAt(objs: seq<Subject>, o: nat, i: nat)
    requires o < |objs| && i < |objs[o].variations|
    ensures |Jobs(objs[..o])| + i < |Jobs(objs)|
    ensures Jobs(objs)[|Jobs(objs[..o])| + i] == Job(objs[o].name, i, objs[o].variations[i])
  {
    JobsPrefix(objs, o + 1);
    assert objs[..o + 1][..o] == objs[..o];
  }

  /** With `m` variations per object there are `m * |objs|` jobs. */
  lemma {:induction false} JobsCount(objs: seq<Subject>, m: nat)
    requires forall o :: 0 <= o < |objs| ==> |objs[o].variations| == m
    ensures |Jobs(objs)| == m * |objs|
  {
    if objs != [] {
      var init := objs[..|objs| - 1];
      JobsCount(init, m);
      assert m * |objs| == m * |init| + m;
    }
  }

  /** The shipped batch: 20 images, dog first, the "SUV" fourteenth and laptop last. */
  lemma BatchHasTwenty()
    ensures |Jobs(Objects)| == 20
    ensures Jobs(Objects)[0] == Job("dog", 0, "golden retriever")
    ensures Jobs(Objects)[13] == Job("car", 1, "SUV")
    ensures Jobs(Objects)[19] == Job("laptop", 3, "2-in-1 laptop")
  {
    JobsCount(Objects, 4);
    JobsAt(Objects, 0, 0);
    JobsCount(Objects[..3], 4);
    JobsAt(Objects, 3, 1);
    JobsCount(Objects[..4], 4);
    JobsAt(Objects, 4, 3);
  }

  /**
   * `create_batch_realistic_images`: for each object and each of its
   * variations, draw the illustration and record the file name stamped
   * with the clock's `k`-th reading; `all_images` and `created_files`
   * grow in step.
   */
  method CreateBatch(objs: seq<Subject>, now: nat -> Clock) returns (images: seq<Job>, createdFiles: seq<string>)
    ensures images == Jobs(objs)
    ensures |createdFiles| == |images|
    ensures forall k :: 0 <= k < |images| ==> createdFiles[k] == JobFileName(images[k], now(k))
  {
    images, createdFiles := [], [];
    for o := 0 to |objs|
      invariant images == Jobs(objs[..o])
      invariant |createdFiles| == |images|
      invariant forall k :: 0 <= k < |images| ==> createdFiles[k] == JobFileName(images[k], now(k))
    {
      var obj := objs[o];
      ghost var before := images;
      for i := 0 to |obj.variations|
        invariant images == before + JobsOf(obj)[..i]
        invariant |createdFiles| == |images|
        invariant forall k :: 0 <= k < |images| ==> createdFiles[k] == JobFileName(images[k], now(k))
      {
        var job := Job(obj.name, i, obj.variations[i]);
        var filename := BatchFileName(obj.name, i, obj.variations[i], now(|images|));
        assert JobsOf(obj)[..i + 1] == JobsOf(obj)[..i] + [job];
        images := images + [job];
        createdFiles := createdFiles + [filename];
      }
      assert JobsOf(obj)[..|obj.variations|] == JobsOf(obj);
      assert objs[..o + 1][..o] == objs[..o];
    }
    assert objs[..|objs|] == objs;
  }

  // ---------------------------------------------------------------- illustration choices

  /** `d.get(key, default)`. */
  function Get(d: map<string, Rgb>, key: string, default: Rgb): (c: Rgb)
    ensures key in d ==> c == d[key]
    ensures key !in d ==> c == default
  {
    if key in d then d[key] else default
  }

  const DogColors: map<string, Rgb> := map[
    "golden retriever" := Rgb(218, 165, 32),
    "german shepherd" := Rgb(101, 67, 33),
    "beagle" := Rgb(139, 69, 19),
    "husky" := Rgb(128, 128, 128)
  ]
  const DogDefault := Rgb(139, 69, 19)

  const CatColors: map<string, Rgb> := map[
    "persian cat" := Rgb(220, 220, 220),
    "siamese cat" := Rgb(245, 245, 220),
    "tabby cat" := Rgb(139, 115, 85),
    "maine coon" := Rgb(101, 67, 33)
  ]
  const CatDefault := Rgb(128, 128, 128)

  const BikeColors: map<string, Rgb> := map[
    "mountain bike" := Rgb(255, 69, 0),
    "road bike" := Rgb(0, 100, 200),
    "bmx bike" := Rgb(255, 215, 0),
    "electric bike" := Rgb(128, 0, 128)
  ]
  const BikeDefault := Rgb(255, 0, 0)

  const CarColors: map<string, Rgb> := map[
    "sports car" := Rgb(255, 0, 0),
    "suv" := Rgb(0, 0, 139),
    "sedan" := Rgb(128, 128, 128),
    "convertible" := Rgb(255, 215, 0)
  ]
  const CarDefault := Rgb(255, 0, 0)

  const LaptopColors: map<string, Rgb> := map[
    "gaming laptop" := Rgb(0, 0, 0),
    "ultrabook" := Rgb(192, 192, 192),
    "workstation laptop" := Rgb(64, 64, 64),
    "2-in-1 laptop" := Rgb(128, 128, 128)
  ]
  const LaptopDefault := Rgb(64, 64, 64)

  /** Body width, body height and roof height of the car drawing. */
  datatype CarShape = CarShape(width: nat, height: nat, roof: nat)

  const SuvShape := CarShape(180, 80, 40)
  const SportsShape := CarShape(200, 60, 25)
  const DefaultCarShape := CarShape(180, 70, 35)

  /** The car shape: a case-sensitive "suv" test first, then "sports car", then the default. */
  function CarDimensions(variation: string): (s: CarShape)
    ensures s in {SuvShape, SportsShape, DefaultCarShape}
    ensures Contains(variation, "suv") ==> s == SuvShape
    ensures !Contains(variation, "suv") && Contains(variation, "sports car") ==> s == SportsShape
    ensures !Contains(variation, "suv") && !Contains(variation, "sports car") ==> s == DefaultCarShape
  {
    if Contains(variation, "suv") then SuvShape
    else if Contains(variation, "sports car") then SportsShape
    else DefaultCarShape
  }

  /** What `create_detailed_demo_image` draws for a category; `Nothing` for an unknown one. */
  datatype Illustration =
    | Dog(main: Rgb, dark: Rgb)
    | Cat(main: Rgb, dark: Rgb)
    | Bike(frame: Rgb)
    | Car(body: Rgb, dark: Rgb, shape: CarShape)
    | Laptop(body: Rgb, accent: Rgb)
    | Nothing

  const GamingAccent := Rgb(255, 0, 255)
  const PlainAccent := Rgb(0, 100, 200)

  function Illustrate(category: string, variation: string): (ill: Illustration)
    ensures category !in {"dog", "cat", "bike", "car", "laptop"} <==> ill.Nothing?
  {
    if category == "dog" then
      var c := Get(DogColors, variation, DogDefault); Dog(c, Darker(c, 40))
    else if category == "cat" then
      var c := Get(CatColors, variation, CatDefault); Cat(c, Darker(c, 50))
    else if category == "bike" then Bike(Get(BikeColors, variation, BikeDefault))
    else if category == "car" then
      var c := Get(CarColors, variation, CarDefault); Car(c, Darker(c, 60), CarDimensions(variation))
    else if category == "laptop" then
      Laptop(Get(LaptopColors, variation, LaptopDefault), if Contains(variation, "gaming") then GamingAccent else PlainAccent)
    else Nothing
  }

  predicate AllValid(m: map<string, Rgb>) {
    forall k :: k in m ==> ValidRgb(m[k])
  }

  lemma GetValid(d: map<string, Rgb>, key: string, default: Rgb)
    requires AllValid(d) && ValidRgb(default)
    ensures ValidRgb(Get(d, key, default))
  {
  }

  lemma TablesValid()
    ensures AllValid(DogColors) && AllValid(CatColors) && AllValid(BikeColors)
    ensures AllValid(CarColors) && AllValid(LaptopColors)
  {
    DogColorsValid();
    CatColorsValid();
    BikeColorsValid();
    CarColorsValid();
    LaptopColorsValid();
  }

  lemma DogColorsValid() ensures AllValid(DogColors) {
    forall k | k in DogColors ensures ValidRgb(DogColors[k]) { }
  }

  lemma CatColorsValid() ensures AllValid(CatColors) {
    forall k | k in CatColors ensures ValidRgb(CatColors[k]) { }
  }

  lemma BikeColorsValid() ensures AllValid(BikeColors) {
    forall k | k in BikeColors ensures ValidRgb(BikeColors[k]) { }
  }

  lemma CarColorsValid() ensures AllValid(CarColors) {
    forall k | k in CarColors ensures ValidRgb(CarColors[k]) { }
  }

  lemma LaptopColorsValid() ensures AllValid(LaptopColors) {
    forall k | k in LaptopColors ensures ValidRgb(LaptopColors[k]) { }
  }

  /**
   * Every colour drawn is a valid byte triple, and every outline shade is
   * a valid triple component-wise no lighter than the colour it darkens.
   */
  /** Every colour of an illustration is valid, and each outline shade is no lighter than its fill. */
  predicate ColorsValid(ill: Illustration) {
    match ill
    case Dog(m, d) => ValidRgb(m) && ValidRgb(d) && d.r <= m.r && d.g <= m.g && d.b <= m.b
    case Cat(m, d) => ValidRgb(m) && ValidRgb(d) && d.r <= m.r && d.g <= m.g && d.b <= m.b
    case Bike(f) => ValidRgb(f)
    case Car(b, d, _) => ValidRgb(b) && ValidRgb(d) && d.r <= b.r && d.g <= b.g && d.b <= b.b
    case Laptop(b, a) => ValidRgb(b) && ValidRgb(a)
    case Nothing => true
  }

  lemma IllustrationColorsValid(category: string, variation: string)
    ensures ColorsValid(Illustrate(category, variation))
  {
    if category == "dog" {
      DogIllustrationValid(variation);
    } else if category == "cat" {
      CatIllustrationValid(variation);
    } else if category == "bike" {
      BikeIllustrationValid(variation);
    } else if category == "car" {
      CarIllustrationValid(variation);
    } else if category == "laptop" {
      LaptopIllustrationValid(variation);
    } else {
      assert Illustrate(category, variation) == Nothing;
    }
  }

  lemma DogIllustrationValid(variation: string)
    ensures ColorsValid(Illustrate("dog", variation))
  {
    DogColorsValid();
    GetValid(DogColors, variation, DogDefault);
    var c := Get(DogColors, variation, DogDefault);
    assert Illustrate("dog", variation) == Dog(c, Darker(c, 40));
  }

  lemma CatIllustrationValid(variation: string)
    ensures ColorsValid(Illustrate("cat", variation))
  {
    CatColorsValid();
    GetValid(CatColors, variation, CatDefault);
    var c := Get(CatColors, variation, CatDefault);
    assert Illustrate("cat", variation) == Cat(c, Darker(c, 50));
  }

  lemma BikeIllustrationValid(variation: string)
    ensures ColorsValid(Illustrate("bike", variation))
  {
    BikeColorsValid();
    GetValid(BikeColors, variation, BikeDefault);
    assert Illustrate("bike", variation) == Bike(Get(BikeColors, variation, BikeDefault));
  }

  lemma CarIllustrationValid(variation: string)
    ensures ColorsValid(Illustrate("car", variation))
  {
    CarColorsValid();
    GetValid(CarColors, variation, CarDefault);
    var c := Get(CarColors, variation, CarDefault);
    assert Illustrate("car", variation) == Car(c, Darker(c, 60), CarDimensions(variation));
  }

  lemma LaptopIllustrationValid(variation: string)
    ensures ColorsValid(Illustrate("laptop", variation))
  {
    LaptopColorsValid();
    GetValid(LaptopColors, variation, LaptopDefault);
  }

  /** An unknown variation falls back to the category's fixed default colour. */
  lemma UnknownVariationDefaults(variation: string)
    requires variation !in DogColors && variation !in CatColors && variation !in BikeColors
    requires variation !in CarColors && variation !in LaptopColors
    ensures Illustrate("dog", variation).main == Rgb(139, 69, 19)
    ensures Illustrate("cat", variation).main == Rgb(128, 128, 128)
    ensures Illustrate("bike", variation).frame == Rgb(255, 0, 0)
    ensures Illustrate("car", variation).body == Rgb(255, 0, 0)
    ensures Illustrate("laptop", variation).body == Rgb(64, 64, 64)
  {
  }

  /**
   * The batch's "SUV" variation matches neither the lower-case "suv"
   * colour key nor the lower-case "suv" shape test: it is drawn red, with
   * the default body.
   */
  lemma SuvGetsDefaults()
    ensures Illustrate("car", "SUV") == Car(CarDefault, Rgb(195, 0, 0), DefaultCarShape)
  {
    AbsentChar("SUV", "suv", 's');
    AbsentChar("SUV", "sports car", 's');
  }

  /** The dog, cat and car outline shades darken by 40, 50 and 60 respectively. */
  lemma OutlineSteps(variation: string)
    ensures Illustrate("dog", variation).dark == Darker(Illustrate("dog", variation).main, 40)
    ensures Illustrate("cat", variation).dark == Darker(Illustrate("cat", variation).main, 50)
    ensures Illustrate("car", variation).dark == Darker(Illustrate("car", variation).body, 60)
  {
  }

  /** The corrected lookup: the colour key and the shape test see the variation lower-cased. */
  function CarIllustrationFixed(variation: string): (ill: Illustration)
    ensures ill.Car?
  {
    var v := Lower(variation);
    var c := Get(CarColors, v, CarDefault);
    Car(c, Darker(c, 60), CarDimensions(v))
  }

  /** With the correction, the batch's "SUV" is drawn navy with the SUV body. */
  lemma CarFixedSuv()
    ensures CarIllustrationFixed("SUV") == Car(Rgb(0, 0, 139), Rgb(0, 0, 79), SuvShape)
  {
    LowerSuv();
    assert OccursAt("suv", "suv", 0);
  }

  lemma LowerSuv()
    ensures Lower("SUV") == "suv"
  {
    var l := Lower("SUV");
    assert l[0] == 's' && l[1] == 'u' && l[2] == 'v';
  }

  /** On a variation already in lower case, the correction draws exactly what the source draws. */
  lemma CarFixedAgreesOnLowerCase(variation: string)
    requires Lower(variation) == variation
    ensures CarIllustrationFixed(variation) == Illustrate("car", variation)
  {
  }

  // ---------------------------------------------------------------- summary sheet

  const Cols := 4
  const ThumbWidth := 180
  const ThumbHeight := 135
  const Margin := 20
  const Spacing := 10
  const TitleSpace := 100

  /** `(n + cols - 1) // cols`: the fewest rows of four that hold `n` thumbnails. */
  function GridRows(n: nat): (rows: nat)
    ensures Cols * rows >= n
    ensures rows > 0 ==> Cols * (rows - 1) < n
  {
    (n + Cols - 1) / Cols
  }

  function SummaryWidth(): (w: nat)
    ensures w == 810
  {
    Cols * ThumbWidth + (Cols + 1) * Spacing + 2 * Margin
  }

  function SummaryHeight(n: nat): (h: nat)
    ensures h == 145 * GridRows(n) + 150
  {
    var rows := GridRows(n);
    rows * ThumbHeight + (rows + 1) * Spacing + 2 * Margin + TitleSpace
  }

  /** Top-left corner of thumbnail `i`: column `i mod 4`, row `i div 4`. */
  function ThumbX(i: nat): (x: nat)
    ensures x == 30 + 190 * (i % Cols)
  {
    Margin + Spacing + (i % Cols) * (ThumbWidth + Spacing)
  }

  function ThumbY(i: nat): (y: nat)
    ensures y == 130 + 145 * (i / Cols)
  {
    TitleSpace + Margin + Spacing + (i / Cols) * (ThumbHeight + Spacing)
  }

  /** Every thumbnail lies inside the canvas, below the title band, with its label row inside too. */
  lemma ThumbInside(n: nat, i: nat)
    requires i < n
    ensures ThumbX(i) >= Margin && ThumbX(i) + ThumbWidth <= SummaryWidth()
    ensures ThumbY(i) >= TitleSpace && LabelY(i) < SummaryHeight(n)
    ensures ThumbY(i) + ThumbHeight <= SummaryHeight(n)
  {
    var rows := GridRows(n);
    assert i / Cols < rows;
  }

  function LabelY(i: nat): (y: nat)
    ensures y == ThumbY(i) + ThumbHeight + 5
  {
    ThumbY(i) + ThumbHeight + 5
  }

  /** Distinct thumbnails do not overlap. */
  lemma ThumbsDisjoint(i: nat, j: nat)
    requires i != j
    ensures || ThumbX(i) + ThumbWidth <= ThumbX(j) || ThumbX(j) + ThumbWidth <= ThumbX(i)
            || ThumbY(i) + ThumbHeight <= ThumbY(j) || ThumbY(j) + ThumbHeight <= ThumbY(i)
  {
    if i / Cols == j / Cols {
      assert i % Cols != j % Cols;
    }
  }

  /** The batch's twenty thumbnails need five rows on an 810 x 875 sheet. */
  lemma BatchSheetSize()
    ensures GridRows(20) == 5 && SummaryHeight(20) == 875
  {
  }

  const LabelLength := 20

  /** `f[:20] + "..."` when longer than 20 characters, else `f`. */
  function ShortenLabel(f: string): (r: string)
    ensures |r| <= LabelLength + 3
    ensures |f| <= LabelLength ==> r == f
    ensures |f| > LabelLength ==> |r| == LabelLength + 3 && r[..LabelLength] == f[..LabelLength]
  {
    if |f| > LabelLength then f[..LabelLength] + "..." else f
  }

  /** A shortened label ends in the ellipsis exactly when it was shortened. */
  lemma ShortenLabelMarked(f: string)
    requires |f| > LabelLength
    ensures ShortenLabel(f)[LabelLength..] == "..."
  {
  }

  /** One pasted thumbnail: its corner and, when a file name exists for it, its label and label row. */
  datatype Placement = Placement(x: nat, y: nat, caption: Option<(string, nat)>)

  function PlacementOf(i: nat, filenames: seq<string>): Placement {
    Placement(ThumbX(i), ThumbY(i),
      if i < |filenames| then Some((ShortenLabel(filenames[i]), LabelY(i))) else None)
  }

  /**
   * The placement loop of `create_summary_image`: thumbnail `i` goes to its
   * grid cell, labelled only when a file name exists for it.
   */
  method SummaryLayout(n: nat, filenames: seq<string>) returns (ps: seq<Placement>)
    ensures |ps| == n
    ensures forall i :: 0 <= i < n ==> ps[i] == PlacementOf(i, filenames)
  {
    ps := [];
    for i := 0 to n
      invariant |ps| == i
      invariant forall k :: 0 <= k < i ==> ps[k] == PlacementOf(k, filenames)
    {
      var row := i / Cols;
      var col := i % Cols;
      var x := Margin + Spacing + col * (ThumbWidth + Spacing);
      var y := TitleSpace + Margin + Spacing + row * (ThumbHeight + Spacing);
      var caption: Option<(string, nat)> := None;
      if i < |filenames| {
        var short := if |filenames[i]| > LabelLength then filenames[i][..LabelLength] + "..." else filenames[i];
        caption := Some((short, y + ThumbHeight + 5));
      }
      ps := ps + [Placement(x, y, caption)];
    }
  }

  /**
   * On the batch's own sheet every thumbnail is labelled, every label
   * has at most 23 characters, and every thumbnail lies inside the canvas.
   */
  lemma BatchSheetLabelled(files: seq<string>, i: nat)
    requires i < |files|
    ensures PlacementOf(i, files).caption.Some?
    ensures |PlacementOf(i, files).caption.value.0| <= 23
    ensures PlacementOf(i, files).x + ThumbWidth <= SummaryWidth()
    ensures PlacementOf(i, files).y + ThumbHeight <= SummaryHeight(|files|)
  {
    ThumbInside(|files|, i);
  }
}

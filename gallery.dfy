/**
 * The gallery viewer `gallery_viewer.py`: listing the batch folder's PNG
 * files, ordering them by path, parsing each file name back into a caption,
 * and counting captions per category. A folder is its directory listing
 * plus the files the image library fails to open; an image is its path.
 */
module Gallery {
  import opened Text
  import opened Files
  import opened Batch

  // ---------------------------------------------------------------- caption parsing

  /**
   * The caption of a file name: drop every ".png", split on '_'; with four
   * or more parts, "{Part0.title()} #{part1}: {' '.join(parts[2:-2]).title()}",
   * otherwise the file name itself.
   */
  function ParseInfo(filename: string): (info: string)
    ensures |SplitOn(RemoveAll(filename, ".png"), '_')| < 4 ==> info == filename
  {
    var parts := SplitOn(RemoveAll(filename, ".png"), '_');
    if |parts| >= 4 then
      Title(parts[0]) + " #" + parts[1] + ": " + Title(JoinWith(" ", parts[2..|parts| - 2]))
    else filename
  }

  /** A name part the parser can carry through intact: no '_' and no '.'. */
  predicate Plain(s: string) {
    '_' !in s && '.' !in s
  }

  /**
   * The round trip: a name of the batch's shape parses back to its object,
   * its number and its variation (title-cased), because the time stamp
   * always contributes exactly the last two parts.
   */
  lemma ParseInfoRoundTrip(name: string, num: string, variation: string, clock: Clock)
    requires Plain(name) && Plain(num) && Plain(variation) && WellFormedClock(clock)
    ensures ParseInfo(name + "_" + num + "_" + ReplaceChar(variation, ' ', '_') + "_" + Stamp(clock) + ".png")
         == Title(name) + " #" + num + ": " + Title(variation)
  {
    var body := name + "_" + num + "_" + ReplaceChar(variation, ' ', '_') + "_" + Stamp(clock);
    StemOfBatchName(name, num, variation, clock);
    PartsOfBatchName(name, num, variation, clock);
    var vs := SplitOn(variation, ' ');
    var parts := SplitOn(body, '_');
    assert parts[2..|parts| - 2] == vs;
    JoinSplitOn(variation, ' ');
  }

  /** Removing ".png" leaves exactly the stem: no other '.' occurs. */
  lemma StemOfBatchName(name: string, num: string, variation: string, clock: Clock)
    requires Plain(name) && Plain(num) && Plain(variation) && WellFormedClock(clock)
    ensures var body := name + "_" + num + "_" + ReplaceChar(variation, ' ', '_') + "_" + Stamp(clock);
      RemoveAll(body + ".png", ".png") == body
  {
    var rv := ReplaceChar(variation, ' ', '_');
    assert '.' !in rv by {
      forall i | 0 <= i < |rv| ensures rv[i] != '.' { assert variation[i] != '.'; }
    }
    ClockPlain(clock);
    var body := name + "_" + num + "_" + rv + "_" + Stamp(clock);
    assert '.' !in body;
    RemoveAllSuffix(body, ".png");
  }

  lemma ClockPlain(clock: Clock)
    requires WellFormedClock(clock)
    ensures Plain(clock.date) && Plain(clock.time)
  {
    assert forall i :: 0 <= i < |clock.date| ==> IsDigit(clock.date[i]);
    assert forall i :: 0 <= i < |clock.time| ==> IsDigit(clock.time[i]);
  }

  /** The stem splits into the name, the number, the variation's words, the date and the time. */
  lemma PartsOfBatchName(name: string, num: string, variation: string, clock: Clock)
    requires Plain(name) && Plain(num) && Plain(variation) && WellFormedClock(clock)
    ensures SplitOn(name + "_" + num + "_" + ReplaceChar(variation, ' ', '_') + "_" + Stamp(clock), '_')
         == [name, num] + SplitOn(variation, ' ') + [clock.date, clock.time]
  {
    var rv := ReplaceChar(variation, ' ', '_');
    var tail := clock.date + "_" + clock.time;
    ClockPlain(clock);
    assert name + "_" + num + "_" + rv + "_" + Stamp(clock) == name + ['_'] + (num + ['_'] + (rv + ['_'] + tail));
    SplitOnCons(name, '_', num + ['_'] + (rv + ['_'] + tail));
    SplitOnCons(num, '_', rv + ['_'] + tail);
    SplitOnAppend(rv, '_', tail);
    assert tail == clock.date + ['_'] + clock.time;
    SplitOnCons(clock.date, '_', clock.time);
    SplitOnFree(clock.time, '_');
    SplitOnReplace(variation, ' ', '_');
  }

  /** The caption of a batch file names its object, its number from 1 and its variation. */
  lemma BatchNameRoundTrip(j: Job, clock: Clock)
    requires Plain(j.category) && Plain(j.variation) && WellFormedClock(clock)
    ensures ParseInfo(JobFileName(j, clock))
         == Title(j.category) + " #" + NatToString(j.index + 1) + ": " + Title(j.variation)
  {
    var n := NatToString(j.index + 1);
    assert Plain(n) by {
      assert forall i :: 0 <= i < |n| ==> IsDigit(n[i]);
    }
    ParseInfoRoundTrip(j.category, n, j.variation, clock);
  }

  /** An object whose name is a lower-case word and whose variations are plain. */
  predicate PlainSubject(s: Subject) {
    && Plain(s.name) && (forall i :: 0 <= i < |s.name| ==> IsLower(s.name[i]))
    && forall i :: 0 <= i < |s.variations| ==> Plain(s.variations[i])
  }

  /** Every object name and variation of the shipped batch is plain, so every batch caption round-trips. */
  lemma ObjectsPlain()
    ensures forall o :: 0 <= o < |Objects| ==> PlainSubject(Objects[o])
  {
    PlainObject0(); PlainObject1(); PlainObject2(); PlainObject3(); PlainObject4();
  }

  lemma PlainObject0()
    ensures PlainSubject(Objects[0])
  {
    PlainSubjectOf(Objects[0], "dog", "golden retriever", "german shepherd", "beagle", "husky");
  }

  lemma PlainObject1()
    ensures PlainSubject(Objects[1])
  {
    PlainSubjectOf(Objects[1], "cat", "persian cat", "siamese cat", "tabby cat", "maine coon");
  }

  lemma PlainObject2()
    ensures PlainSubject(Objects[2])
  {
    PlainSubjectOf(Objects[2], "bike", "mountain bike", "road bike", "bmx bike", "electric bike");
  }

  lemma PlainObject3()
    ensures PlainSubject(Objects[3])
  {
    PlainSubjectOf(Objects[3], "car", "sports car", "SUV", "sedan", "convertible");
  }

  lemma PlainObject4()
    ensures PlainSubject(Objects[4])
  {
    PlainWords("workstation", "laptop");
    PlainWords("gaming", "laptop");
    PlainWords("2-in-1", "laptop");
    PlainSubjectOf(Objects[4], "laptop", "gaming laptop", "ultrabook", "workstation laptop", "2-in-1 laptop");
  }

  lemma PlainWords(a: string, b: string)
    requires Plain(a) && Plain(b)
    ensures Plain(a + " " + b)
  {
  }

  lemma PlainSubjectOf(s: Subject, n: string, v0: string, v1: string, v2: string, v3: string)
    requires s == Subject(n, [v0, v1, v2, v3])
    requires Plain(n) && (forall i :: 0 <= i < |n| ==> IsLower(n[i]))
    requires Plain(v0) && Plain(v1) && Plain(v2) && Plain(v3)
    ensures PlainSubject(s)
  {
  }

  /**
   * Every file of a plain object is captioned with the object, its number
   * from 1 and its variation, and counted under the title-cased object name.
   */
  lemma SubjectCaption(s: Subject, i: nat, clock: Clock)
    requires PlainSubject(s) && i < |s.variations| && WellFormedClock(clock)
    ensures var j := Job(s.name, i, s.variations[i]);
      && ParseInfo(JobFileName(j, clock)) == Title(j.category) + " #" + NatToString(i + 1) + ": " + Title(j.variation)
      && CategoryKey(ParseInfo(JobFileName(j, clock))) == Title(j.category)
  {
    var j := Job(s.name, i, s.variations[i]);
    BatchNameRoundTrip(j, clock);
    CaptionCategory(s.name, i, s.variations[i]);
  }

  lemma CaptionCategory(name: string, i: nat, variation: string)
    requires forall k :: 0 <= k < |name| ==> IsLower(name[k])
    ensures CategoryKey(Title(name) + " #" + NatToString(i + 1) + ": " + Title(variation)) == Title(name)
  {
    var n := NatToString(i + 1);
    assert ':' !in n by {
      assert forall k :: 0 <= k < |n| ==> IsDigit(n[k]);
    }
    assert ':' !in name && '#' !in name;
    CategoryOfCaption(name, n, variation);
  }

  /** In particular every file of the shipped batch. */
  lemma BatchCaption(o: nat, i: nat, clock: Clock)
    requires o < |Objects| && i < |Objects[o].variations| && WellFormedClock(clock)
    ensures var j := Job(Objects[o].name, i, Objects[o].variations[i]);
      && ParseInfo(JobFileName(j, clock)) == Title(j.category) + " #" + NatToString(i + 1) + ": " + Title(j.variation)
      && CategoryKey(ParseInfo(JobFileName(j, clock))) == Title(j.category)
  {
    ObjectsPlain();
    SubjectCaption(Objects[o], i, clock);
  }

  /**
   * The summary sheet is saved in the same folder, as
   * "summary" + "_all_images_" + time stamp + ".png", so the gallery lists it
   * too, captioned "Summary #all: Images", under a category of its own.
   */
  lemma SummarySheetCaption(clock: Clock)
    requires WellFormedClock(clock)
    ensures ParseInfo("summary" + "_" + "all" + "_" + "images" + "_" + Stamp(clock) + ".png")
         == Title("summary") + " #" + "all" + ": " + Title("images")
  {
    ReplaceCharAbsent("images", ' ', '_');
    ParseInfoRoundTrip("summary", "all", "images", clock);
  }

  lemma SummarySheetCategory()
    ensures CategoryKey(Title("summary") + " #" + "all" + ": " + Title("images")) == Title("summary")
  {
    CategoryOfCaption("summary", "all", "images");
  }

  /** A name without '_' is its own caption. */
  lemma ShortNameIsOwnCaption(filename: string)
    requires '_' !in filename
    ensures ParseInfo(filename) == filename
  {
    RemoveAllChars(filename, ".png", '_');
    SplitOnFree(RemoveAll(filename, ".png"), '_');
  }

  // ---------------------------------------------------------------- ordering

  /** Python's `<` on strings: code-point lexicographic order, a proper prefix first. */
  predicate LexLess(a: string, b: string)
    decreases |a|
  {
    if a == [] then b != []
    else if b == [] then false
    else if a[0] != b[0] then a[0] < b[0]
    else LexLess(a[1..], b[1..])
  }

  predicate LexLe(a: string, b: string) {
    a == b || LexLess(a, b)
  }

  lemma {:induction false} LexLessIrreflexive(a: string)
    ensures !LexLess(a, a)
    decreases |a|
  {
    if a != [] { LexLessIrreflexive(a[1..]); }
  }

  lemma {:induction false} LexLessTotal(a: string, b: string)
    ensures a == b || LexLess(a, b) || LexLess(b, a)
    decreases |a|
  {
    if a != [] && b != [] && a[0] == b[0] {
      LexLessTotal(a[1..], b[1..]);
      if a[1..] == b[1..] {
        assert a == [a[0]] + a[1..] && b == [b[0]] + b[1..];
      }
    }
  }

  lemma {:induction false} LexLessTransitive(a: string, b: string, c: string)
    requires LexLess(a, b) && LexLess(b, c)
    ensures LexLess(a, c)
    decreases |a|
  {
    if a != [] && a[0] == b[0] && b[0] == c[0] {
      LexLessTransitive(a[1..], b[1..], c[1..]);
    }
  }

  lemma LexLeTransitive(a: string, b: string, c: string)
    requires LexLe(a, b) && LexLe(b, c)
    ensures LexLe(a, c)
  {
    if LexLess(a, b) && LexLess(b, c) { LexLessTransitive(a, b, c); }
  }

  /** A shared prefix does not decide the order: `p + a < p + b` exactly when `a < b`. */
  lemma {:induction false} LexLessCommonPrefix(p: string, a: string, b: string)
    ensures LexLess(p + a, p + b) <==> LexLess(a, b)
    decreases |p|
  {
    if p != [] {
      assert (p + a)[1..] == p[1..] + a && (p + b)[1..] == p[1..] + b;
      LexLessCommonPrefix(p[1..], a, b);
    } else {
      assert p + a == a && p + b == b;
    }
  }

  predicate SortedStrings(s: seq<string>) {
    forall i, j :: 0 <= i < j < |s| ==> LexLe(s[i], s[j])
  }

  function Insert(x: string, s: seq<string>): (r: seq<string>)
    requires SortedStrings(s)
    ensures SortedStrings(r)
    ensures multiset(r) == multiset(s) + multiset{x}
  {
    if s == [] then [x]
    else if LexLe(x, s[0]) then
      InsertFront(x, s);
      [x] + s
    else
      var t := Insert(x, s[1..]);
      assert s == [s[0]] + s[1..];
      InsertBehind(x, s, t);
      [s[0]] + t
  }

  lemma InsertFront(x: string, s: seq<string>)
    requires SortedStrings(s) && s != [] && LexLe(x, s[0])
    ensures SortedStrings([x] + s)
  {
    var r := [x] + s;
    forall i, j | 0 <= i < j < |r| ensures LexLe(r[i], r[j]) {
      if i == 0 {
        LexLeTransitive(x, s[0], s[j - 1]);
      } else {
        assert r[i] == s[i - 1] && r[j] == s[j - 1];
      }
    }
  }

  lemma InsertBehind(x: string, s: seq<string>, t: seq<string>)
    requires SortedStrings(s) && s != [] && !LexLe(x, s[0])
    requires SortedStrings(t) && multiset(t) == multiset(s[1..]) + multiset{x}
    ensures SortedStrings([s[0]] + t)
  {
    LexLessTotal(x, s[0]);
    forall j | 0 <= j < |t| ensures LexLe(s[0], t[j]) {
      assert t[j] in multiset(t);
      if t[j] != x {
        assert t[j] in multiset(s[1..]);
        var k :| 0 <= k < |s[1..]| && s[1..][k] == t[j];
        assert s[k + 1] == t[j];
      }
    }
  }

  /** `list.sort()`: ascending in Python's string order, a permutation of its input. */
  function SortStrings(s: seq<string>): (r: seq<string>)
    ensures SortedStrings(r)
    ensures multiset(r) == multiset(s)
  {
    if s == [] then []
    else
      assert s == [s[0]] + s[1..];
      Insert(s[0], SortStrings(s[1..]))
  }

  // ---------------------------------------------------------------- load_batch_images

  const BatchFolder := "outputs/batch_realistic"
  const NoBatchMessage := "\U{274C} No batch images found. Run batch_realistic_generator.py first!"
  const NoPngMessage := "\U{274C} No images found in batch folder!"

  /** The batch folder as the viewer finds it: absent, or its entry names and the files that fail to open. */
  datatype Folder = Missing | Present(listing: seq<string>, unreadable: set<string>)

  /** What `glob("*.png")` accepts: a name ending ".png" that is not hidden. */
  predicate IsPng(name: string) {
    |name| >= 4 && name[0] != '.' && name[|name| - 4..] == ".png"
  }

  /** The text after the last '/'. */
  function BaseName(path: string): (b: string)
    ensures '/' !in b
    ensures |b| <= |path| && b == path[|path| - |b|..]
  {
    if path == [] || path[|path| - 1] == '/' then []
    else BaseName(path[..|path| - 1]) + [path[|path| - 1]]
  }

  lemma {:induction false} BaseNameAfterSlash(dir: string, name: string)
    requires '/' !in name
    ensures BaseName(dir + "/" + name) == name
    decreases |name|
  {
    var p := dir + "/" + name;
    if name != [] {
      assert p[..|p| - 1] == dir + "/" + name[..|name| - 1];
      BaseNameAfterSlash(dir, name[..|name| - 1]);
      assert name[..|name| - 1] + [name[|name| - 1]] == name;
    }
  }

  /** The path of an entry of the batch folder. */
  function EntryPath(name: string): string {
    PathJoin(BatchFolder, name)
  }

  lemma EntryPathShape(name: string)
    requires '/' !in name
    ensures EntryPath(name) == BatchFolder + "/" + name
    ensures BaseName(EntryPath(name)) == name
  {
    if name != [] { assert name[0] in name; }
    BaseNameAfterSlash(BatchFolder, name);
  }

  /** The glob's result: the path of every PNG entry. */
  function Globbed(listing: seq<string>): (ps: seq<string>)
    ensures |ps| <= |listing|
  {
    if listing == [] then []
    else
      var last := listing[|listing| - 1];
      Globbed(listing[..|listing| - 1]) + (if IsPng(last) then [EntryPath(last)] else [])
  }

  /** The paths that open, in order. */
  function Readable(paths: seq<string>, unreadable: set<string>): (ok: seq<string>)
    ensures |ok| <= |paths|
  {
    if paths == [] then []
    else
      var last := paths[|paths| - 1];
      Readable(paths[..|paths| - 1], unreadable) + (if BaseName(last) !in unreadable then [last] else [])
  }

  /** A path is kept exactly when it is one of the paths and its file opens. */
  lemma {:induction false} ReadableMembers(paths: seq<string>, unreadable: set<string>)
    ensures forall p :: p in Readable(paths, unreadable) <==> p in paths && BaseName(p) !in unreadable
    decreases |paths|
  {
    if paths != [] {
      var init := paths[..|paths| - 1];
      var last := paths[|paths| - 1];
      ReadableMembers(init, unreadable);
      assert paths == init + [last];
    }
  }

  function Captions(images: seq<string>): (infos: seq<string>)
    ensures |infos| == |images|
    ensures forall k :: 0 <= k < |images| ==> infos[k] == ParseInfo(BaseName(images[k]))
  {
    seq(|images|, k requires 0 <= k < |images| => ParseInfo(BaseName(images[k])))
  }

  lemma CaptionsSnoc(images: seq<string>, p: string)
    ensures Captions(images + [p]) == Captions(images) + [ParseInfo(BaseName(p))]
  {
  }

  datatype BatchLoad = NoImages(message: string) | Images(images: seq<string>, infos: seq<string>)

  /** What `load_batch_images` returns for a folder. */
  function LoadBatch(folder: Folder): (r: BatchLoad)
    ensures folder.Missing? ==> r == NoImages(NoBatchMessage)
    ensures folder.Present? && Globbed(folder.listing) == [] ==> r == NoImages(NoPngMessage)
    ensures folder.Present? && Globbed(folder.listing) != [] ==> r.Images?
    ensures r.Images? ==> |r.images| == |r.infos|
  {
    match folder
    case Missing => NoImages(NoBatchMessage)
    case Present(listing, unreadable) =>
      var files := Globbed(listing);
      if files == [] then NoImages(NoPngMessage)
      else
        var ok := Readable(SortStrings(files), unreadable);
        Images(ok, Captions(ok))
  }

  /**
   * `load_batch_images`: glob, sort, then open each file in turn; a file
   * that opens contributes its image and its caption, one that fails
   * contributes neither.
   */
  method LoadBatchImages(folder: Folder) returns (r: BatchLoad)
    ensures r == LoadBatch(folder)
  {
    if folder.Missing? {
      return NoImages(NoBatchMessage);
    }
    var files := Globbed(folder.listing);
    if files == [] {
      return NoImages(NoPngMessage);
    }
    files := SortStrings(files);
    var images: seq<string> := [];
    var infos: seq<string> := [];
    for i := 0 to |files|
      invariant images == Readable(files[..i], folder.unreadable)
      invariant infos == Captions(images)
    {
      var filename := BaseName(files[i]);
      ReadableNext(files, i, folder.unreadable);
      if filename !in folder.unreadable {
        CaptionsSnoc(images, files[i]);
        images := images + [files[i]];
        infos := infos + [ParseInfo(filename)];
      }
    }
    LoadedAll(folder, files, images, infos);
    return Images(images, infos);
  }

  /** One more file is kept exactly when it opens. */
  lemma ReadableNext(paths: seq<string>, i: nat, unreadable: set<string>)
    requires i < |paths|
    ensures Readable(paths[..i + 1], unreadable)
         == Readable(paths[..i], unreadable) + (if BaseName(paths[i]) !in unreadable then [paths[i]] else [])
  {
    assert paths[..i + 1][..i] == paths[..i];
  }

  /** Once every sorted file is tried, the images and captions gathered are those `LoadBatch` gives. */
  lemma LoadedAll(folder: Folder, files: seq<string>, images: seq<string>, infos: seq<string>)
    requires folder.Present? && Globbed(folder.listing) != [] && files == SortStrings(Globbed(folder.listing))
    requires images == Readable(files[..|files|], folder.unreadable) && infos == Captions(images)
    ensures LoadBatch(folder) == Images(images, infos)
  {
    assert files[..|files|] == files;
  }

  /** A path is globbed exactly when it names a PNG entry of the folder. */
  lemma {:induction false} GlobbedMembers(listing: seq<string>, p: string)
    ensures p in Globbed(listing) <==> exists n :: n in listing && IsPng(n) && p == EntryPath(n)
    decreases |listing|
  {
    if listing != [] {
      var init := listing[..|listing| - 1];
      GlobbedMembers(init, p);
      assert forall n :: n in listing <==> n in init || n == listing[|listing| - 1];
    }
  }

  /** Order is preserved by keeping only the readable paths. */
  lemma {:induction false} ReadableSorted(paths: seq<string>, unreadable: set<string>)
    requires SortedStrings(paths)
    ensures SortedStrings(Readable(paths, unreadable))
    decreases |paths|
  {
    if paths != [] {
      var init := paths[..|paths| - 1];
      var last := paths[|paths| - 1];
      SortedInit(paths);
      ReadableSorted(init, unreadable);
      ReadableBelow(init, unreadable, last);
      var ok := Readable(init, unreadable);
      var extra := if BaseName(last) !in unreadable then [last] else [];
      assert Readable(paths, unreadable) == ok + extra;
      if extra != [] {
        SortedSnoc(ok, last);
      } else {
        assert ok + extra == ok;
      }
    }
  }

  /** A sorted list without its last element is sorted and bounded by that element. */
  lemma SortedInit(s: seq<string>)
    requires s != [] && SortedStrings(s)
    ensures SortedStrings(s[..|s| - 1])
    ensures forall k :: 0 <= k < |s| - 1 ==> LexLe(s[k], s[|s| - 1])
  {
  }

  /** A bound on every path is a bound on every path kept. */
  lemma {:induction false} ReadableBelow(paths: seq<string>, unreadable: set<string>, x: string)
    requires forall k :: 0 <= k < |paths| ==> LexLe(paths[k], x)
    ensures forall k :: 0 <= k < |Readable(paths, unreadable)| ==> LexLe(Readable(paths, unreadable)[k], x)
    decreases |paths|
  {
    if paths != [] {
      var init := paths[..|paths| - 1];
      var last := paths[|paths| - 1];
      forall k | 0 <= k < |init|
        ensures LexLe(init[k], x)
      {
        assert init[k] == paths[k];
      }
      ReadableBelow(init, unreadable, x);
      var extra := if BaseName(last) !in unreadable then [last] else [];
      assert Readable(paths, unreadable) == Readable(init, unreadable) + extra;
      BelowConcat(Readable(init, unreadable), extra, x);
    }
  }

  lemma SortedSnoc(s: seq<string>, x: string)
    requires SortedStrings(s)
    requires forall k :: 0 <= k < |s| ==> LexLe(s[k], x)
    ensures SortedStrings(s + [x])
  {
  }

  lemma BelowConcat(a: seq<string>, b: seq<string>, x: string)
    requires forall k :: 0 <= k < |a| ==> LexLe(a[k], x)
    requires forall k :: 0 <= k < |b| ==> LexLe(b[k], x)
    ensures forall k :: 0 <= k < |a + b| ==> LexLe((a + b)[k], x)
  {
    forall k | 0 <= k < |a + b|
      ensures LexLe((a + b)[k], x)
    {
      if k >= |a| {
        assert (a + b)[k] == b[k - |a|];
      }
    }
  }

  /**
   * The loaded images are exactly the folder's readable PNG files, in
   * ascending path order, each with the caption of its own file name.
   */
  lemma LoadBatchContents(listing: seq<string>, unreadable: set<string>)
    requires Globbed(listing) != []
    ensures var r := LoadBatch(Present(listing, unreadable));
      && SortedStrings(r.images)
      && (forall p :: p in r.images <==> p in Globbed(listing) && BaseName(p) !in unreadable)
      && forall k :: 0 <= k < |r.images| ==> r.infos[k] == ParseInfo(BaseName(r.images[k]))
  {
    var sorted := SortStrings(Globbed(listing));
    ReadableSorted(sorted, unreadable);
    ReadableMembers(sorted, unreadable);
    forall p ensures p in sorted <==> p in Globbed(listing) {
      assert p in sorted <==> p in multiset(sorted);
      assert p in Globbed(listing) <==> p in multiset(Globbed(listing));
    }
  }

  /** Within the batch folder, path order is file-name order. */
  lemma PathOrderIsNameOrder(a: string, b: string)
    requires '/' !in a && '/' !in b
    ensures LexLess(EntryPath(a), EntryPath(b)) <==> LexLess(a, b)
  {
    EntryPathShape(a);
    EntryPathShape(b);
    LexLessCommonPrefix(BatchFolder + "/", a, b);
  }

  // ---------------------------------------------------------------- category statistics

  /** `info.split(':')[0].split('#')[0].strip()`. */
  function CategoryKey(info: string): (key: string)
    ensures |key| <= |info|
  {
    SplitOnLength(info, ':');
    SplitOnLength(SplitOn(info, ':')[0], '#');
    StripLength(SplitOn(SplitOn(info, ':')[0], '#')[0]);
    Strip(SplitOn(SplitOn(info, ':')[0], '#')[0])
  }

  lemma {:induction false} SplitOnLength(s: string, c: char)
    ensures |SplitOn(s, c)[0]| <= |s|
    decreases |s|
  {
    if s != [] { SplitOnLength(s[1..], c); }
  }

  lemma {:induction false} LStripLength(s: string)
    ensures |LStrip(s)| <= |s|
    decreases |s|
  {
    if s != [] && IsSpace(s[0]) { LStripLength(s[1..]); }
  }

  lemma StripLength(s: string)
    ensures |Strip(s)| <= |s|
  {
    LStripLength(s);
  }

  /** A word without whitespace followed by one space strips back to the word. */
  lemma StripWordSpace(w: string)
    requires forall i :: 0 <= i < |w| ==> !IsSpace(w[i])
    ensures Strip(w + " ") == w
  {
    if w == [] {
      assert LStrip(" ") == LStrip("");
    } else {
      assert LStrip(w + " ") == w + " ";
      assert (w + " ")[..|w + " "| - 1] == w;
      assert RStrip(w) == w;
    }
  }

  /** The category of a parsed batch caption is the title-cased object name. */
  lemma CategoryOfCaption(name: string, num: string, variation: string)
    requires ':' !in name && '#' !in name && ':' !in num
    requires forall i :: 0 <= i < |name| ==> !IsSpace(name[i])
    ensures CategoryKey(Title(name) + " #" + num + ": " + Title(variation)) == Title(name)
  {
    var t := Title(name);
    TitleKeepsNonLetters(name, ':');
    TitleKeepsNonLetters(name, '#');
    var head := t + " #" + num;
    assert ':' !in head;
    assert t + " #" + num + ": " + Title(variation) == head + [':'] + (" " + Title(variation));
    SplitOnCons(head, ':', " " + Title(variation));
    assert head == (t + " ") + ['#'] + num;
    SplitOnCons(t + " ", '#', num);
    forall i | 0 <= i < |t| ensures !IsSpace(t[i]) {
      assert !IsSpace(name[i]);
    }
    StripWordSpace(t);
  }

  /** `categories`: the dictionary as (key, count) pairs in insertion order. */
  type Counts = seq<(string, nat)>

  function KeysOf(cs: Counts): (ks: seq<string>)
    ensures |ks| == |cs|
    ensures forall i :: 0 <= i < |cs| ==> ks[i] == cs[i].0
  {
    seq(|cs|, i requires 0 <= i < |cs| => cs[i].0)
  }

  predicate DistinctKeys(cs: Counts) {
    forall i, j :: 0 <= i < j < |cs| ==> cs[i].0 != cs[j].0
  }

  /** `categories.get(key, 0)`. */
  function CountOf(cs: Counts, key: string): nat {
    if cs == [] then 0 else if cs[0].0 == key then cs[0].1 else CountOf(cs[1..], key)
  }

  /** `categories[key] = categories.get(key, 0) + 1`: bump in place, or append a new key last. */
  function Bump(cs: Counts, key: string): (r: Counts)
    ensures |r| == |cs| || |r| == |cs| + 1
    ensures forall i :: 0 <= i < |cs| ==> r[i].0 == cs[i].0
    ensures |r| == |cs| + 1 ==> r[|cs|] == (key, 1)
  {
    if cs == [] then [(key, 1)]
    else if cs[0].0 == key then [(key, cs[0].1 + 1)] + cs[1..]
    else [cs[0]] + Bump(cs[1..], key)
  }

  function Total(cs: Counts): nat {
    if cs == [] then 0 else cs[0].1 + Total(cs[1..])
  }

  /** The number of occurrences of `key` in `ks`. */
  function Occurrences(ks: seq<string>, key: string): nat {
    if ks == [] then 0 else Occurrences(ks[..|ks| - 1], key) + (if ks[|ks| - 1] == key then 1 else 0)
  }

  /** The statistics dictionary built from a sequence of keys. */
  function Tally(ks: seq<string>): Counts {
    if ks == [] then [] else Bump(Tally(ks[..|ks| - 1]), ks[|ks| - 1])
  }

  lemma {:induction false} BumpKeys(cs: Counts, key: string)
    ensures forall x :: x in KeysOf(Bump(cs, key)) <==> x in KeysOf(cs) || x == key
    decreases |cs|
  {
    var r := Bump(cs, key);
    if cs == [] {
    } else if cs[0].0 == key {
      assert KeysOf(r) == KeysOf(cs);
    } else {
      BumpKeys(cs[1..], key);
      assert KeysOf(r) == [cs[0].0] + KeysOf(Bump(cs[1..], key));
      assert KeysOf(cs) == [cs[0].0] + KeysOf(cs[1..]);
    }
  }

  lemma {:induction false} BumpDistinct(cs: Counts, key: string)
    requires DistinctKeys(cs)
    ensures DistinctKeys(Bump(cs, key))
    decreases |cs|
  {
    var r := Bump(cs, key);
    if cs != [] && cs[0].0 != key {
      BumpDistinct(cs[1..], key);
      BumpKeys(cs[1..], key);
      forall j | 0 < j < |r| ensures r[0].0 != r[j].0 {
        var t := Bump(cs[1..], key);
        assert r[j] == t[j - 1];
        assert t[j - 1].0 in KeysOf(t);
        if t[j - 1].0 in KeysOf(cs[1..]) {
          var k :| 0 <= k < |cs[1..]| && KeysOf(cs[1..])[k] == t[j - 1].0;
          assert cs[k + 1].0 == t[j - 1].0;
        }
      }
    } else if cs != [] {
      assert r[1..] == cs[1..];
    }
  }

  lemma {:induction false} BumpCount(cs: Counts, key: string, x: string)
    ensures CountOf(Bump(cs, key), x) == CountOf(cs, x) + (if x == key then 1 else 0)
    decreases |cs|
  {
    if cs != [] && cs[0].0 != key {
      BumpCount(cs[1..], key, x);
    } else if cs != [] {
      assert Bump(cs, key)[1..] == cs[1..];
    }
  }

  lemma {:induction false} BumpTotal(cs: Counts, key: string)
    ensures Total(Bump(cs, key)) == Total(cs) + 1
    decreases |cs|
  {
    if cs != [] && cs[0].0 != key {
      BumpTotal(cs[1..], key);
    } else if cs != [] {
      assert Bump(cs, key)[1..] == cs[1..];
    }
  }

  /**
   * The statistics count every key exactly as often as it occurs, list each
   * key once, name exactly the keys that occur, and add up to the number
   * of captions.
   */
  lemma {:induction false} TallyCorrect(ks: seq<string>)
    ensures DistinctKeys(Tally(ks))
    ensures forall x :: CountOf(Tally(ks), x) == Occurrences(ks, x)
    ensures forall x :: x in KeysOf(Tally(ks)) <==> x in ks
    ensures Total(Tally(ks)) == |ks|
    decreases |ks|
  {
    if ks != [] {
      var init := ks[..|ks| - 1];
      TallyCorrect(init);
      var key := ks[|ks| - 1];
      BumpKeys(Tally(init), key);
      BumpDistinct(Tally(init), key);
      BumpTotal(Tally(init), key);
      forall x ensures CountOf(Tally(ks), x) == Occurrences(ks, x) {
        BumpCount(Tally(init), key, x);
      }
      assert forall x :: x in ks <==> x in init || x == ks[|ks| - 1] by {
        assert ks == init + [ks[|ks| - 1]];
      }
    }
  }

  function CategoryKeys(infos: seq<string>): (ks: seq<string>)
    ensures |ks| == |infos|
    ensures forall k :: 0 <= k < |infos| ==> ks[k] == CategoryKey(infos[k])
  {
    seq(|infos|, k requires 0 <= k < |infos| => CategoryKey(infos[k]))
  }

  /** The statistics loop of the gallery page: one bump per caption, in caption order. */
  method CategoryStats(infos: seq<string>) returns (categories: Counts)
    ensures categories == Tally(CategoryKeys(infos))
    ensures Total(categories) == |infos|
  {
    ghost var ks := CategoryKeys(infos);
    categories := [];
    for i := 0 to |infos|
      invariant categories == Tally(ks[..i])
    {
      var category := CategoryKey(infos[i]);
      TallyNext(ks, i);
      categories := Bump(categories, category);
    }
    assert ks[..|infos|] == ks;
    TallyCorrect(ks);
  }

  /** One more caption bumps its key in the counts of the captions before it. */
  lemma TallyNext(ks: seq<string>, i: nat)
    requires i < |ks|
    ensures Tally(ks[..i + 1]) == Bump(Tally(ks[..i]), ks[i])
  {
    var p := ks[..i + 1];
    assert p[..|p| - 1] == ks[..i];
  }
}

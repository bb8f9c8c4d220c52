/**
 * `demo.py`: `demo_generate` inside `create_simple_interface`. A blank
 * prompt is refused; otherwise image `i` gets the background
 * (100 + 50 i, 150, 200), the label "DEMO IMAGE {i+1}" and the prompt's
 * words drawn three to a line from y = 200, 40 apart; a second loop saves
 * every image once, and the status lists the files.
 */
module Demo {
  import opened Text
  import opened Colors
  import opened Wrap
  import opened Files
  import opened Frontend

  // ---------------------------------------------------------------- three words per line

  /** `[lines[j:j+3] for j in range(0, len(lines), 3)]`: consecutive chunks of three words, the last possibly shorter. */
  function Chunks(ws: seq<string>): seq<seq<string>>
    decreases |ws|
  {
    if ws == [] then []
    else if |ws| <= 3 then [ws]
    else [ws[..3]] + Chunks(ws[3..])
  }

  /** The end of Python's clamped slice `ws[j:j+3]`. */
  function ChunkEnd(j: nat, n: nat): nat {
    if j + 3 <= n then j + 3 else n
  }

  /**
   * There are `ceil(n / 3)` chunks; chunk `k` is the slice
   * `ws[3k : 3k + 3]`, so every chunk has one to three words and all but
   * the last exactly three.
   */
  lemma {:induction false} ChunksAt(ws: seq<string>)
    ensures |Chunks(ws)| == (|ws| + 2) / 3
    ensures forall k :: 0 <= k < |Chunks(ws)| ==> 3 * k < |ws| && Chunks(ws)[k] == ws[3 * k..ChunkEnd(3 * k, |ws|)]
    decreases |ws|
  {
    if |ws| > 3 {
      var rest := ws[3..];
      ChunksAt(rest);
      var cs := Chunks(ws);
      assert cs == [ws[..3]] + Chunks(rest);
      forall k | 1 <= k < |cs|
        ensures 3 * k < |ws| && cs[k] == ws[3 * k..ChunkEnd(3 * k, |ws|)]
      {
        assert cs[k] == Chunks(rest)[k - 1];
        SliceOfDrop(ws, 3, 3 * (k - 1), ChunkEnd(3 * (k - 1), |rest|));
      }
    }
  }

  /** A slice of `ws[d..]` is the slice of `ws` shifted by `d`. */
  lemma SliceOfDrop(ws: seq<string>, d: nat, i: nat, j: nat)
    requires d <= |ws| && i <= j <= |ws| - d
    ensures ws[d..][i..j] == ws[d + i..d + j]
  {
  }

  /** The chunks put back together are the words, in order: no word is lost, repeated or moved. */
  lemma {:induction false} ChunksCover(ws: seq<string>)
    ensures Concat(Chunks(ws)) == ws
    decreases |ws|
  {
    var cs := Chunks(ws);
    if ws != [] {
      ConcatCons(cs);
      if |ws| <= 3 {
        assert cs[1..] == [];
      } else {
        ChunksCover(ws[3..]);
        assert cs[1..] == Chunks(ws[3..]);
        assert ws[..3] + ws[3..] == ws;
      }
    }
  }

  /** Each chunk has one to three words; all but the last have exactly three. */
  lemma ChunkSizes(ws: seq<string>)
    ensures var cs := Chunks(ws);
      && (forall k :: 0 <= k < |cs| ==> 1 <= |cs[k]| <= 3)
      && (forall k :: 0 <= k < |cs| - 1 ==> |cs[k]| == 3)
  {
    ChunksAt(ws);
  }

  /** Taking the first chunk off a non-empty word list. */
  lemma ChunksStep(ws: seq<string>)
    requires ws != []
    ensures Chunks(ws) == [ws[..ChunkEnd(0, |ws|)]] + Chunks(if |ws| > 3 then ws[3..] else [])
  {
    if |ws| <= 3 {
      assert ws[..|ws|] == ws;
    }
  }

  /** The chunks of the words from `j` on: the slice `ws[j:j+3]`, then the chunks from `j + 3` on. */
  lemma ChunksAdvance(ws: seq<string>, j: nat)
    requires j < |ws|
    ensures Chunks(ws[j..]) == [ws[j..ChunkEnd(j, |ws|)]] + Chunks(if j + 3 < |ws| then ws[j + 3..] else [])
  {
    var t := ws[j..];
    ChunksStep(t);
    assert t[..ChunkEnd(0, |t|)] == ws[j..ChunkEnd(j, |ws|)];
    if j + 3 < |ws| {
      assert t[3..] == ws[j + 3..];
    }
  }

  /** One pass of the drawing loop: the chunk from `j` is the next one after those already drawn. */
  lemma ChunksDrawn(ws: seq<string>, j: nat, done: seq<seq<string>>)
    requires j < |ws| && Chunks(ws) == done + Chunks(ws[j..])
    ensures Chunks(ws) == (done + [ws[j..ChunkEnd(j, |ws|)]]) + Chunks(if j + 3 < |ws| then ws[j + 3..] else [])
  {
    ChunksAdvance(ws, j);
  }

  /** The prompt lines as drawn: each chunk joined by single spaces, from y = 200, 40 apart. */
  function PromptRows(prompt: string): seq<TextRow> {
    Rows(Render(Chunks(Words(prompt))), 200, 40)
  }

  /** The `for j in range(0, len(lines), 3)` loop, with `y` advanced by `line_height` after each line. */
  method DrawWords(prompt: string) returns (rows: seq<TextRow>)
    ensures rows == PromptRows(prompt)
  {
    var ws := Words(prompt);
    rows := [];
    var y := 200;
    var j := 0;
    ghost var done: seq<seq<string>> := [];
    while j < |ws|
      invariant 0 <= j
      invariant Chunks(ws) == done + Chunks(if j < |ws| then ws[j..] else [])
      invariant rows == Rows(Render(done), 200, 40) && y == 200 + |done| * 40
      decreases |ws| - j
    {
      var chunk := ws[j..ChunkEnd(j, |ws|)];
      ChunksDrawn(ws, j, done);
      var line := JoinSpace(chunk);
      rows, y := CloseRow(rows, y, line, done, chunk, 200, 40);
      done := done + [chunk];
      j := j + 3;
    }
  }

  /**
   * The drawn lines: `ceil(n / 3)` of them for `n` words, line `k` at
   * y = 200 + 40 k showing words `3k` to `3k + 2`; together the chunks
   * are exactly the prompt's words.
   */
  lemma PromptLayout(prompt: string)
    ensures var ws := Words(prompt);
      var rows := PromptRows(prompt);
      && Concat(Chunks(ws)) == ws
      && |rows| == (|ws| + 2) / 3
      && forall k :: 0 <= k < |rows| ==>
           3 * k < |ws| && rows[k] == TextRow(200 + 40 * k, JoinSpace(ws[3 * k..ChunkEnd(3 * k, |ws|)]))
  {
    var ws := Words(prompt);
    ChunksAt(ws);
    ChunksCover(ws);
  }

  // ---------------------------------------------------------------- one image

  /** `(100 + i*50, 150, 200)`. */
  function Background(i: nat): Rgb {
    Rgb(100 + 50 * i, 150, 200)
  }

  /** The background is a valid colour exactly for the four images the slider allows. */
  lemma BackgroundValid(i: nat)
    ensures ValidRgb(Background(i)) <==> i < 4
  {
  }

  /** `f"DEMO IMAGE {i+1}"`. */
  function Label(i: nat): string {
    "DEMO IMAGE " + NatToString(i + 1)
  }

  datatype Picture = Picture(background: Rgb, caption: string, prompt: seq<TextRow>)

  function PictureOf(prompt: string, i: nat): Picture {
    Picture(Background(i), Label(i), PromptRows(prompt))
  }

  /** The first `n` images. */
  function Pictures(prompt: string, n: nat): (r: seq<Picture>)
    ensures |r| == n && forall i :: 0 <= i < n ==> r[i] == PictureOf(prompt, i)
  {
    if n == 0 then [] else Pictures(prompt, n - 1) + [PictureOf(prompt, n - 1)]
  }

  /** Distinct images differ in background and caption; all show the same prompt lines. */
  lemma PicturesDiffer(prompt: string, i: nat, j: nat)
    requires i != j
    ensures PictureOf(prompt, i).background != PictureOf(prompt, j).background
    ensures PictureOf(prompt, i).caption != PictureOf(prompt, j).caption
    ensures PictureOf(prompt, i).prompt == PictureOf(prompt, j).prompt
  {
    if Label(i) == Label(j) {
      assert NatToString(i + 1) == Label(i)[11..] == Label(j)[11..] == NatToString(j + 1);
      NatToStringInjective(i + 1, j + 1);
    }
  }

  // ---------------------------------------------------------------- status

  function Header(n: nat): string {
    "\U{2705} Generated " + NatToString(n) + " demo image(s)!"
  }

  /** The status as the script writes it: the escaped `\\n` puts a backslash and an `n`, not a line break, between the two parts. */
  function StatusAsWritten(n: nat, saved: seq<string>): string {
    Header(n) + "\\nSaved to: " + JoinWith(", ", saved)
  }

  /** The status with the line break the message evidently means. */
  function Status(n: nat, saved: seq<string>): string {
    Header(n) + "\n" + "Saved to: " + JoinWith(", ", saved)
  }

  /** As written, the status is a single line that shows a literal backslash and `n`. */
  lemma StatusAsWrittenOneLine(n: nat, saved: seq<string>)
    requires '\n' !in JoinWith(", ", saved)
    ensures SplitOn(StatusAsWritten(n, saved), '\n') == [StatusAsWritten(n, saved)]
    ensures var h := |Header(n)|; StatusAsWritten(n, saved)[h..h + 2] == "\\n"
  {
    var tail := "\\nSaved to: " + JoinWith(", ", saved);
    var w := StatusAsWritten(n, saved);
    assert w == Header(n) + tail;
    HeaderOneLine(n);
    assert '\n' !in tail;
    assert '\n' !in w;
    SplitOnFree(w, '\n');
    assert w[|Header(n)|..|Header(n)| + 2] == tail[..2];
  }

  /** The count line holds no line break. */
  lemma HeaderOneLine(n: nat)
    ensures '\n' !in Header(n)
  {
    assert '\n' !in NatToString(n);
  }

  /** The corrected status has exactly two lines: the count, then the files. */
  lemma StatusLines(n: nat, saved: seq<string>)
    requires '\n' !in JoinWith(", ", saved)
    ensures SplitOn(Status(n, saved), '\n') == [Header(n), "Saved to: " + JoinWith(", ", saved)]
  {
    var rest := "Saved to: " + JoinWith(", ", saved);
    HeaderOneLine(n);
    assert Status(n, saved) == Header(n) + ['\n'] + rest;
    SplitOnCons(Header(n), '\n', rest);
    SplitOnFree(rest, '\n');
  }

  // ---------------------------------------------------------------- demo_generate

  const OutputFolder := "outputs/generated"

  function SavedStem(clock: Clock): string {
    "demo_" + Stamp(clock)
  }

  /** `outputs/generated/demo_{timestamp}_{i+1}.png`. */
  function SavedPath(clock: Clock, i: nat): string {
    PathJoin(OutputFolder, NumberedName(SavedStem(clock), i))
  }

  datatype Outcome = Refused(message: string) | Made(images: seq<Picture>, saved: seq<string>, status: string)

  /**
   * A blank prompt is refused; otherwise the first loop draws `numImages`
   * pictures, the second saves picture `i` as `demo_{timestamp}_{i+1}.png`,
   * and the status counts the images and lists the files, joined as the
   * script writes it (see `StatusAsWrittenOneLine`).
   */
  method DemoGenerate(prompt: string, numImages: nat, clock: Clock) returns (r: Outcome)
    ensures IsBlank(prompt) <==> r == Refused(PromptRequired)
    ensures !IsBlank(prompt) ==>
      var saved := NumberedPaths(OutputFolder, SavedStem(clock), numImages);
      r == Made(Pictures(prompt, numImages), saved, StatusAsWritten(numImages, saved))
  {
    if IsBlank(prompt) {
      return Refused(PromptRequired);
    }
    var images: seq<Picture> := [];
    for i := 0 to numImages
      invariant images == Pictures(prompt, i)
    {
      var rows := DrawWords(prompt);
      images := images + [Picture(Background(i), Label(i), rows)];
    }
    var saved: seq<string> := [];
    for i := 0 to |images|
      invariant saved == NumberedPaths(OutputFolder, SavedStem(clock), i)
    {
      saved := saved + [PathJoin(OutputFolder, NumberedName(SavedStem(clock), i))];
    }
    r := Made(images, saved, StatusAsWritten(|images|, saved));
  }

  /** Each image is saved once: the files of one call are pairwise distinct. */
  lemma SavedPathsDistinct(clock: Clock, i: nat, j: nat)
    requires i != j
    ensures SavedPath(clock, i) != SavedPath(clock, j)
  {
    NumberedNamesDistinct(OutputFolder, SavedStem(clock), i, j);
  }
}

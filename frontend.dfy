/**
 * What the six demo front-ends share: the blank-prompt guard, the colour
 * scheme lookup with its "realistic" default, the outcome of calling the
 * optional prompt enhancer, the first-match subject choice over an ordered
 * list of keyword groups, and the placement of wrapped prompt lines.
 */
module Frontend {
  import opened Text
  import opened Wrappers
  import opened Classifier
  import opened Wrap
  import opened Colors
  import opened Files
  import Tokenizer

  /** The message every front-end returns for an empty or all-whitespace prompt. */
  const PromptRequired := "\U{274C} Please enter a text prompt"

  // ---------------------------------------------------------------- style schemes

  /**
   * `schemes.get(style, schemes["realistic"])`: the scheme of a known style,
   * the realistic one for any other.
   */
  function SchemeFor<T>(schemes: map<string, T>, style: string): (s: T)
    requires "realistic" in schemes
    ensures style in schemes ==> s == schemes[style]
    ensures style !in schemes ==> s == schemes["realistic"]
  {
    if style in schemes then schemes[style] else schemes["realistic"]
  }

  /** The three-colour scheme of the scripts whose schemes have no subject colour. */
  datatype Palette = Palette(bg: Rgb, accent: Rgb, text: Rgb)

  // ---------------------------------------------------------------- prompt enhancement

  /**
   * The state of the optional prompt processing: its import failed, the
   * call raised, or it returned. The enhancer of this model never raises;
   * `Raising` stands for the `except` branch each script keeps anyway.
   */
  datatype Enhancer = Unavailable | Raising | Working

  /** `f"{prompt}, {style}, high quality"`, the fallback most scripts use. */
  function QualityFallback(prompt: string, style: string): (r: string)
    ensures |r| > |prompt| && r[..|prompt|] == prompt
  {
    prompt + ", " + style + ", high quality"
  }

  /**
   * The prompt a script ends up with when it keeps the original prompt if
   * processing is unavailable and uses `fallback` when the call raises.
   */
  function EnhancedOrKept(prompt: string, style: string, e: Enhancer, fallback: string): (r: string)
    ensures e == Unavailable ==> r == prompt
    ensures e == Working ==> r == Tokenizer.EnhancePrompt(prompt, style)
    ensures e == Raising ==> r == fallback
  {
    match e
    case Unavailable => prompt
    case Raising => fallback
    case Working => Tokenizer.EnhancePrompt(prompt, style)
  }

  /**
   * With either the enhancer or the quality fallback, the prompt changes:
   * a script that reports "Enhanced prompt" only when it differs from the
   * original reports it exactly when processing is available.
   */
  lemma EnhancedDiffers(prompt: string, style: string, e: Enhancer)
    ensures EnhancedOrKept(prompt, style, e, QualityFallback(prompt, style)) != prompt <==> e != Unavailable
  {
    var r := EnhancedOrKept(prompt, style, e, QualityFallback(prompt, style));
    if e == Working {
      assert |r| > |prompt|;
    } else if e == Raising {
      assert |r| > |prompt|;
    }
  }

  // ---------------------------------------------------------------- subject choice

  /** What a front-end can draw; each script recognises some of these. */
  datatype Subject = Dog | Cat | Car | Bike | Laptop | Human | Landscape | House | Flower | Food | Creative

  /** One `if any(word in prompt_lower for word in keywords)` branch and what it draws. */
  datatype Theme = Theme(subject: Subject, keywords: seq<string>)

  function KeywordGroups(themes: seq<Theme>): (gs: seq<seq<string>>)
    ensures |gs| == |themes|
    ensures forall k :: 0 <= k < |themes| ==> gs[k] == themes[k].keywords
  {
    if themes == [] then [] else [themes[0].keywords] + KeywordGroups(themes[1..])
  }

  /**
   * The `if / elif / else` chain over the lower-cased prompt: the first
   * theme with a keyword occurring in the text, or `Creative` when none has.
   */
  function Pick(text: string, themes: seq<Theme>): (s: Subject)
    ensures || (exists k :: 0 <= k < |themes| && Matches(text, themes[k].keywords) && s == themes[k].subject
                             && forall j :: 0 <= j < k ==> !Matches(text, themes[j].keywords))
            || (s == Creative && forall j :: 0 <= j < |themes| ==> !Matches(text, themes[j].keywords))
  {
    var gs := KeywordGroups(themes);
    var k := Classify(text, gs);
    if k < |themes| then themes[k].subject else Creative
  }

  /** `Pick` over the lower-cased prompt, as every script calls it. */
  function SubjectOf(prompt: string, themes: seq<Theme>): Subject {
    Pick(Lower(prompt), themes)
  }

  // ---------------------------------------------------------------- drawn prompt lines

  /** A line of text drawn at height `y`. */
  datatype TextRow = TextRow(y: int, text: string)

  /** `for i, line in enumerate(lines): draw.text((x, top + i * step), line)`. */
  function Rows(lines: seq<string>, top: int, step: int): (rows: seq<TextRow>)
    ensures |rows| == |lines|
    ensures forall i :: 0 <= i < |lines| ==> rows[i] == TextRow(top + i * step, lines[i])
  {
    if lines == [] then []
    else
      var rest := Rows(lines[1..], top + step, step);
      assert forall i :: 1 <= i < |lines| ==> top + step + (i - 1) * step == top + i * step;
      [TextRow(top, lines[0])] + rest
  }

  /** `lines[:cap]` of the greedy wrap of a prompt. */
  function DrawnLines(prompt: string, w: Width, cap: nat): seq<string> {
    Take(Lines(w, prompt), cap)
  }

  /**
   * What a reader of the picture sees of the prompt: at most `cap` lines, no
   * empty line, every line of two or more words within the width test, the
   * drawn lines leading the full wrap, and every word of the prompt on them
   * in order when the wrap needs no more than `cap` lines.
   */
  lemma DrawnLinesFacts(prompt: string, w: Width, cap: nat)
    ensures |DrawnLines(prompt, w, cap)| <= cap
    ensures DrawnLines(prompt, w, cap) == Lines(w, prompt)[..|DrawnLines(prompt, w, cap)|]
    ensures forall i :: 0 <= i < |DrawnLines(prompt, w, cap)| ==> DrawnLines(prompt, w, cap)[i] != ""
    ensures forall i :: 0 <= i < |DrawnLines(prompt, w, cap)| && |Words(DrawnLines(prompt, w, cap)[i])| >= 2 ==>
              Fits(w, |DrawnLines(prompt, w, cap)[i]|)
    ensures |Lines(w, prompt)| <= cap ==> JoinSpace(DrawnLines(prompt, w, cap)) == JoinSpace(Words(prompt))
  {
    LinesOfPrompt(w, prompt);
    var all := Lines(w, prompt);
    var d := DrawnLines(prompt, w, cap);
    forall i | 0 <= i < |d|
      ensures d[i] == all[i]
    {
    }
  }

  /**
   * The drawing loop `for line in lines: draw.text((x, y), line); y += step`:
   * the rows it draws and the height it leaves `y` at.
   */
  method DrawLines(lines: seq<string>, top: int, step: int) returns (rows: seq<TextRow>, next: int)
    ensures rows == Rows(lines, top, step)
    ensures next == top + |lines| * step
  {
    rows := [];
    next := top;
    for i := 0 to |lines|
      invariant next == top + i * step
      invariant rows == Rows(lines[..i], top, step)
    {
      RowsNext(lines, i, top, step);
      rows := rows + [TextRow(next, lines[i])];
      next := next + step;
    }
    assert lines[..|lines|] == lines;
  }

  /** One loop step of `DrawLines`: the next row and the next height. */
  lemma RowsNext(lines: seq<string>, i: nat, top: int, step: int)
    requires i < |lines|
    ensures Rows(lines[..i + 1], top, step) == Rows(lines[..i], top, step) + [TextRow(top + i * step, lines[i])]
    ensures top + (i + 1) * step == top + i * step + step
  {
    var pre, x := lines[..i], lines[i];
    assert lines[..i + 1] == pre + [x];
    assert |pre| == i;
    RowsSnoc(pre, x, top, step);
    StepDown(i, step);
  }

  /** Drawing one more line puts it one step below the last. */
  lemma RowsSnoc(lines: seq<string>, x: string, top: int, step: int)
    ensures Rows(lines + [x], top, step) == Rows(lines, top, step) + [TextRow(top + |lines| * step, x)]
  {
    var a := Rows(lines + [x], top, step);
    var b := Rows(lines, top, step) + [TextRow(top + |lines| * step, x)];
    assert |a| == |b|;
    forall i | 0 <= i < |a|
      ensures a[i] == b[i]
    {
      if i < |lines| {
        assert (lines + [x])[i] == lines[i];
      }
    }
  }

  /**
   * A wrapped block: the joined-test wrap of `text`, its first `cap` lines
   * drawn `step` apart from `top`, and the height it leaves `y` at.
   */
  method DrawBlock(text: string, w: Width, cap: nat, top: int, step: int) returns (rows: seq<TextRow>, next: int)
    ensures rows == Rows(DrawnLines(text, w, cap), top, step)
    ensures next == top + |DrawnLines(text, w, cap)| * step
  {
    var lines := WrapJoined(text, w);
    rows, next := DrawLines(Take(lines, cap), top, step);
  }

  /**
   * The wrap loop of the script that draws each line as soon as it is
   * closed, moving `y` down by `step`, and draws the last line after the
   * loop: every line of the greedy wrap, `step` apart from `top`.
   */
  method DrawWhileWrapping(text: string, w: Width, top: int, step: int) returns (rows: seq<TextRow>)
    ensures rows == Rows(Lines(w, text), top, step)
  {
    var words := Words(text);
    rows := [];
    var y := top;
    var line := "";
    ghost var done: seq<seq<string>> := [];
    ghost var cur: seq<string> := [];
    for i := 0 to |words|
      invariant Greedy(w, done, cur, words[i..]) == Groups(w, words)
      invariant rows == Rows(Render(done), top, step)
      invariant y == top + |done| * step
      invariant line == JoinSpace(cur)
      invariant i == 0 ==> cur == [] && done == []
      invariant i > 0 ==> cur != [] && line != ""
    {
      assert words[i..][1..] == words[i + 1..];
      var closed, next;
      ghost var done', cur';
      closed, next, done', cur' := Feed(w, words[i..], line, done, cur);
      if closed {
        rows, y := CloseRow(rows, y, line, done, cur, top, step);
      }
      line, done, cur := next, done', cur';
    }
    if line != "" {
      rows, y := CloseRow(rows, y, line, done, cur, top, step);
    }
  }

  /**
   * One pass of the wrap loop: the next word extends the line, or the line
   * is closed (`closed`, to be drawn by the caller) and a new one started.
   */
  method Feed(w: Width, rest: seq<string>, line: string, ghost done: seq<seq<string>>, ghost cur: seq<string>)
    returns (closed: bool, line': string, ghost done': seq<seq<string>>, ghost cur': seq<string>)
    requires rest != [] && rest[0] != "" && line == JoinSpace(cur)
    requires cur != [] ==> line != ""
    ensures Greedy(w, done', cur', rest[1..]) == Greedy(w, done, cur, rest)
    ensures line' == JoinSpace(cur') && cur' != [] && line' != ""
    ensures done' == if closed then done + [cur] else done
    ensures closed ==> line != ""
  {
    var word := rest[0];
    GreedyStep(w, done, cur, rest);
    assert cur != [] ==> |line + " " + word| == |JoinSpace(cur)| + 1 + |word|;
    closed, done' := false, done;
    if Fits(w, |line + " " + word|) {
      line' := line + (if line != "" then " " else "") + word;
      if cur != [] { JoinSpaceSnoc(cur, word); }
      cur' := cur + [word];
    } else {
      if line != "" {
        closed, done' := true, done + [cur];
      }
      line' := word;
      cur' := [word];
    }
  }

  /** Drawing a closed line at `y` and moving one step down. */
  method CloseRow(rows: seq<TextRow>, y: int, line: string, ghost done: seq<seq<string>>, ghost cur: seq<string>,
                  top: int, step: int) returns (rows': seq<TextRow>, y': int)
    requires rows == Rows(Render(done), top, step) && y == top + |done| * step && line == JoinSpace(cur)
    ensures rows' == Rows(Render(done + [cur]), top, step) && y' == top + |done + [cur]| * step
  {
    CloseRowStep(rows, y, line, done, cur, top, step);
    rows' := rows + [TextRow(y, line)];
    y' := y + step;
  }

  /** The drawn rows and the height after closing one more line. */
  lemma CloseRowStep(rows: seq<TextRow>, y: int, line: string, done: seq<seq<string>>, cur: seq<string>, top: int, step: int)
    requires rows == Rows(Render(done), top, step) && y == top + |done| * step && line == JoinSpace(cur)
    ensures rows + [TextRow(y, line)] == Rows(Render(done + [cur]), top, step)
    ensures y + step == top + |done + [cur]| * step
  {
    RowsRenderSnoc(done, cur, top, step);
    assert TextRow(y, line) == TextRow(top + |done| * step, JoinSpace(cur));
  }

  lemma StepDown(n: nat, step: int)
    ensures (n + 1) * step == n * step + step
  {
  }

  /** Closing a wrapped line draws it one step below the lines already closed. */
  lemma RowsRenderSnoc(done: seq<seq<string>>, cur: seq<string>, top: int, step: int)
    ensures Rows(Render(done + [cur]), top, step) == Rows(Render(done), top, step) + [TextRow(top + |done| * step, JoinSpace(cur))]
    ensures top + |done + [cur]| * step == top + |done| * step + step
  {
    assert |done + [cur]| == |done| + 1;
    StepDown(|done|, step);
    assert (done + [cur])[..|done|] == done;
    assert Render(done + [cur]) == Render(done) + [JoinSpace(cur)];
    RowsSnoc(Render(done), JoinSpace(cur), top, step);
  }

  // ---------------------------------------------------------------- saved files

  /** `f"{stem}_{i+1}.png"`: the name of the `i`-th image (from 0) of a run. */
  function NumberedName(stem: string, i: nat): (n: string)
    ensures |n| > |stem| + 5
    ensures n[..|stem| + 1] == stem + "_" && n[|n| - 4..] == ".png"
  {
    stem + "_" + NatToString(i + 1) + ".png"
  }

  /** The files `dir/{stem}_1.png` to `dir/{stem}_{n}.png` of a run, in order. */
  function NumberedPaths(dir: string, stem: string, n: nat): (r: seq<string>)
    ensures |r| == n && forall i :: 0 <= i < n ==> r[i] == PathJoin(dir, NumberedName(stem, i))
  {
    if n == 0 then [] else NumberedPaths(dir, stem, n - 1) + [PathJoin(dir, NumberedName(stem, n - 1))]
  }

  /** Numbered files listed after other files keep their numbers: entry `i` is file `i - |head| + 1`. */
  lemma PathsAfter(head: seq<string>, dir: string, stem: string, n: nat)
    ensures var s := head + NumberedPaths(dir, stem, n);
      |s| == |head| + n && forall i :: |head| <= i < |s| ==> s[i] == PathJoin(dir, NumberedName(stem, i - |head|))
  {
  }

  /** `n` copies of `x`: the images of a loop that draws the same picture every time. */
  function Repeated<T>(x: T, n: nat): (r: seq<T>)
    ensures |r| == n && forall i :: 0 <= i < n ==> r[i] == x
  {
    if n == 0 then [] else Repeated(x, n - 1) + [x]
  }

  /** Within one run no two images share a file, so none overwrites another. */
  lemma NumberedNamesDistinct(dir: string, stem: string, i: nat, j: nat)
    requires i != j
    requires stem != [] && stem[0] != '/'
    ensures PathJoin(dir, NumberedName(stem, i)) != PathJoin(dir, NumberedName(stem, j))
  {
    var a, b := NumberedName(stem, i), NumberedName(stem, j);
    if PathJoin(dir, a) == PathJoin(dir, b) {
      PathJoinInjective(dir, a, b);
      var x, y := NatToString(i + 1), NatToString(j + 1);
      assert x == a[|stem| + 1..|a| - 4];
      assert y == b[|stem| + 1..|b| - 4];
      NatToStringInjective(i + 1, j + 1);
    }
  }
}

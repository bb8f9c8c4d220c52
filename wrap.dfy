/**
 * The greedy prompt wrap every demo front-end draws its prompt with.
 *
 * Each script walks `prompt.split()` keeping a `current_line`; a word joins
 * the line while `scale * len(candidate) < bound` holds for the candidate
 * `current_line + " " + word`, and otherwise the line is closed and the word
 * starts the next one. Only the constants differ between scripts, so they
 * are all instances of `Groups` below, characterised by `WellWrapped` and
 * proved unique by `GroupsUnique`.
 */
module Wrap {
  import opened Text

  /** The per-script width test: a candidate of length `n` fits when `scale * n < bound`. */
  datatype Width = Width(scale: nat, bound: nat)

  predicate Fits(w: Width, n: nat) {
    w.scale * n < w.bound
  }

  lemma {:induction false} MulMonotone(k: nat, a: nat, b: nat)
    requires a <= b
    ensures k * a <= k * b
  {
    if k > 0 {
      MulMonotone(k - 1, a, b);
      assert k * a == (k - 1) * a + a;
      assert k * b == (k - 1) * b + b;
    }
  }

  /** A shorter candidate fits whenever a longer one does. */
  lemma FitsMonotone(w: Width, n: nat, m: nat)
    requires n <= m && Fits(w, m)
    ensures Fits(w, n)
  {
    MulMonotone(w.scale, n, m);
  }

  // ---------------------------------------------------------------- specification

  /** All words in order, group after group. */
  function Concat(gs: seq<seq<string>>): seq<string> {
    if gs == [] then [] else Concat(gs[..|gs| - 1]) + gs[|gs| - 1]
  }

  /** The drawn text of each group. */
  function Render(gs: seq<seq<string>>): (r: seq<string>)
    ensures |r| == |gs|
    ensures forall i :: 0 <= i < |gs| ==> r[i] == JoinSpace(gs[i])
  {
    if gs == [] then [] else Render(gs[..|gs| - 1]) + [JoinSpace(gs[|gs| - 1])]
  }

  /**
   * The greedy walk: `done` are the closed lines, `cur` the words of
   * `current_line`, `rest` the words not yet read.
   */
  function Greedy(w: Width, done: seq<seq<string>>, cur: seq<string>, rest: seq<string>): seq<seq<string>>
    decreases |rest|
  {
    if rest == [] then (if cur == [] then done else done + [cur])
    else if cur == [] || Fits(w, |JoinSpace(cur)| + 1 + |rest[0]|) then Greedy(w, done, cur + [rest[0]], rest[1..])
    else Greedy(w, done + [cur], [rest[0]], rest[1..])
  }

  /** The word groups of the wrapped lines. */
  function Groups(w: Width, words: seq<string>): seq<seq<string>> {
    Greedy(w, [], [], words)
  }

  /** The wrapped lines of a prompt, before any cap on how many are drawn. */
  function Lines(w: Width, text: string): seq<string> {
    Render(Groups(w, Words(text)))
  }

  /**
   * What a greedy wrap guarantees: no empty line, every line of two or more
   * words passes the width test, and every line was closed only because its
   * successor's first word would have made it fail.
   */
  predicate WellWrapped(w: Width, gs: seq<seq<string>>) {
    && (forall i :: 0 <= i < |gs| ==> GroupOk(w, gs[i]))
    && (forall i :: 0 <= i < |gs| - 1 ==> MustBreak(w, gs[i], gs[i + 1]))
  }

  /** A line holds at least one word, and a line of two or more words passes the width test. */
  predicate GroupOk(w: Width, g: seq<string>) {
    g != [] && (|g| >= 2 ==> Fits(w, |JoinSpace(g)|))
  }

  /** Line `b` could not have been started on line `a`: its first word does not fit there. */
  predicate MustBreak(w: Width, a: seq<string>, b: seq<string>) {
    b != [] ==> !Fits(w, |JoinSpace(a)| + 1 + |b[0]|)
  }

  predicate NonEmptyWords(ws: seq<string>) {
    forall i :: 0 <= i < |ws| ==> ws[i] != []
  }

  function Close(done: seq<seq<string>>, cur: seq<string>): seq<seq<string>> {
    if cur == [] then done else done + [cur]
  }

  // ---------------------------------------------------------------- lemmas on the pieces

  lemma {:induction false} ConcatCons(gs: seq<seq<string>>)
    requires gs != []
    ensures Concat(gs) == gs[0] + Concat(gs[1..])
    decreases |gs|
  {
    if |gs| > 1 {
      var init := gs[..|gs| - 1];
      ConcatCons(init);
      assert init[1..] == gs[1..][..|gs[1..]| - 1];
    } else {
      assert gs[..0] == [];
    }
  }

  lemma ConcatSnoc(gs: seq<seq<string>>, g: seq<string>)
    ensures Concat(gs + [g]) == Concat(gs) + g
  {
    assert (gs + [g])[..|gs|] == gs;
  }

  lemma {:induction false} ConcatEmpty(gs: seq<seq<string>>)
    requires forall i :: 0 <= i < |gs| ==> gs[i] != []
    requires Concat(gs) == []
    ensures gs == []
  {
    if gs != [] {
      ConcatCons(gs);
    }
  }

  lemma {:induction false} JoinSpacePrefix(ws: seq<string>, k: nat)
    requires 1 <= k <= |ws|
    ensures |JoinSpace(ws[..k])| <= |JoinSpace(ws)|
    decreases |ws| - k
  {
    if k < |ws| {
      assert ws[..k + 1] == ws[..k] + [ws[k]];
      JoinSpaceSnoc(ws[..k], ws[k]);
      JoinSpacePrefix(ws, k + 1);
    } else {
      assert ws[..k] == ws;
    }
  }

  lemma WellWrappedTail(w: Width, gs: seq<seq<string>>)
    requires gs != [] && WellWrapped(w, gs)
    ensures WellWrapped(w, gs[1..])
  {
    var t := gs[1..];
    assert forall i :: 0 <= i < |t| ==> t[i] == gs[i + 1];
  }

  /** Adding a word to the open line keeps the closed-off picture well wrapped. */
  lemma WellWrappedExtend(w: Width, done: seq<seq<string>>, cur: seq<string>, x: string)
    requires cur == [] ==> done == []
    requires WellWrapped(w, Close(done, cur))
    requires cur == [] || Fits(w, |JoinSpace(cur)| + 1 + |x|)
    ensures WellWrapped(w, Close(done, cur + [x]))
  {
    var c := cur + [x];
    var gs := done + [c];
    assert Close(done, c) == gs;
    if cur != [] {
      JoinSpaceSnoc(cur, x);
      assert GroupOk(w, c);
      var old_gs := done + [cur];
      assert Close(done, cur) == old_gs;
      assert forall i :: 0 <= i < |done| ==> gs[i] == old_gs[i];
      if |done| > 0 {
        assert MustBreak(w, old_gs[|done| - 1], old_gs[|done|]);
        assert old_gs[|done|][0] == cur[0] == c[0];
        assert MustBreak(w, gs[|done| - 1], gs[|done|]);
      }
    } else {
      assert c == [x] && done == [];
      assert gs == [[x]];
      assert GroupOk(w, gs[0]);
    }
  }

  /** Closing the open line because the next word does not fit keeps it well wrapped. */
  lemma WellWrappedBreak(w: Width, done: seq<seq<string>>, cur: seq<string>, x: string)
    requires cur != []
    requires WellWrapped(w, Close(done, cur))
    requires !Fits(w, |JoinSpace(cur)| + 1 + |x|)
    ensures WellWrapped(w, Close(done + [cur], [x]))
  {
    var d := done + [cur];
    var gs := d + [[x]];
    assert Close(done, cur) == d;
    assert Close(d, [x]) == gs;
    assert forall i :: 0 <= i < |d| ==> gs[i] == d[i];
    assert MustBreak(w, gs[|d| - 1], gs[|d|]);
  }

  /** Reading the next word, the words seen so far are the same whether it joins the open line or starts a new one. */
  lemma ConcatShift(done: seq<seq<string>>, cur: seq<string>, rest: seq<string>)
    requires rest != []
    ensures Concat(done) + cur + rest == Concat(done) + (cur + [rest[0]]) + rest[1..]
    ensures Concat(done) + cur + rest == Concat(done + [cur]) + [rest[0]] + rest[1..]
  {
    ConcatSnoc(done, cur);
    assert rest == [rest[0]] + rest[1..];
  }

  lemma {:induction false} GreedyCorrect(w: Width, done: seq<seq<string>>, cur: seq<string>, rest: seq<string>)
    requires NonEmptyWords(rest)
    requires cur == [] ==> done == []
    requires WellWrapped(w, Close(done, cur))
    ensures WellWrapped(w, Greedy(w, done, cur, rest))
    ensures Concat(Greedy(w, done, cur, rest)) == Concat(done) + cur + rest
    decreases |rest|
  {
    if rest == [] {
      if cur != [] {
        ConcatSnoc(done, cur);
      }
    } else {
      var x := rest[0];
      assert NonEmptyWords(rest[1..]);
      ConcatShift(done, cur, rest);
      if cur == [] || Fits(w, |JoinSpace(cur)| + 1 + |x|) {
        WellWrappedExtend(w, done, cur, x);
        GreedyCorrect(w, done, cur + [x], rest[1..]);
      } else {
        WellWrappedBreak(w, done, cur, x);
        GreedyCorrect(w, done + [cur], [x], rest[1..]);
      }
    }
  }

  /**
   * The wrapped groups partition the words in order (each word once, none
   * dropped, none reordered) and are well wrapped.
   */
  lemma GroupsCorrect(w: Width, words: seq<string>)
    requires NonEmptyWords(words)
    ensures Concat(Groups(w, words)) == words
    ensures WellWrapped(w, Groups(w, words))
  {
    GreedyCorrect(w, [], [], words);
  }

  /** Dropping a known prefix from both sides of an equation. */
  lemma CancelPrefix(a: seq<string>, b: seq<string>, c: seq<string>)
    requires a + b == a + c
    ensures b == c
  {
    assert b == (a + b)[|a|..];
    assert c == (a + c)[|a|..];
  }

  lemma {:induction false} GreedyUnique(w: Width, done: seq<seq<string>>, cur: seq<string>, rest: seq<string>, gs: seq<seq<string>>)
    requires cur != [] && NonEmptyWords(rest)
    requires gs != [] && WellWrapped(w, gs)
    requires Concat(gs) == cur + rest
    requires |gs[0]| >= |cur| && gs[0][..|cur|] == cur
    ensures Greedy(w, done, cur, rest) == done + gs
    decreases |rest|
  {
    ConcatCons(gs);
    assert GroupOk(w, gs[0]);
    if rest == [] {
      assert gs[0] == cur;
      CancelPrefix(cur, Concat(gs[1..]), []);
      ConcatEmpty(gs[1..]);
      assert gs == [cur];
    } else {
      var x := rest[0];
      assert NonEmptyWords(rest[1..]);
      if |gs[0]| > |cur| {
        assert gs[0] == gs[0][..|cur|] + gs[0][|cur|..];
        assert gs[0][|cur|] == (cur + rest)[|cur|] == x;
        var c := cur + [x];
        assert gs[0][..|c|] == c;
        JoinSpaceSnoc(cur, x);
        JoinSpacePrefix(gs[0], |c|);
        FitsMonotone(w, |JoinSpace(c)|, |JoinSpace(gs[0])|);
        assert c + rest[1..] == cur + rest;
        GreedyUnique(w, done, c, rest[1..], gs);
      } else {
        assert gs[0] == cur;
        var t := gs[1..];
        CancelPrefix(cur, Concat(t), rest);
        WellWrappedTail(w, gs);
        assert t != [];
        ConcatCons(t);
        assert GroupOk(w, t[0]);
        assert t[0][0] == x;
        assert MustBreak(w, gs[0], gs[1]);
        assert [x] + rest[1..] == rest;
        assert t[0][..1] == [x];
        GreedyUnique(w, done + [cur], [x], rest[1..], t);
        assert done + [cur] + t == done + gs;
      }
    }
  }

  /**
   * The greedy wrap is the only well-wrapped partition of the words: any
   * grouping with the three properties of `WellWrapped` is `Groups`.
   */
  lemma GroupsUnique(w: Width, words: seq<string>, gs: seq<seq<string>>)
    requires NonEmptyWords(words)
    requires WellWrapped(w, gs) && Concat(gs) == words
    ensures gs == Groups(w, words)
  {
    assert forall i :: 0 <= i < |gs| ==> GroupOk(w, gs[i]);
    if words == [] {
      ConcatEmpty(gs);
    } else {
      assert gs != [];
      ConcatCons(gs);
      assert GroupOk(w, gs[0]);
      assert gs[0][..1] == [words[0]];
      assert [words[0]] + words[1..] == words;
      GreedyUnique(w, [], [words[0]], words[1..], gs);
      GreedyStep(w, [], [], words);
    }
  }

  /**
   * Stated on the drawn text: the lines of a prompt, joined by single
   * spaces, are its words joined by single spaces; each line holds the words
   * of its group; no line is empty; a line holding two or more words passes
   * the width test.
   */
  lemma LinesOfPrompt(w: Width, text: string)
    ensures JoinSpace(Lines(w, text)) == JoinSpace(Words(text))
    ensures forall i :: 0 <= i < |Lines(w, text)| ==> Words(Lines(w, text)[i]) == Groups(w, Words(text))[i]
    ensures forall i :: 0 <= i < |Lines(w, text)| ==> Lines(w, text)[i] != ""
    ensures forall i :: 0 <= i < |Lines(w, text)| && |Words(Lines(w, text)[i])| >= 2 ==>
              Fits(w, |Lines(w, text)[i]|)
  {
    var words := Words(text);
    var gs := Groups(w, words);
    GroupsCorrect(w, words);
    forall i | 0 <= i < |gs|
      ensures Words(JoinSpace(gs[i])) == gs[i]
    {
      ConcatPiece(gs, i);
      WordsOfJoinSpace(gs[i]);
    }
    forall i | 0 <= i < |gs|
      ensures JoinSpace(gs[i]) != ""
    {
      ConcatPiece(gs, i);
      assert IsWord(gs[i][0]);
      JoinSpaceLength(gs[i]);
      SumLengthsPositive(gs[i]);
    }
    JoinRenderIsJoinConcat(gs);
  }

  lemma SumLengthsPositive(ws: seq<string>)
    requires ws != [] && ws[0] != []
    ensures SumLengths(ws) >= 1
  {
  }

  /** Every element of a group is one of the words. */
  lemma {:induction false} ConcatPiece(gs: seq<seq<string>>, i: nat)
    requires i < |gs|
    ensures forall j :: 0 <= j < |gs[i]| ==> gs[i][j] in Concat(gs)
    decreases |gs|
  {
    ConcatCons(gs);
    if i > 0 {
      ConcatPiece(gs[1..], i - 1);
    }
  }

  lemma {:induction false} JoinRenderIsJoinConcat(gs: seq<seq<string>>)
    requires forall i :: 0 <= i < |gs| ==> gs[i] != []
    ensures JoinSpace(Render(gs)) == JoinSpace(Concat(gs))
    decreases |gs|
  {
    if gs != [] {
      var init, last := gs[..|gs| - 1], gs[|gs| - 1];
      JoinRenderIsJoinConcat(init);
      assert Render(gs) == Render(init) + [JoinSpace(last)];
      if init == [] {
        assert Render(gs) == [JoinSpace(last)];
        assert Concat(gs) == Concat(init) + last == last;
      } else {
        JoinSpaceSnoc(Render(init), JoinSpace(last));
        JoinSpaceAppend(Concat(init), last);
        ConcatNonEmpty(init);
      }
    }
  }

  lemma ConcatNonEmpty(gs: seq<seq<string>>)
    requires gs != [] && gs[|gs| - 1] != []
    ensures Concat(gs) != []
  {
  }

  lemma {:induction false} JoinSpaceAppend(a: seq<string>, b: seq<string>)
    requires a != [] && b != []
    ensures JoinSpace(a + b) == JoinSpace(a) + " " + JoinSpace(b)
    decreases |b|
  {
    if |b| == 1 {
      assert a + b == a + [b[0]];
      JoinSpaceSnoc(a, b[0]);
    } else {
      var b0 := b[..|b| - 1];
      JoinSpaceAppend(a, b0);
      assert a + b == (a + b0) + [b[|b| - 1]];
      assert b == b0 + [b[|b| - 1]];
      JoinSpaceSnoc(a + b0, b[|b| - 1]);
      JoinSpaceSnoc(b0, b[|b| - 1]);
    }
  }

  // ---------------------------------------------------------------- the two loop shapes

  /**
   * The loop of the scripts whose test is `len(current_line + " " + word) < W`
   * (the separator is counted even while the line is still empty).
   */
  method WrapPadded(text: string, w: Width) returns (lines: seq<string>)
    ensures lines == Lines(w, text)
  {
    var words := Words(text);
    lines := [];
    var current := "";
    ghost var done: seq<seq<string>> := [];
    ghost var cur: seq<string> := [];
    for i := 0 to |words|
      invariant Greedy(w, done, cur, words[i..]) == Groups(w, words)
      invariant lines == Render(done)
      invariant current == JoinSpace(cur)
      invariant i == 0 ==> cur == [] && done == []
      invariant i > 0 ==> cur != [] && current != ""
    {
      var word := words[i];
      ghost var rest := words[i..];
      assert rest[0] == word && rest[1..] == words[i + 1..];
      GreedyStep(w, done, cur, rest);
      ghost var before := Greedy(w, done, cur, rest);
      assert cur != [] ==> |current + " " + word| == |JoinSpace(cur)| + 1 + |word|;
      if Fits(w, |current + " " + word|) {
        current := current + (if current != "" then " " else "") + word;
        if cur != [] { JoinSpaceSnoc(cur, word); }
        cur := cur + [word];
      } else {
        if current != "" {
          lines := lines + [current];
          done := done + [cur];
        }
        current := word;
        cur := [word];
      }
      assert before == Greedy(w, done, cur, rest[1..]);
    }
    if current != "" {
      lines := lines + [current];
      done := done + [cur];
    }
  }

  /**
   * The loop of the script whose test is on
   * `current_line + (" " if current_line else "") + word`.
   */
  method WrapJoined(text: string, w: Width) returns (lines: seq<string>)
    ensures lines == Lines(w, text)
  {
    var words := Words(text);
    lines := [];
    var current := "";
    ghost var done: seq<seq<string>> := [];
    ghost var cur: seq<string> := [];
    for i := 0 to |words|
      invariant Greedy(w, done, cur, words[i..]) == Groups(w, words)
      invariant lines == Render(done)
      invariant current == JoinSpace(cur)
      invariant i == 0 ==> cur == [] && done == []
      invariant i > 0 ==> cur != [] && current != ""
    {
      var word := words[i];
      ghost var rest := words[i..];
      assert rest[0] == word && rest[1..] == words[i + 1..];
      GreedyStep(w, done, cur, rest);
      ghost var before := Greedy(w, done, cur, rest);
      assert cur != [] ==> |current + " " + word| == |JoinSpace(cur)| + 1 + |word|;
      var testLine := current + (if current != "" then " " else "") + word;
      if Fits(w, |testLine|) {
        current := testLine;
        if cur != [] { JoinSpaceSnoc(cur, word); }
        cur := cur + [word];
      } else {
        if current != "" {
          lines := lines + [current];
          done := done + [cur];
        }
        current := word;
        cur := [word];
      }
      assert before == Greedy(w, done, cur, rest[1..]);
    }
    if current != "" {
      lines := lines + [current];
      done := done + [cur];
    }
  }

  /** One step of the greedy walk, unfolded. */
  lemma GreedyStep(w: Width, done: seq<seq<string>>, cur: seq<string>, rest: seq<string>)
    requires rest != []
    ensures cur == [] ==> Greedy(w, done, cur, rest) == Greedy(w, done, [rest[0]], rest[1..])
    ensures cur != [] && Fits(w, |JoinSpace(cur)| + 1 + |rest[0]|) ==>
              Greedy(w, done, cur, rest) == Greedy(w, done, cur + [rest[0]], rest[1..])
    ensures cur != [] && !Fits(w, |JoinSpace(cur)| + 1 + |rest[0]|) ==>
              Greedy(w, done, cur, rest) == Greedy(w, done + [cur], [rest[0]], rest[1..])
  {
    if cur == [] {
      assert cur + [rest[0]] == [rest[0]];
    }
  }

  /** `lines[:k]`: the lines a script actually draws. */
  function Take(lines: seq<string>, k: nat): (r: seq<string>)
    ensures |r| == if |lines| < k then |lines| else k
    ensures r == lines[..|r|]
  {
    if |lines| <= k then lines else lines[..k]
  }
}

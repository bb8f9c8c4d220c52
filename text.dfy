/**
 * String vocabulary shared by every script of the text-to-image demos:
 * Python's `str.split()`, `" ".join`, `strip`, `lower`, `title`, `in`,
 * `str.split(sep)`, `str.replace(pat, "")` and `str(n)`, stated over
 * `seq<char>`.
 */
module Text {

  /** The characters Python's `str.isspace` accepts (and `str.split()` splits on). */
  predicate IsSpace(c: char) {
    || c == ' ' || c == '\t' || c == '\n' || c == '\r' || c == '\U{B}' || c == '\U{C}'
    || ('\U{1C}' <= c <= '\U{1F}') || c == '\U{85}' || c == '\U{A0}' || c == '\U{1680}'
    || ('\U{2000}' <= c <= '\U{200A}') || c == '\U{2028}' || c == '\U{2029}'
    || c == '\U{202F}' || c == '\U{205F}' || c == '\U{3000}'
  }

  /** A word as `str.split()` produces it: non-empty and free of whitespace. */
  predicate IsWord(w: string) {
    w != [] && forall i :: 0 <= i < |w| ==> !IsSpace(w[i])
  }

  /** True when `not s.strip()` holds in Python: `s` is empty or all whitespace. */
  predicate IsBlank(s: string) {
    forall i :: 0 <= i < |s| ==> IsSpace(s[i])
  }

  // ---------------------------------------------------------------- split()

  /** Length of the leading run of non-whitespace characters. */
  function TokenLength(s: string): (n: nat)
    ensures n <= |s|
    ensures forall i :: 0 <= i < n ==> !IsSpace(s[i])
    ensures n < |s| ==> IsSpace(s[n])
  {
    if s == [] || IsSpace(s[0]) then 0 else 1 + TokenLength(s[1..])
  }

  /** Python `s.split()`: the maximal runs of non-whitespace, in order. */
  function Words(s: string): (ws: seq<string>)
    ensures forall i :: 0 <= i < |ws| ==> IsWord(ws[i])
    decreases |s|
  {
    if s == [] then []
    else if IsSpace(s[0]) then Words(s[1..])
    else
      var n := TokenLength(s);
      [s[..n]] + Words(s[n..])
  }

  /** Python `sep.join(parts)`. */
  function JoinWith(sep: string, parts: seq<string>): string {
    if parts == [] then ""
    else if |parts| == 1 then parts[0]
    else parts[0] + sep + JoinWith(sep, parts[1..])
  }

  /** `" ".join(ws)`, the line a word group is drawn as. */
  function JoinSpace(ws: seq<string>): string {
    JoinWith(" ", ws)
  }

  lemma {:induction false} JoinSpaceSnoc(ws: seq<string>, x: string)
    requires ws != []
    ensures JoinSpace(ws + [x]) == JoinSpace(ws) + " " + x
    decreases |ws|
  {
    if |ws| == 1 {
      assert ws + [x] == [ws[0], x];
      assert [ws[0], x][1..] == [x];
      assert JoinWith(" ", [x]) == x;
      assert JoinWith(" ", [ws[0], x]) == ws[0] + " " + JoinWith(" ", [x]);
    } else {
      assert (ws + [x])[1..] == ws[1..] + [x];
      JoinSpaceSnoc(ws[1..], x);
    }
  }

  /** The length of a joined line: the words plus one separator between each pair. */
  lemma {:induction false} JoinSpaceLength(ws: seq<string>)
    requires ws != []
    ensures |JoinSpace(ws)| == SumLengths(ws) + |ws| - 1
    decreases |ws|
  {
    if |ws| > 1 {
      JoinSpaceLength(ws[1..]);
    }
  }

  function SumLengths(ws: seq<string>): nat {
    if ws == [] then 0 else |ws[0]| + SumLengths(ws[1..])
  }

  lemma {:induction false} TokenLengthOfWordThenSpace(w: string, t: string)
    requires IsWord(w)
    requires t == [] || IsSpace(t[0])
    ensures TokenLength(w + t) == |w|
    decreases |w|
  {
    if |w| > 1 {
      assert (w + t)[1..] == w[1..] + t;
      TokenLengthOfWordThenSpace(w[1..], t);
    } else {
      assert (w + t)[1..] == t;
    }
  }

  /** `split()` undoes `" ".join` on words: the round trip of the prompt normaliser. */
  lemma {:induction false} WordsOfJoinSpace(ws: seq<string>)
    requires forall i :: 0 <= i < |ws| ==> IsWord(ws[i])
    ensures Words(JoinSpace(ws)) == ws
    decreases |ws|
  {
    if ws == [] {
    } else if |ws| == 1 {
      var w := ws[0];
      TokenLengthOfWordThenSpace(w, "");
      assert w + "" == w;
      assert w[|w|..] == [];
      assert w[..|w|] == w;
    } else {
      var w, t := ws[0], JoinSpace(ws[1..]);
      var s := w + " " + t;
      assert JoinSpace(ws) == s;
      TokenLengthOfWordThenSpace(w, " " + t);
      assert s == w + (" " + t);
      assert s[..|w|] == w;
      assert s[|w|..] == " " + t;
      assert (" " + t)[1..] == t;
      WordsOfJoinSpace(ws[1..]);
    }
  }

  /** `split()` ignores one trailing whitespace character. */
  lemma WordsDropTrailingSpace(s: string)
    requires s != [] && IsSpace(s[|s| - 1])
    ensures Words(s[..|s| - 1]) == Words(s)
  {
    assert s == s[..|s| - 1] + [s[|s| - 1]];
    WordsSnocSpace(s[..|s| - 1], s[|s| - 1]);
  }

  /** Appending one whitespace character does not change the words. */
  lemma {:induction false} WordsSnocSpace(p: string, c: char)
    requires IsSpace(c)
    ensures Words(p + [c]) == Words(p)
    decreases |p|
  {
    if p == [] {
      assert Words(p + [c]) == Words([c][1..]);
    } else if IsSpace(p[0]) {
      WordsSnocSpace(p[1..], c);
      SkipSpaceSnoc(p, c);
    } else {
      var n := WordSnoc(p, c);
      WordsSnocSpace(p[n..], c);
    }
  }

  /** A leading whitespace character is skipped with or without the appended one. */
  lemma SkipSpaceSnoc(p: string, c: char)
    requires p != [] && IsSpace(p[0])
    ensures Words(p + [c]) == Words(p[1..] + [c]) && Words(p) == Words(p[1..])
  {
    assert (p + [c])[1..] == p[1..] + [c];
  }

  /** A leading word is the same word with or without an appended whitespace character. */
  lemma WordSnoc(p: string, c: char) returns (n: nat)
    requires p != [] && !IsSpace(p[0]) && IsSpace(c)
    ensures 0 < n <= |p|
    ensures Words(p + [c]) == [p[..n]] + Words(p[n..] + [c])
    ensures Words(p) == [p[..n]] + Words(p[n..])
  {
    n := TokenLength(p);
    TokenLengthSnocSpace(p, c);
    assert (p + [c])[..n] == p[..n];
    assert (p + [c])[n..] == p[n..] + [c];
  }

  lemma {:induction false} TokenLengthSnocSpace(p: string, c: char)
    requires IsSpace(c)
    ensures TokenLength(p + [c]) == TokenLength(p)
    decreases |p|
  {
    if p != [] && !IsSpace(p[0]) {
      assert (p + [c])[1..] == p[1..] + [c];
      TokenLengthSnocSpace(p[1..], c);
    }
  }

  /**
   * Whitespace-normalised text: every whitespace character is a single
   * inner space, never first, never last, never doubled.
   */
  predicate Normalized(s: string) {
    forall i :: 0 <= i < |s| && IsSpace(s[i]) ==> s[i] == ' ' && 0 < i < |s| - 1 && !IsSpace(s[i + 1])
  }

  /** `" ".join` of words is normalised and starts with the first word. */
  lemma {:induction false} JoinSpaceNormalized(ws: seq<string>)
    requires forall i :: 0 <= i < |ws| ==> IsWord(ws[i])
    ensures Normalized(JoinSpace(ws))
    ensures ws != [] ==> ws[0] != [] && JoinSpace(ws) != [] && JoinSpace(ws)[0] == ws[0][0]
    decreases |ws|
  {
    if |ws| >= 2 {
      var w := ws[0];
      var rest := JoinSpace(ws[1..]);
      JoinSpaceNormalized(ws[1..]);
      var s := JoinSpace(ws);
      assert s == w + " " + rest;
      forall i | 0 <= i < |s|
        ensures IsSpace(s[i]) ==> s[i] == ' ' && 0 < i < |s| - 1 && !IsSpace(s[i + 1])
      {
        if i < |w| {
          assert s[i] == w[i];
        } else if i == |w| {
          assert s[i + 1] == rest[0] == ws[1][0];
        } else {
          assert s[i] == rest[i - |w| - 1];
          if i < |s| - 1 {
            assert s[i + 1] == rest[i - |w|];
          }
        }
      }
    }
  }

  /** Normalised text is recovered by splitting it and joining the words with single spaces. */
  lemma {:induction false} JoinSpaceWordsOfNormalized(s: string)
    requires Normalized(s)
    ensures JoinSpace(Words(s)) == s
    decreases |s|
  {
    if s != [] {
      var n := TokenLength(s);
      if n == |s| {
        assert s[n..] == [];
        assert s[..n] == s;
      } else {
        var t := NormalizedAfterWord(s, n);
        JoinSpaceWordsOfNormalized(t);
        WordThenNormalized(s, n, t);
      }
    }
  }

  /** In normalised text, what follows the first word and its space is normalised and does not start with a space. */
  lemma NormalizedAfterWord(s: string, n: nat) returns (t: string)
    requires Normalized(s) && s != [] && n == TokenLength(s) < |s|
    ensures 0 < n && s[n] == ' ' && t == s[n + 1..] && Normalized(t)
    ensures Words(s) == [s[..n]] + Words(t) && Words(t) != []
  {
    t := s[n + 1..];
    assert s[n..][1..] == t;
    forall j | 0 <= j < |t|
      ensures IsSpace(t[j]) ==> t[j] == ' ' && 0 < j < |t| - 1 && !IsSpace(t[j + 1])
    {
      assert t[j] == s[n + 1 + j];
      if j + 1 < |t| {
        assert t[j + 1] == s[n + 2 + j];
      }
    }
    assert t != [] && !IsSpace(t[0]);
    assert Words(t) == [t[..TokenLength(t)]] + Words(t[TokenLength(t)..]);
  }

  /** Joining the first word back onto the rest of the text with one space gives the text. */
  lemma WordThenNormalized(s: string, n: nat, t: string)
    requires 0 < n < |s| && s[n] == ' ' && t == s[n + 1..]
    requires Words(s) == [s[..n]] + Words(t) && Words(t) != [] && JoinSpace(Words(t)) == t
    ensures JoinSpace(Words(s)) == s
  {
    var ws := Words(t);
    assert ([s[..n]] + ws)[1..] == ws;
    assert JoinSpace(Words(s)) == s[..n] + " " + JoinSpace(ws);
    assert s == s[..n] + [s[n]] + t;
  }

  /** Every character of a word of `s` is a character of `s`. */
  lemma {:induction false} WordsChars(s: string)
    ensures forall w, c :: w in Words(s) && c in w ==> c in s
    decreases |s|
  {
    if s != [] {
      if IsSpace(s[0]) {
        WordsChars(s[1..]);
      } else {
        var n := TokenLength(s);
        WordsChars(s[n..]);
        assert Words(s) == [s[..n]] + Words(s[n..]);
      }
    }
  }

  // ---------------------------------------------------------------- strip()

  /** Python `s.lstrip()`. */
  function LStrip(s: string): string {
    if s != [] && IsSpace(s[0]) then LStrip(s[1..]) else s
  }

  /** Python `s.rstrip()`. */
  function RStrip(s: string): (r: string)
    ensures |r| <= |s| && r == s[..|r|]
    ensures r == [] || !IsSpace(r[|r| - 1])
    ensures forall i :: |r| <= i < |s| ==> IsSpace(s[i])
  {
    if s != [] && IsSpace(s[|s| - 1]) then RStrip(s[..|s| - 1]) else s
  }

  /** Python `s.strip()`. */
  function Strip(s: string): string {
    RStrip(LStrip(s))
  }

  /** Stripping before splitting changes nothing: `s.strip().split() == s.split()`. */
  lemma {:induction false} WordsOfStrip(s: string)
    ensures Words(Strip(s)) == Words(s)
  {
    WordsOfLStrip(s);
    WordsOfRStrip(LStrip(s));
  }

  lemma {:induction false} WordsOfLStrip(s: string)
    ensures Words(LStrip(s)) == Words(s)
    decreases |s|
  {
    if s != [] && IsSpace(s[0]) {
      WordsOfLStrip(s[1..]);
    }
  }

  lemma {:induction false} WordsOfRStrip(s: string)
    ensures Words(RStrip(s)) == Words(s)
    decreases |s|
  {
    if s != [] && IsSpace(s[|s| - 1]) {
      WordsDropTrailingSpace(s);
      WordsOfRStrip(s[..|s| - 1]);
    }
  }

  /** A string with no words is exactly a blank one. */
  lemma {:induction false} WordsEmptyIffBlank(s: string)
    ensures Words(s) == [] <==> IsBlank(s)
    decreases |s|
  {
    if s != [] {
      WordsEmptyIffBlank(s[1..]);
      if IsSpace(s[0]) {
        assert IsBlank(s) <==> IsBlank(s[1..]) by {
          if IsBlank(s[1..]) {
            forall i | 0 <= i < |s| ensures IsSpace(s[i]) {
              if i > 0 { assert s[i] == s[1..][i - 1]; }
            }
          }
        }
      }
    }
  }

  // ---------------------------------------------------------------- case

  predicate IsUpper(c: char) { 'A' <= c <= 'Z' }
  predicate IsLower(c: char) { 'a' <= c <= 'z' }
  /** A cased character in the ASCII reading of `str.title`. */
  predicate IsLetter(c: char) { IsUpper(c) || IsLower(c) }
  predicate IsDigit(c: char) { '0' <= c <= '9' }

  function LowerChar(c: char): char {
    if IsUpper(c) then (c as int + 32) as char else c
  }

  function UpperChar(c: char): char {
    if IsLower(c) then (c as int - 32) as char else c
  }

  /** Python `s.lower()` on ASCII letters. */
  function Lower(s: string): (r: string)
    ensures |r| == |s|
    ensures forall i :: 0 <= i < |s| ==> r[i] == LowerChar(s[i])
  {
    if s == [] then [] else [LowerChar(s[0])] + Lower(s[1..])
  }

  /** Python `s.title()` on ASCII: a letter is upper-cased when it follows a non-letter. */
  function Title(s: string): (r: string)
    ensures |r| == |s|
  {
    TitleAfter(false, s)
  }

  function TitleAfter(prevCased: bool, s: string): (r: string)
    ensures |r| == |s|
    ensures forall i :: 0 <= i < |s| ==> (IsLetter(s[i]) <==> IsLetter(r[i]))
    ensures forall i :: 0 <= i < |s| && !IsLetter(s[i]) ==> r[i] == s[i]
    decreases |s|
  {
    if s == [] then []
    else
      var c := if !IsLetter(s[0]) then s[0] else if prevCased then LowerChar(s[0]) else UpperChar(s[0]);
      [c] + TitleAfter(IsLetter(s[0]), s[1..])
  }

  // ---------------------------------------------------------------- in

  /** Python `sub in s`. */
  predicate Contains(s: string, sub: string) {
    exists i | 0 <= i <= |s| - |sub| :: OccursAt(s, sub, i)
  }

  /** `sub` occurs in `s` starting at index `i`. */
  predicate OccursAt(s: string, sub: string, i: int) {
    0 <= i <= |s| - |sub| && s[i..i + |sub|] == sub
  }

  // ---------------------------------------------------------------- split(sep), replace

  /** Python `s.split(c)`: always at least one part; parts never contain `c`. */
  function SplitOn(s: string, c: char): (parts: seq<string>)
    ensures |parts| >= 1
    ensures forall i :: 0 <= i < |parts| ==> c !in parts[i]
  {
    if s == [] then [""]
    else
      var rest := SplitOn(s[1..], c);
      if s[0] == c then [""] + rest else [[s[0]] + rest[0]] + rest[1..]
  }

  lemma {:induction false} SplitOnFree(s: string, c: char)
    requires c !in s
    ensures SplitOn(s, c) == [s]
    decreases |s|
  {
    if s != [] {
      SplitOnFree(s[1..], c);
      assert [s[0]] + s[1..] == s;
    }
  }

  /** Splitting `a + [c] + b` where `a` is free of `c` peels `a` off as the first part. */
  lemma {:induction false} SplitOnCons(a: string, c: char, b: string)
    requires c !in a
    ensures SplitOn(a + [c] + b, c) == [a] + SplitOn(b, c)
    decreases |a|
  {
    var s := a + [c] + b;
    if a == [] {
      assert s[1..] == b;
    } else {
      assert s[1..] == a[1..] + [c] + b;
      SplitOnCons(a[1..], c, b);
      assert [a[0]] + a[1..] == a;
    }
  }

  /** Python `s.replace(pat, "")`: removes every left-to-right, non-overlapping occurrence. */
  function RemoveAll(s: string, pat: string): string
    requires pat != []
    decreases |s|
  {
    if |s| >= |pat| && s[..|pat|] == pat then RemoveAll(s[|pat|..], pat)
    else if s == [] then []
    else [s[0]] + RemoveAll(s[1..], pat)
  }

  /** Python `s.replace(a, b)` for single characters. */
  function ReplaceChar(s: string, a: char, b: char): (r: string)
    ensures |r| == |s|
    ensures forall i :: 0 <= i < |s| ==> r[i] == (if s[i] == a then b else s[i])
  {
    if s == [] then [] else [if s[0] == a then b else s[0]] + ReplaceChar(s[1..], a, b)
  }

  // ---------------------------------------------------------------- str(n)

  function DigitChar(d: nat): char
    requires d < 10
  {
    ('0' as int + d) as char
  }

  /** Python `str(n)` for a natural number. */
  function NatToString(n: nat): (s: string)
    ensures s != []
    ensures forall i :: 0 <= i < |s| ==> IsDigit(s[i])
  {
    if n < 10 then [DigitChar(n)] else NatToString(n / 10) + [DigitChar(n % 10)]
  }

  /** Python `int(s)` on a string of decimal digits. */
  function ParseNat(s: string): nat
    requires AllDigits(s)
  {
    if s == [] then 0 else 10 * ParseNat(s[..|s| - 1]) + (s[|s| - 1] as int - '0' as int)
  }

  /** `int(str(n)) == n`. */
  lemma {:induction false} ParseNatOfNatToString(n: nat)
    ensures AllDigits(NatToString(n)) && ParseNat(NatToString(n)) == n
    decreases n
  {
    var s := NatToString(n);
    if n >= 10 {
      ParseNatOfNatToString(n / 10);
      assert s[..|s| - 1] == NatToString(n / 10);
    }
  }

  /** Distinct numbers print differently. */
  lemma NatToStringInjective(a: nat, b: nat)
    requires NatToString(a) == NatToString(b)
    ensures a == b
  {
    ParseNatOfNatToString(a);
    ParseNatOfNatToString(b);
  }

  predicate AllDigits(s: string) {
    forall i :: 0 <= i < |s| ==> IsDigit(s[i])
  }

  // ---------------------------------------------------------------- facts used by the file-name parser

  /** Splitting at a separator occurrence splits the two sides independently. */
  lemma {:induction false} SplitOnAppend(a: string, c: char, b: string)
    ensures SplitOn(a + [c] + b, c) == SplitOn(a, c) + SplitOn(b, c)
    decreases |a|
  {
    if a == [] {
      assert a + [c] + b == [c] + b;
      assert ([c] + b)[1..] == b;
    } else {
      var s := a + [c] + b;
      assert s[0] == a[0] && s[1..] == a[1..] + [c] + b;
      SplitOnAppend(a[1..], c, b);
      var x, y := SplitOn(a[1..], c), SplitOn(b, c);
      assert SplitOn(s, c) == if a[0] == c then [""] + (x + y) else [[a[0]] + (x + y)[0]] + (x + y)[1..];
      assert SplitOn(a, c) == if a[0] == c then [""] + x else [[a[0]] + x[0]] + x[1..];
      PartsCons(a[0], c, x, y);
    }
  }

  /** Putting a character in front of the parts of `x + y`, where `x` holds at least one part. */
  lemma PartsCons(d: char, c: char, x: seq<string>, y: seq<string>)
    requires |x| >= 1
    ensures (if d == c then [""] + (x + y) else [[d] + (x + y)[0]] + (x + y)[1..])
         == (if d == c then [""] + x else [[d] + x[0]] + x[1..]) + y
  {
    if d != c {
      assert (x + y)[0] == x[0];
      assert (x + y)[1..] == x[1..] + y;
    }
  }

  /** Replacing `a` by a fresh `c` and splitting on `c` is splitting on `a`. */
  lemma {:induction false} SplitOnReplace(s: string, a: char, c: char)
    requires c !in s
    ensures SplitOn(ReplaceChar(s, a, c), c) == SplitOn(s, a)
    decreases |s|
  {
    if s != [] {
      var r := ReplaceChar(s, a, c);
      assert r[1..] == ReplaceChar(s[1..], a, c);
      SplitOnReplace(s[1..], a, c);
    }
  }

  /** `sep.join(s.split(sep)) == s` for a one-character separator. */
  lemma {:induction false} JoinSplitOn(s: string, c: char)
    ensures JoinWith([c], SplitOn(s, c)) == s
    decreases |s|
  {
    if s != [] {
      var rest := SplitOn(s[1..], c);
      JoinSplitOn(s[1..], c);
      if s[0] == c {
        assert JoinWith([c], [""] + rest) == "" + [c] + JoinWith([c], rest);
      } else if |rest| == 1 {
        assert JoinWith([c], [[s[0]] + rest[0]] + rest[1..]) == [s[0]] + rest[0];
      } else {
        assert JoinWith([c], rest) == rest[0] + [c] + JoinWith([c], rest[1..]);
        assert JoinWith([c], [[s[0]] + rest[0]] + rest[1..]) == [s[0]] + rest[0] + [c] + JoinWith([c], rest[1..]);
      }
    }
  }

  /** Removing a pattern that can only start at the end strips that suffix. */
  lemma {:induction false} RemoveAllSuffix(s: string, pat: string)
    requires pat != [] && pat[0] !in s
    ensures RemoveAll(s + pat, pat) == s
    decreases |s|
  {
    if s == [] {
      assert s + pat == pat && pat[|pat|..] == [];
    } else {
      var t := s + pat;
      assert t[0] == s[0] != pat[0];
      assert t[1..] == s[1..] + pat;
      RemoveAllSuffix(s[1..], pat);
      assert [s[0]] + s[1..] == s;
    }
  }

  /** Title-casing leaves every non-letter where it was. */
  lemma TitleKeepsNonLetters(s: string, x: char)
    requires !IsLetter(x)
    ensures x in Title(s) <==> x in s
  {
    var r := Title(s);
    if x in r {
      var i :| 0 <= i < |r| && r[i] == x;
      assert s[i] == x;
    }
    if x in s {
      var i :| 0 <= i < |s| && s[i] == x;
      assert r[i] == x;
    }
  }

  /** Removing a pattern never introduces a character. */
  lemma {:induction false} RemoveAllChars(s: string, pat: string, x: char)
    requires pat != [] && x !in s
    ensures x !in RemoveAll(s, pat)
    decreases |s|
  {
    if |s| >= |pat| && s[..|pat|] == pat {
      RemoveAllChars(s[|pat|..], pat, x);
    } else if s != [] {
      RemoveAllChars(s[1..], pat, x);
    }
  }

  /** Replacing a character that does not occur changes nothing. */
  lemma ReplaceCharAbsent(s: string, a: char, b: char)
    requires a !in s
    ensures ReplaceChar(s, a, b) == s
  {
    var r := ReplaceChar(s, a, b);
    assert forall i :: 0 <= i < |s| ==> r[i] == s[i];
  }
}

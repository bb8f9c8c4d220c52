/**
 * The first-match keyword classifier of the demo front-ends: an ordered
 * list of keyword groups, each tested with `any(word in prompt_lower ...)`,
 * where the first group with a keyword occurring in the prompt wins and no
 * match falls through to a fixed "creative" answer.
 */
module Classifier {
  import opened Text

  /** Some keyword of the group occurs in `text`. */
  predicate Matches(text: string, group: seq<string>) {
    exists j | 0 <= j < |group| :: Contains(text, group[j])
  }

  /**
   * The index of the first group that matches, or `|groups|` (the fallback
   * branch) when none does.
   */
  function Classify(text: string, groups: seq<seq<string>>): (k: nat)
    ensures k <= |groups|
    ensures k < |groups| ==> Matches(text, groups[k])
    ensures forall j :: 0 <= j < k ==> !Matches(text, groups[j])
  {
    ClassifyFrom(text, groups, 0)
  }

  function ClassifyFrom(text: string, groups: seq<seq<string>>, start: nat): (k: nat)
    requires start <= |groups|
    ensures start <= k <= |groups|
    ensures k < |groups| ==> Matches(text, groups[k])
    ensures forall j :: start <= j < k ==> !Matches(text, groups[j])
    decreases |groups| - start
  {
    if start == |groups| then start
    else if Matches(text, groups[start]) then start
    else ClassifyFrom(text, groups, start + 1)
  }

  /**
   * The first-match answer is the only one: an index that matches with no
   * earlier match, or the fallback when nothing matches, is `Classify`.
   */
  lemma ClassifyUnique(text: string, groups: seq<seq<string>>, k: nat)
    requires k <= |groups|
    requires k < |groups| ==> Matches(text, groups[k])
    requires forall j :: 0 <= j < k ==> !Matches(text, groups[j])
    ensures k == Classify(text, groups)
  {
  }

  /** The fallback is taken exactly when no group matches. */
  lemma ClassifyFallback(text: string, groups: seq<seq<string>>)
    ensures Classify(text, groups) == |groups| <==> forall j :: 0 <= j < |groups| ==> !Matches(text, groups[j])
  {
  }

  /**
   * Two classifiers that share their leading groups agree whenever the
   * answer lies among those groups: this is why a narration built from the
   * same list names the same subject as the drawing.
   */
  lemma ClassifyPrefix(text: string, groups: seq<seq<string>>, more: seq<seq<string>>)
    requires Classify(text, groups) < |groups|
    ensures Classify(text, groups + more) == Classify(text, groups)
  {
    var k := Classify(text, groups);
    assert (groups + more)[k] == groups[k];
    assert forall j :: 0 <= j < k ==> (groups + more)[j] == groups[j];
    ClassifyUnique(text, groups + more, k);
  }

  /** A keyword holding a character absent from `text` cannot occur in it. */
  lemma AbsentChar(text: string, sub: string, c: char)
    requires c in sub && c !in text
    ensures !Contains(text, sub)
  {
    var j :| 0 <= j < |sub| && sub[j] == c;
    forall i | 0 <= i <= |text| - |sub|
      ensures !OccursAt(text, sub, i)
    {
      assert text[i..i + |sub|][j] == text[i + j] != c;
    }
  }

  /** A keyword found at a known position occurs in `text`. */
  lemma FoundAt(text: string, sub: string, i: nat)
    requires i + |sub| <= |text| && text[i..i + |sub|] == sub
    ensures Contains(text, sub)
  {
    assert OccursAt(text, sub, i);
  }

  /** A one-keyword group matches exactly when its keyword occurs. */
  lemma MatchesSingle(text: string, w: string)
    ensures Matches(text, [w]) <==> Contains(text, w)
  {
    if Contains(text, w) {
      assert [w][0] == w;
    }
  }

  /** A two-keyword group matches exactly when either keyword occurs. */
  lemma MatchesPair(text: string, v: string, w: string)
    ensures Matches(text, [v, w]) <==> Contains(text, v) || Contains(text, w)
  {
    if Contains(text, v) {
      assert [v, w][0] == v;
    }
    if Contains(text, w) {
      assert [v, w][1] == w;
    }
  }
}

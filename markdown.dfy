/**
 * Heading pre-processing before markdown rendering (app/components/Message.tsx,
 * `preprocessMarkdown`): `text.replace(/([^\n])(#{1,6}\s)/g, '$1\n\n$2')`.
 * The global replace scans left to right; at each index it tries the pattern
 * and, on a match, copies the match with "\n\n" after its first character and
 * continues after the match, otherwise copies one character.
 */
module Markdown {

  import opened Strings

  /** The length of the run of '#' that starts at index `j`. */
  function HashRun(s: string, j: nat): (n: nat)
    requires j <= |s|
    ensures j + n <= |s|
    ensures forall k :: j <= k < j + n ==> s[k] == '#'
    ensures j + n == |s| || s[j + n] != '#'
    decreases |s| - j
  {
    if j < |s| && s[j] == '#' then 1 + HashRun(s, j + 1) else 0
  }

  /** `#{1,6}\s` matches at `j`. A run longer than six cannot match: backing off
      leaves a '#' where the white space must be. */
  predicate MarkerAt(s: string, j: nat)
    requires j <= |s|
  {
    var n := HashRun(s, j);
    1 <= n <= 6 && j + n < |s| && IsJsSpace(s[j + n])
  }

  /** The whole pattern matches at `i`: a non-newline character, then a marker. */
  predicate MatchAt(s: string, i: nat)
    requires i < |s|
  {
    s[i] != '\n' && MarkerAt(s, i + 1)
  }

  /** The index just after a match that starts at `i`. */
  function MatchEnd(s: string, i: nat): (e: nat)
    requires i < |s| && MatchAt(s, i)
    ensures i + 3 <= e <= |s|
  {
    i + 1 + HashRun(s, i + 1) + 1
  }

  /** The replacement applied to `s[i..]`, scanning from index `i`. */
  function ReplaceFrom(s: string, i: nat): string
    requires i <= |s|
    decreases |s| - i
  {
    if i == |s| then ""
    else if MatchAt(s, i) then
      var e := MatchEnd(s, i);
      [s[i]] + "\n\n" + s[i + 1..e] + ReplaceFrom(s, e)
    else [s[i]] + ReplaceFrom(s, i + 1)
  }

  /** `preprocessMarkdown`: one left-to-right pass of the replacement; what it
      does is stated by the lemmas below. */
  function PreprocessMarkdown(text: string): string {
    ReplaceFrom(text, 0)
  }

  // ---------------------------------------------------------------------------
  // The same transformation described as insertions at positions.

  /** `ps` is ascending, starts at `lo` or later and ends at `hi` or earlier. */
  predicate Within(ps: seq<nat>, lo: nat, hi: nat)
    decreases |ps|
  {
    ps == [] || (lo <= ps[0] <= hi && Within(ps[1..], ps[0], hi))
  }

  lemma {:induction false} WithinWeaken(ps: seq<nat>, lo: nat, lo': nat, hi: nat)
    requires lo' <= lo && Within(ps, lo, hi)
    ensures Within(ps, lo', hi)
  {
  }

  /** The positions, in input coordinates, before which the scan from `i`
      inserts "\n\n": one just after the first character of each match. */
  function InsertionsFrom(s: string, i: nat): (ps: seq<nat>)
    requires i <= |s|
    ensures Within(ps, i, |s|)
    decreases |s| - i
  {
    if i == |s| then []
    else if MatchAt(s, i) then
      var e := MatchEnd(s, i);
      var rest := InsertionsFrom(s, e);
      WithinWeaken(rest, e, i + 1, |s|);
      assert ([i + 1] + rest)[1..] == rest;
      [i + 1] + rest
    else
      var rest := InsertionsFrom(s, i + 1);
      WithinWeaken(rest, i + 1, i, |s|);
      rest
  }

  /** `s[i..]` with "\n\n" inserted before each of the positions `ps`. */
  function InsertBreaks(s: string, ps: seq<nat>, i: nat): string
    requires i <= |s| && Within(ps, i, |s|)
    decreases |ps|
  {
    if ps == [] then s[i..] else s[i..ps[0]] + "\n\n" + InsertBreaks(s, ps[1..], ps[0])
  }

  lemma {:induction false} InsertBreaksSkip(s: string, ps: seq<nat>, j: nat, k: nat)
    requires j <= k <= |s| && Within(ps, k, |s|)
    ensures InsertBreaks(s, ps, j) == s[j..k] + InsertBreaks(s, ps, k)
  {
    if ps == [] {
      assert s[j..] == s[j..k] + s[k..];
    } else {
      assert s[j..ps[0]] == s[j..k] + s[k..ps[0]];
    }
  }

  /** `p` lies after index `i` and just after the first character of a match. */
  predicate AfterMatchStart(s: string, i: nat, p: nat) {
    i < p < |s| && MatchAt(s, p - 1)
  }

  /** Every insertion point lies after a match's first character. */
  lemma {:induction false} InsertionsAreMatches(s: string, i: nat)
    requires i <= |s|
    ensures forall k :: 0 <= k < |InsertionsFrom(s, i)| ==> AfterMatchStart(s, i, InsertionsFrom(s, i)[k])
    decreases |s| - i
  {
    var ps := InsertionsFrom(s, i);
    if i < |s| {
      if MatchAt(s, i) {
        var e := MatchEnd(s, i);
        var rest := InsertionsFrom(s, e);
        InsertionsAreMatches(s, e);
        InsertionsFromAtMatch(s, i);
        forall k | 0 <= k < |ps|
          ensures AfterMatchStart(s, i, ps[k])
        {
          if k > 0 {
            assert ps[k] == rest[k - 1];
            assert AfterMatchStart(s, e, rest[k - 1]);
          }
        }
      } else {
        InsertionsAreMatches(s, i + 1);
        InsertionsFromNoMatch(s, i);
        forall k | 0 <= k < |ps|
          ensures AfterMatchStart(s, i, ps[k])
        {
          assert AfterMatchStart(s, i + 1, ps[k]);
        }
      }
    }
  }

  lemma InsertionsFromNoMatch(s: string, i: nat)
    requires i < |s| && !MatchAt(s, i)
    ensures InsertionsFrom(s, i) == InsertionsFrom(s, i + 1)
  {
  }

  lemma InsertBreaksCons(s: string, p: nat, q: seq<nat>, i: nat)
    requires i <= p <= |s| && Within(q, p, |s|)
    ensures Within([p] + q, i, |s|)
    ensures InsertBreaks(s, [p] + q, i) == s[i..p] + "\n\n" + InsertBreaks(s, q, p)
  {
    assert ([p] + q)[1..] == q;
  }

  lemma ReplaceFromAtMatch(s: string, i: nat)
    requires i < |s| && MatchAt(s, i)
    ensures ReplaceFrom(s, i) == [s[i]] + "\n\n" + s[i + 1..MatchEnd(s, i)] + ReplaceFrom(s, MatchEnd(s, i))
  {
  }

  lemma InsertionsFromAtMatch(s: string, i: nat)
    requires i < |s| && MatchAt(s, i)
    ensures InsertionsFrom(s, i) == [i + 1] + InsertionsFrom(s, MatchEnd(s, i))
  {
  }

  /** Copying `s[i]`, a break and `s[i + 1..e]` before the insertions from `e`
      is inserting a break at `i + 1` first. */
  lemma InsertBreakFirst(s: string, i: nat, e: nat, q: seq<nat>)
    requires i + 1 <= e <= |s| && Within(q, e, |s|)
    ensures Within([i + 1] + q, i, |s|)
    ensures [s[i]] + "\n\n" + s[i + 1..e] + InsertBreaks(s, q, e) == InsertBreaks(s, [i + 1] + q, i)
  {
    WithinWeaken(q, e, i + 1, |s|);
    InsertBreaksCons(s, i + 1, q, i);
    var x := InsertBreaks(s, q, e);
    var y := InsertBreaks(s, q, i + 1);
    assert y == s[i + 1..e] + x by {
      InsertBreaksSkip(s, q, i + 1, e);
    }
    var head: string := [s[i]] + "\n\n";
    assert InsertBreaks(s, [i + 1] + q, i) == head + y by {
      assert s[i..i + 1] == [s[i]];
    }
    assert head + (s[i + 1..e] + x) == head + s[i + 1..e] + x;
  }

  lemma ReplaceIsInsertionAtMatch(s: string, i: nat)
    requires i < |s| && MatchAt(s, i)
    requires ReplaceFrom(s, MatchEnd(s, i)) == InsertBreaks(s, InsertionsFrom(s, MatchEnd(s, i)), MatchEnd(s, i))
    ensures ReplaceFrom(s, i) == InsertBreaks(s, InsertionsFrom(s, i), i)
  {
    ReplaceFromAtMatch(s, i);
    InsertionsFromAtMatch(s, i);
    InsertBreakFirst(s, i, MatchEnd(s, i), InsertionsFrom(s, MatchEnd(s, i)));
  }

  lemma ReplaceIsInsertionNoMatch(s: string, i: nat)
    requires i < |s| && !MatchAt(s, i)
    requires ReplaceFrom(s, i + 1) == InsertBreaks(s, InsertionsFrom(s, i + 1), i + 1)
    ensures ReplaceFrom(s, i) == InsertBreaks(s, InsertionsFrom(s, i), i)
  {
    var q := InsertionsFrom(s, i + 1);
    assert InsertionsFrom(s, i) == q;
    InsertBreaksSkip(s, q, i, i + 1);
    assert s[i..i + 1] == [s[i]];
  }

  lemma {:induction false} ReplaceIsInsertion(s: string, i: nat)
    requires i <= |s|
    ensures ReplaceFrom(s, i) == InsertBreaks(s, InsertionsFrom(s, i), i)
    decreases |s| - i
  {
    if i < |s| {
      if MatchAt(s, i) {
        ReplaceIsInsertion(s, MatchEnd(s, i));
        ReplaceIsInsertionAtMatch(s, i);
      } else {
        ReplaceIsInsertion(s, i + 1);
        ReplaceIsInsertionNoMatch(s, i);
      }
    }
  }

  /** A break at `p` follows a non-newline character and precedes 1 to 6 '#'
      and a white-space character. */
  predicate BreakBefore(text: string, p: nat) {
    1 <= p < |text| && text[p - 1] != '\n'
    && 1 <= HashRun(text, p) <= 6 && p + HashRun(text, p) < |text|
    && IsJsSpace(text[p + HashRun(text, p)])
  }

  /** The output is the input with "\n\n" inserted at increasing positions, each
      just after a non-newline character that is followed by 1 to 6 '#' and white
      space; nothing is inserted at the very start. */
  lemma PreprocessInsertsBreaks(text: string)
    ensures var ps := InsertionsFrom(text, 0);
            && PreprocessMarkdown(text) == InsertBreaks(text, ps, 0)
            && (forall k :: 0 <= k < |ps| ==> BreakBefore(text, ps[k]))
  {
    ReplaceIsInsertion(text, 0);
    InsertionsAreMatches(text, 0);
    var ps := InsertionsFrom(text, 0);
    forall k | 0 <= k < |ps|
      ensures BreakBefore(text, ps[k])
    {
      assert MatchAt(text, ps[k] - 1);
    }
  }

  /** The scan misses no match it reaches: the first match at or after `i` gets
      the first insertion, and the scan resumes just after that match. */
  lemma {:induction false} FirstMatchIsBroken(s: string, i: nat, j: nat)
    requires i <= j < |s| && MatchAt(s, j)
    requires forall k :: i <= k < j ==> !MatchAt(s, k)
    ensures InsertionsFrom(s, i) == [j + 1] + InsertionsFrom(s, MatchEnd(s, j))
    decreases j - i
  {
    if i == j {
      InsertionsFromAtMatch(s, i);
    } else {
      InsertionsFromNoMatch(s, i);
      FirstMatchIsBroken(s, i + 1, j);
    }
  }

  /** Without a match from `i` on, nothing is inserted. */
  lemma {:induction false} NoMatchNoBreaks(s: string, i: nat)
    requires i <= |s|
    requires forall k :: i <= k < |s| ==> !MatchAt(s, k)
    ensures InsertionsFrom(s, i) == []
    decreases |s| - i
  {
    if i < |s| {
      InsertionsFromNoMatch(s, i);
      NoMatchNoBreaks(s, i + 1);
    }
  }

  /** Any match from `i` on makes the scan insert at least once. */
  lemma {:induction false} SomeMatchBreaks(s: string, i: nat, j: nat)
    requires i <= j < |s| && MatchAt(s, j)
    ensures InsertionsFrom(s, i) != []
    decreases j - i
  {
    if MatchAt(s, i) {
      InsertionsFromAtMatch(s, i);
    } else {
      InsertionsFromNoMatch(s, i);
      SomeMatchBreaks(s, i + 1, j);
    }
  }

  /** The pre-processing changes the text exactly when the pattern matches somewhere. */
  lemma PreprocessChangesIffMatch(text: string)
    ensures PreprocessMarkdown(text) == text <==> forall k :: 0 <= k < |text| ==> !MatchAt(text, k)
  {
    var ps := InsertionsFrom(text, 0);
    ReplaceIsInsertion(text, 0);
    InsertBreaksLength(text, ps, 0);
    if forall k :: 0 <= k < |text| ==> !MatchAt(text, k) {
      NoMatchNoBreaks(text, 0);
      assert text[0..] == text;
    } else {
      var j :| 0 <= j < |text| && MatchAt(text, j);
      SomeMatchBreaks(text, 0, j);
    }
  }

  lemma {:induction false} InsertBreaksLength(s: string, ps: seq<nat>, i: nat)
    requires i <= |s| && Within(ps, i, |s|)
    ensures |InsertBreaks(s, ps, i)| == |s| - i + 2 * |ps|
    decreases |ps|
  {
    if ps != [] {
      InsertBreaksLength(s, ps[1..], ps[0]);
    }
  }

  /** Deleting two characters before each of the positions `ps` (in the
      coordinates of the original text, which starts at index `i`). */
  function RemoveBreaks(t: string, ps: seq<nat>, i: nat): string
    decreases |ps|
  {
    if ps == [] then t
    else if i <= ps[0] && ps[0] - i + 2 <= |t| then
      t[..ps[0] - i] + RemoveBreaks(t[ps[0] - i + 2..], ps[1..], ps[0])
    else t
  }

  /** The inserted pairs are exactly "\n\n", and deleting them gives the text back. */
  lemma {:induction false} RemoveInsertedBreaks(s: string, ps: seq<nat>, i: nat)
    requires i <= |s| && Within(ps, i, |s|)
    ensures RemoveBreaks(InsertBreaks(s, ps, i), ps, i) == s[i..]
    decreases |ps|
  {
    if ps != [] {
      var p := ps[0];
      var rest := InsertBreaks(s, ps[1..], p);
      var t := InsertBreaks(s, ps, i);
      assert t == s[i..p] + "\n\n" + rest;
      assert t[..p - i] == s[i..p];
      assert t[p - i + 2..] == rest;
      RemoveInsertedBreaks(s, ps[1..], p);
      assert s[i..] == s[i..p] + s[p..];
    }
  }

  /** Deleting the pairs the pre-processing inserted restores its input exactly. */
  lemma PreprocessRoundTrip(text: string)
    ensures RemoveBreaks(PreprocessMarkdown(text), InsertionsFrom(text, 0), 0) == text
  {
    ReplaceIsInsertion(text, 0);
    RemoveInsertedBreaks(text, InsertionsFrom(text, 0), 0);
  }

  /** Text without '#' is returned unchanged. */
  lemma {:induction false} NoHashUnchanged(s: string, i: nat)
    requires i <= |s| && '#' !in s
    ensures ReplaceFrom(s, i) == s[i..]
    decreases |s| - i
  {
    if i < |s| {
      NoHashUnchanged(s, i + 1);
      assert i + 1 < |s| ==> s[i + 1] != '#';
      assert s[i..] == [s[i]] + s[i + 1..];
    }
  }

  lemma PreprocessNoHash(text: string)
    requires '#' !in text
    ensures PreprocessMarkdown(text) == text
  {
    NoHashUnchanged(text, 0);
  }

  // ---------------------------------------------------------------------------
  // Worked cases.

  /** A single-'#' heading at the start, or right after a line feed, is untouched;
      one glued to preceding text is moved onto its own paragraph. */
  lemma SingleHashHeadingAtStart()
    ensures PreprocessMarkdown("# x") == "# x"
  {
    var s := "# x";
    assert !MatchAt(s, 0) && !MatchAt(s, 1) && !MatchAt(s, 2);
    assert ReplaceFrom(s, 2) == "x";
  }

  lemma SingleHashHeadingAfterNewline()
    ensures PreprocessMarkdown("a\n# x") == "a\n# x"
  {
    var t := "a\n# x";
    assert HashRun(t, 1) == 0 && HashRun(t, 2) == 1 && HashRun(t, 3) == 0 && HashRun(t, 4) == 0;
    assert !MatchAt(t, 0) && !MatchAt(t, 1) && !MatchAt(t, 2) && !MatchAt(t, 3) && !MatchAt(t, 4);
    assert ReplaceFrom(t, 4) == "x";
  }

  lemma SingleHashHeadingGlued()
    ensures PreprocessMarkdown("a# x") == "a\n\n# x"
  {
    var u := "a# x";
    assert HashRun(u, 1) == 1 && MatchAt(u, 0) && MatchEnd(u, 0) == 3;
    assert ReplaceFrom(u, 3) == "x";
  }

  /** A heading of two or more '#' at the very start is split: the first '#' is
      taken as the preceding character, so "## x" becomes "#\n\n# x". */
  lemma MultiHashAtStartIsSplit()
    ensures PreprocessMarkdown("## x") == "#\n\n# x"
    ensures PreprocessMarkdown("### x") == "#\n\n## x"
  {
    TwoHashAtStart();
    ThreeHashAtStart();
  }

  lemma TwoHashAtStart()
    ensures PreprocessMarkdown("## x") == "#\n\n# x"
  {
    var s := "## x";
    assert HashRun(s, 3) == 0 && HashRun(s, 2) == 0 && HashRun(s, 1) == 1;
    assert MatchAt(s, 0) && MatchEnd(s, 0) == 3;
    assert ReplaceFrom(s, 3) == "x";
  }

  lemma ThreeHashAtStart()
    ensures PreprocessMarkdown("### x") == "#\n\n## x"
  {
    var t := "### x";
    assert HashRun(t, 4) == 0 && HashRun(t, 3) == 0 && HashRun(t, 2) == 1 && HashRun(t, 1) == 2;
    assert MatchAt(t, 0) && MatchEnd(t, 0) == 4;
    assert ReplaceFrom(t, 4) == "x";
  }


  /** Applying the pre-processing twice can change the text again: a two-'#'
      heading glued to text is split once per pass. */
  lemma NotIdempotent()
    ensures PreprocessMarkdown("a## x") == "a\n\n## x"
    ensures PreprocessMarkdown(PreprocessMarkdown("a## x")) == "a\n\n#\n\n# x"
  {
    var s := "a## x";
    assert HashRun(s, 4) == 0 && HashRun(s, 3) == 0 && HashRun(s, 2) == 1 && HashRun(s, 1) == 2;
    assert MatchAt(s, 0) && MatchEnd(s, 0) == 4;
    assert ReplaceFrom(s, 4) == "x";
    SecondPass();
  }

  /** The second pass: the heading after the inserted break starts a line, and
      its own first '#' gets split off. */
  lemma SecondPass()
    ensures PreprocessMarkdown("a\n\n## x") == "a\n\n#\n\n# x"
  {
    var t := "a\n\n## x";
    assert HashRun(t, 7) == 0 && HashRun(t, 6) == 0 && HashRun(t, 5) == 0;
    assert HashRun(t, 4) == 1 && HashRun(t, 3) == 2 && HashRun(t, 2) == 0 && HashRun(t, 1) == 0;
    assert ReplaceFrom(t, 7) == "";
    assert ReplaceFrom(t, 6) == "x";
    assert MatchAt(t, 3) && MatchEnd(t, 3) == 6;
    assert ReplaceFrom(t, 3) == "#\n\n# x";
    assert !MatchAt(t, 2);
    assert ReplaceFrom(t, 2) == "\n#\n\n# x";
    assert !MatchAt(t, 1);
    assert ReplaceFrom(t, 1) == "\n\n#\n\n# x";
    assert !MatchAt(t, 0);
  }

  /** A heading of two '#' on a line of its own, after earlier text, is split
      too: its first '#' serves as the character before the marker. */
  lemma LineStartHeadingIsSplit()
    ensures PreprocessMarkdown("a\n## x") == "a\n#\n\n# x"
  {
    var t := "a\n## x";
    assert HashRun(t, 6) == 0 && HashRun(t, 5) == 0 && HashRun(t, 4) == 0;
    assert HashRun(t, 3) == 1 && HashRun(t, 2) == 2 && HashRun(t, 1) == 0;
    assert ReplaceFrom(t, 6) == "";
    assert ReplaceFrom(t, 5) == "x";
    assert MatchAt(t, 2) && MatchEnd(t, 2) == 5;
    assert ReplaceFrom(t, 2) == "#\n\n# x";
    assert !MatchAt(t, 1);
    assert ReplaceFrom(t, 1) == "\n#\n\n# x";
    assert !MatchAt(t, 0);
  }

  /** The split a heading at the start of the text gets is stable: the result
      contains no further match. */
  lemma StartSplitIsStable()
    ensures PreprocessMarkdown("#\n\n# x") == "#\n\n# x"
  {
    var t := "#\n\n# x";
    assert HashRun(t, 6) == 0 && HashRun(t, 5) == 0 && HashRun(t, 4) == 0;
    assert HashRun(t, 2) == 0 && HashRun(t, 1) == 0;
    assert forall k :: 0 <= k < |t| ==> !MatchAt(t, k) by {
      forall k | 0 <= k < |t| ensures !MatchAt(t, k) {
        if k == 3 || k == 0 { assert t[k + 1] != '#'; }
      }
    }
    PreprocessChangesIffMatch(t);
  }
}

/**
 * How the story player cuts the story into words (StoryPlayer.jsx line 18)
 * and how it maps an engine word-boundary event back to a word index
 * (lines 122-124). Both go through `String.prototype.split` with the regular
 * expression `\s+`; line 18 uses a capture group, so the separators are kept
 * and then filtered out by `trim`.
 */
module Tokenizer {
  import opened Wrappers
  import opened Text

  /**
   * `s.split(/(\s+)/)` when `keepSeparators`, `s.split(/\s+/)` otherwise.
   * The greedy `\s+` always matches a maximal whitespace run, so the
   * fragments between matches are maximal whitespace-free runs; they are
   * empty only at the very start or the very end.
   */
  function Split(s: string, keepSeparators: bool): (r: seq<string>)
    ensures |r| >= 1
    decreases |s|
  {
    var k := NonSpaceRun(s);
    if k == |s| then [s]
    else
      var m := GapEnd(s);
      [s[..k]] + ((if keepSeparators then [s[k..m]] else []) + Split(s[m..], keepSeparators))
  }

  /** Concatenation of a sequence of strings. */
  function Concat(xs: seq<string>): string {
    if xs == [] then [] else xs[0] + Concat(xs[1..])
  }

  /** The `trim().length > 0` test of line 18. */
  predicate HasContent(w: string) {
    |Trim(w)| > 0
  }

  /** The `length > 0` test of line 123. */
  predicate NonEmpty(w: string) {
    |w| > 0
  }

  /** The word list of line 18: `story.split(/(\s+)/).filter(w => w.trim().length > 0)`. */
  function Words(story: string): (r: seq<string>)
    ensures forall i :: 0 <= i < |r| ==> HasContent(r[i]) && r[i] in Split(story, true)
  {
    Filter(Split(story, true), HasContent)
  }

  /** The count of line 123: `text.split(/\s+/).filter(w => w.length > 0).length`. */
  function SpokenWordCount(text: string): (n: nat)
    ensures n == |Runs(text)|
  {
    SpokenWordCountIsRuns(text);
    |Filter(Split(text, false), NonEmpty)|
  }

  /**
   * Reference tokenizer, written independently of `split`: skip one
   * whitespace character at a time, take each maximal whitespace-free run.
   */
  function Runs(s: string): seq<string>
    decreases |s|
  {
    if s == [] then []
    else if IsSpace(s[0]) then Runs(s[1..])
    else
      var k := NonSpaceRun(s);
      [s[..k]] + Runs(s[k..])
  }

  /** Every run is a non-empty, whitespace-free word. */
  lemma {:induction false} RunsAreWords(s: string)
    ensures forall i :: 0 <= i < |Runs(s)| ==> Runs(s)[i] != [] && NoSpace(Runs(s)[i])
    decreases |s|
  {
    if s == [] {
    } else if IsSpace(s[0]) {
      RunsAreWords(s[1..]);
    } else {
      var k := NonSpaceRun(s);
      RunsAreWords(s[k..]);
      assert Runs(s) == [s[..k]] + Runs(s[k..]);
      assert s[..k][0] == s[0];
    }
  }

  /** Concatenating a sequence of strings that starts with `x`. */
  lemma ConcatCons(x: string, xs: seq<string>)
    ensures Concat([x] + xs) == x + Concat(xs)
  {
    assert ([x] + xs)[1..] == xs;
  }

  /** Splitting with separators kept loses nothing: the fragments rebuild the text. */
  lemma {:induction false} SplitRoundTrip(s: string)
    ensures Concat(Split(s, true)) == s
    decreases |s|
  {
    var k := NonSpaceRun(s);
    if k < |s| {
      var m := GapEnd(s);
      var a, b, rest := s[..k], s[k..m], Split(s[m..], true);
      SplitRoundTrip(s[m..]);
      ConcatCons(b, rest);
      ConcatCons(a, [b] + rest);
      ThreeSlices(s, k, m);
    } else {
      assert Split(s, true) == [s];
      ConcatCons(s, []);
    }
  }

  /**
   * Fragments alternate between whitespace-free runs (even positions) and
   * non-empty whitespace runs (odd positions), starting and ending with a run.
   * Only the first and the last run may be empty.
   */
  ghost predicate Alternates(r: seq<string>)
    decreases |r|
  {
    || (|r| == 1 && NoSpace(r[0]))
    || (&& |r| >= 3 && NoSpace(r[0]) && r[1] != [] && IsBlank(r[1])
        && (|r| > 3 ==> r[2] != []) && Alternates(r[2..]))
  }

  /**
   * Shape of `s.split(/(\s+)/)`. Together with `SplitRoundTrip` this says the
   * even fragments are the maximal whitespace-free runs of `s`, in text
   * order, with an empty first or last fragment when `s` starts or ends with
   * whitespace, and the odd fragments are the whitespace between them.
   */
  lemma {:induction false} SplitShape(s: string)
    ensures Alternates(Split(s, true))
    decreases |s|
  {
    var k := NonSpaceRun(s);
    if k < |s| {
      var m := GapEnd(s);
      var rest := Split(s[m..], true);
      var r := [s[..k]] + ([s[k..m]] + rest);
      SplitShape(s[m..]);
      PrefixHasNoSpace(s, k);
      SliceIsBlank(s, k, m);
      assert r[2..] == rest;
      if |rest| > 1 {
        assert s[m..] != [];
        assert s[m..][0] == s[m];
        LeadingFragmentNonEmpty(s[m..]);
      }
    }
  }

  /** A text that starts with a whitespace-free character has a non-empty first fragment. */
  lemma LeadingFragmentNonEmpty(t: string)
    requires t != [] && !IsSpace(t[0])
    ensures Split(t, true)[0] != []
  {
    assert NonSpaceRun(t) > 0;
  }

  /** Skipping whitespace does not change the runs. */
  lemma {:induction false} RunsAfterSpaces(s: string, k: nat, m: nat)
    requires k <= m <= |s|
    requires forall i :: k <= i < m ==> IsSpace(s[i])
    ensures Runs(s[m..]) == Runs(s[k..])
    decreases m - k
  {
    if k < m {
      RunsAfterSpaces(s, k + 1, m);
      RunsSkipSpace(s, k);
    }
  }

  /** One whitespace character at offset `k` is skipped. */
  lemma RunsSkipSpace(s: string, k: nat)
    requires k < |s| && IsSpace(s[k])
    ensures Runs(s[k + 1..]) == Runs(s[k..])
  {
    var t := s[k..];
    assert t[0] == s[k];
    assert t[1..] == s[k + 1..];
  }

  /** Runs of a text that starts with a whitespace-free character. */
  lemma RunsFromWord(s: string)
    requires s != [] && !IsSpace(s[0])
    ensures Runs(s) == [s[..NonSpaceRun(s)]] + Runs(s[NonSpaceRun(s)..])
  {
  }

  /** After the separator that follows the leading run, the runs continue unchanged. */
  lemma RunsAcrossSeparator(s: string)
    requires NonSpaceRun(s) < |s|
    ensures var k := NonSpaceRun(s);
            Runs(s) == (if k == 0 then [] else [s[..k]]) + Runs(s[GapEnd(s)..])
  {
    var k, m := NonSpaceRun(s), GapEnd(s);
    var w := Runs(s[m..]);
    RunsAfterSpaces(s, k, m);
    if k == 0 {
      assert s[0..] == s;
      assert [] + w == w;
    } else {
      RunsFromWord(s);
    }
  }

  /** Runs of a text with no whitespace at all. */
  lemma RunsOfWord(s: string)
    requires NonSpaceRun(s) == |s|
    ensures Runs(s) == if s == [] then [] else [s]
  {
    if s != [] {
      assert s[..|s|] == s;
      RunsFromWord(s);
    }
  }

  /** The word list of a text with no whitespace is the text itself, when non-empty. */
  lemma WordsOfWord(s: string)
    requires NonSpaceRun(s) == |s|
    ensures Words(s) == if s == [] then [] else [s]
  {
    assert Split(s, true) == [s];
    FilterCons(s, [], HasContent);
    if s != [] {
      assert !IsSpace(s[0]);
      assert HasContent(s);
    }
  }

  /** The word list after the leading run and its separator. */
  lemma WordsAcrossSeparator(s: string)
    requires NonSpaceRun(s) < |s|
    ensures var k := NonSpaceRun(s);
            Words(s) == (if k == 0 then [] else [s[..k]]) + Words(s[GapEnd(s)..])
  {
    var k := NonSpaceRun(s);
    var m := GapEnd(s);
    var a, b, rest := s[..k], s[k..m], Split(s[m..], true);
    var w := Filter(rest, HasContent);
    assert Filter([b] + rest, HasContent) == w by {
      FilterCons(b, rest, HasContent);
      SeparatorIsBlank(s);
      assert [] + w == w;
    }
    assert Words(s) == Filter([a] + ([b] + rest), HasContent) by {
      SplitAcrossSeparator(s);
    }
    FilterCons(a, [b] + rest, HasContent);
    LeadingRunContent(s);
    if k == 0 {
      assert [] + w == w;
    }
  }

  /** One step of the split with separators kept. */
  lemma SplitAcrossSeparator(s: string)
    requires NonSpaceRun(s) < |s|
    ensures Split(s, true)
            == [s[..NonSpaceRun(s)]] + ([s[NonSpaceRun(s)..GapEnd(s)]] + Split(s[GapEnd(s)..], true))
  {
  }

  /** The leading whitespace-free run has content exactly when it is non-empty. */
  lemma LeadingRunContent(s: string)
    ensures HasContent(s[..NonSpaceRun(s)]) <==> NonSpaceRun(s) > 0
  {
    var k := NonSpaceRun(s);
    var a := s[..k];
    if k > 0 {
      assert a[0] == s[0];
      assert !IsBlank(a);
    } else {
      assert IsBlank(a);
    }
  }

  /** The separator after the leading run is blank. */
  lemma SeparatorIsBlank(s: string)
    requires NonSpaceRun(s) < |s|
    ensures !HasContent(s[NonSpaceRun(s)..GapEnd(s)])
  {
    var k, m := NonSpaceRun(s), GapEnd(s);
    SliceIsBlank(s, k, m);
    BlankHasNoContent(s[k..m]);
  }

  /** A blank word has no content. */
  lemma BlankHasNoContent(w: string)
    requires IsBlank(w)
    ensures !HasContent(w)
  {
  }

  /** The word list of line 18 is exactly the reference tokenization. */
  lemma {:induction false} WordsAreRuns(s: string)
    ensures Words(s) == Runs(s)
    decreases |s|
  {
    if NonSpaceRun(s) == |s| {
      WordsOfWord(s);
      RunsOfWord(s);
    } else {
      WordsAcrossSeparator(s);
      WordsAreRuns(s[GapEnd(s)..]);
      RunsAcrossSeparator(s);
    }
  }

  /** The count of line 123 is the number of reference runs. */
  lemma {:induction false} SpokenWordCountIsRuns(s: string)
    ensures Filter(Split(s, false), NonEmpty) == Runs(s)
    decreases |s|
  {
    var k := NonSpaceRun(s);
    if k == |s| {
      assert Split(s, false) == [s];
      FilterCons(s, [], NonEmpty);
      RunsOfWord(s);
    } else {
      var m := GapEnd(s);
      var a, rest := s[..k], Split(s[m..], false);
      assert [] + rest == rest;
      FilterCons(a, rest, NonEmpty);
      SpokenWordCountIsRuns(s[m..]);
      RunsAcrossSeparator(s);
    }
  }

  /** The whitespace-free run at the start of a prefix of `s`. */
  lemma NonSpaceRunOfPrefix(s: string, i: nat)
    requires i <= |s|
    ensures NonSpaceRun(s[..i]) == if i <= NonSpaceRun(s) then i else NonSpaceRun(s)
  {
    var k, n := NonSpaceRun(s), NonSpaceRun(s[..i]);
    if i > k {
      assert s[..i][k] == s[k];
    }
  }

  /**
   * `p` lists the first |p| words of `w`, except that its last word may be
   * a prefix of the corresponding word of `w`.
   */
  ghost predicate CutShort(p: seq<string>, w: seq<string>) {
    && |p| <= |w|
    && (forall j :: 0 <= j < |p| - 1 ==> p[j] == w[j])
    && (|p| > 0 ==> StartsWith(w[|p| - 1], p[|p| - 1]))
  }

  lemma CutShortCons(x: string, p: seq<string>, w: seq<string>)
    requires CutShort(p, w)
    ensures CutShort([x] + p, [x] + w)
  {
    var p', w' := [x] + p, [x] + w;
    forall j | 1 <= j < |p'| - 1 ensures p'[j] == w'[j] {
      assert p'[j] == p[j - 1] && w'[j] == w[j - 1];
    }
    if p == [] {
      assert w'[0][..|x|] == x;
    } else {
      assert p'[|p'| - 1] == p[|p| - 1] && w'[|p'| - 1] == w[|p| - 1];
    }
  }

  /**
   * The words of a prefix of the story are the story's first words, the
   * last of them possibly cut short: the spoken prefix ends inside (or
   * right after) word number |Runs(s[..i])| - 1 of the story.
   */
  lemma {:induction false} RunsOfPrefix(s: string, i: nat)
    requires i <= |s|
    ensures CutShort(Runs(s[..i]), Runs(s))
    decreases |s|
  {
    if s == [] || i == 0 {
      assert s[..i] == [];
    } else if IsSpace(s[0]) {
      RunsOfPrefix(s[1..], i - 1);
      PrefixAfterSpace(s, i);
    } else if i <= NonSpaceRun(s) {
      PrefixInLeadingRun(s, i);
    } else {
      var k := NonSpaceRun(s);
      RunsOfPrefix(s[k..], i - k);
      assert s[k..][..i - k] == s[k..i];
      PrefixPastLeadingRun(s, i);
    }
  }

  /** A prefix of `s` that starts with whitespace drops it, as `s` does. */
  lemma PrefixAfterSpace(s: string, i: nat)
    requires 0 < i <= |s| && IsSpace(s[0])
    requires CutShort(Runs(s[1..][..i - 1]), Runs(s[1..]))
    ensures CutShort(Runs(s[..i]), Runs(s))
  {
    var t := s[..i];
    assert t[0] == s[0];
    assert t[1..] == s[1..][..i - 1];
  }

  /** A prefix that ends inside the leading run is that run cut short. */
  lemma PrefixInLeadingRun(s: string, i: nat)
    requires 0 < i <= NonSpaceRun(s)
    ensures CutShort(Runs(s[..i]), Runs(s))
  {
    var k := NonSpaceRun(s);
    var t := s[..i];
    assert t[0] == s[0];
    NonSpaceRunOfPrefix(s, i);
    RunsFromWord(s);
    RunsFromWord(t);
    assert t[i..] == [];
    assert t[..i] == t;
    assert Runs(t) == [t];
    assert s[..k][..i] == t;
  }

  /** A prefix that ends past the leading run keeps that run whole. */
  lemma PrefixPastLeadingRun(s: string, i: nat)
    requires 0 < NonSpaceRun(s) < i <= |s|
    requires CutShort(Runs(s[NonSpaceRun(s)..i]), Runs(s[NonSpaceRun(s)..]))
    ensures CutShort(Runs(s[..i]), Runs(s))
  {
    var k := NonSpaceRun(s);
    RunsPastLeadingRun(s, i);
    RunsFromWord(s);
    CutShortCons(s[..k], Runs(s[k..i]), Runs(s[k..]));
  }

  /** The runs of a prefix that ends past the leading run. */
  lemma RunsPastLeadingRun(s: string, i: nat)
    requires 0 < NonSpaceRun(s) < i <= |s|
    ensures Runs(s[..i]) == [s[..NonSpaceRun(s)]] + Runs(s[NonSpaceRun(s)..i])
  {
    var k := NonSpaceRun(s);
    var t := s[..i];
    assert t[0] == s[0];
    NonSpaceRunOfPrefix(s, i);
    RunsFromWord(t);
    assert t[..k] == s[..k];
    assert t[k..] == s[k..i];
  }

  /** Word counts of story prefixes never decrease as the prefix grows. */
  lemma SpokenWordCountMonotone(s: string, i: nat, j: nat)
    requires i <= j <= |s|
    ensures SpokenWordCount(s[..i]) <= SpokenWordCount(s[..j]) <= |Words(s)|
  {
    SpokenWordCountIsRuns(s[..i]);
    SpokenWordCountIsRuns(s[..j]);
    assert s[..j][..i] == s[..i];
    RunsOfPrefix(s[..j], i);
    RunsOfPrefix(s, j);
    WordsAreRuns(s);
  }

  /**
   * The end offset `story.substring(0, end)` actually uses. `end` is
   * `charIndex + charLength`; with `charLength` absent the sum is `NaN`,
   * which `substring` reads as 0. The offset is clamped to [0, |story|].
   */
  function SpokenEnd(story: string, charIndex: int, charLength: Option<int>): (e: nat)
    ensures e <= |story|
    ensures charLength.Some? && 0 <= charIndex + charLength.value <= |story| ==>
              e == charIndex + charLength.value
    ensures charLength.None? ==> e == 0
    ensures charLength.Some? && charIndex + charLength.value < 0 ==> e == 0
    ensures charLength.Some? && charIndex + charLength.value > |story| ==> e == |story|
  {
    match charLength
    case None => 0
    case Some(len) =>
      var end := charIndex + len;
      if end < 0 then 0 else if end > |story| then |story| else end
  }

  /** `wordCount - 1` of line 124: the index of the word being spoken. */
  function BoundaryWordIndex(story: string, charIndex: int, charLength: Option<int>): (r: int)
    ensures -1 <= r < |Words(story)|
    ensures r == |Runs(story[..SpokenEnd(story, charIndex, charLength)])| - 1
  {
    var e := SpokenEnd(story, charIndex, charLength);
    SpokenWordCountMonotone(story, e, e);
    SpokenWordCount(story[..e]) - 1
  }

  /** The highlighted word index never moves backwards as the spoken end offset grows. */
  lemma BoundaryWordIndexMonotone(story: string, charIndex1: int, charLength1: int,
                                  charIndex2: int, charLength2: int)
    requires charIndex1 + charLength1 <= charIndex2 + charLength2
    ensures BoundaryWordIndex(story, charIndex1, Some(charLength1))
         <= BoundaryWordIndex(story, charIndex2, Some(charLength2))
  {
    var e1 := SpokenEnd(story, charIndex1, Some(charLength1));
    var e2 := SpokenEnd(story, charIndex2, Some(charLength2));
    SpokenWordCountMonotone(story, e1, e2);
    SpokenWordCountIsRuns(story[..e1]);
    SpokenWordCountIsRuns(story[..e2]);
  }

  /**
   * Meaning of the index: when it is not -1, the spoken prefix ends inside
   * word number `r` of the word list, and every earlier word is complete.
   */
  lemma BoundaryWordIndexLocatesWord(story: string, charIndex: int, charLength: Option<int>)
    ensures var r := BoundaryWordIndex(story, charIndex, charLength);
            var p := Runs(story[..SpokenEnd(story, charIndex, charLength)]);
            r >= 0 ==>
              (forall j :: 0 <= j < r ==> p[j] == Words(story)[j])
              && StartsWith(Words(story)[r], p[r])
  {
    WordsAreRuns(story);
    RunsOfPrefix(story, SpokenEnd(story, charIndex, charLength));
  }

  /** A boundary event without `charLength` resets the highlight to -1. */
  lemma BoundaryWithoutLength(story: string, charIndex: int)
    ensures BoundaryWordIndex(story, charIndex, None) == -1
  {
    assert story[..0] == [];
  }

  /** A whitespace-free text is a single run (or none, when empty). */
  lemma RunsOfNoSpace(s: string)
    requires NoSpace(s)
    ensures Runs(s) == if s == [] then [] else [s]
  {
    RunsOfWord(s);
  }

  /** A word, one space, then the rest: the word comes first. */
  lemma RunsOfWordSpace(w: string, rest: string)
    requires w != [] && NoSpace(w) && rest != [] && !IsSpace(rest[0])
    ensures Runs(w + " " + rest) == [w] + Runs(rest)
  {
    var s := w + " " + rest;
    assert s[|w|] == ' ';
    assert NonSpaceRun(s) == |w|;
    assert s[|w| + 1] == rest[0];
    assert GapEnd(s) == |w| + 1;
    assert s[..|w|] == w;
    assert s[|w| + 1..] == rest;
    RunsAcrossSeparator(s);
  }

  /** The index of a boundary whose spoken prefix is `p`. */
  lemma BoundaryOfPrefix(story: string, charIndex: int, charLength: int, p: string)
    requires 0 <= charIndex + charLength <= |story| && story[..charIndex + charLength] == p
    ensures BoundaryWordIndex(story, charIndex, Some(charLength)) == |Runs(p)| - 1
  {
  }

  /** The first word of `a b c` is highlighted when the boundary ends it. */
  lemma FirstOfThree(a: string, b: string, c: string)
    requires a != [] && NoSpace(a)
    ensures BoundaryWordIndex(a + " " + b + " " + c, 0, Some(|a|)) == 0
  {
    var ab := a + " " + b;
    PrefixOfAppend(ab + " ", c, |a|);
    PrefixOfAppend(ab, " ", |a|);
    PrefixOfAppend(a + " ", b, |a|);
    PrefixOfAppend(a, " ", |a|);
    assert a[..|a|] == a;
    RunsOfNoSpace(a);
    BoundaryOfPrefix(ab + " " + c, 0, |a|, a);
  }

  /** The second word of `a b c` is highlighted when the boundary ends it. */
  lemma SecondOfThree(a: string, b: string, c: string)
    requires a != [] && b != [] && NoSpace(a) && NoSpace(b)
    ensures BoundaryWordIndex(a + " " + b + " " + c, |a| + 1, Some(|b|)) == 1
  {
    var ab := a + " " + b;
    PrefixOfAppend(ab + " ", c, |ab|);
    PrefixOfAppend(ab, " ", |ab|);
    assert ab[..|ab|] == ab;
    assert !IsSpace(b[0]);
    RunsOfNoSpace(b);
    RunsOfWordSpace(a, b);
    BoundaryOfPrefix(ab + " " + c, |a| + 1, |b|, ab);
  }

  /** Three whitespace-free words joined by single spaces are its three runs. */
  lemma RunsOfThree(a: string, b: string, c: string)
    requires a != [] && b != [] && c != [] && NoSpace(a) && NoSpace(b) && NoSpace(c)
    ensures Runs(a + " " + b + " " + c) == [a, b, c]
  {
    var bc := b + " " + c;
    AppendAssoc(a + " ", b, " ");
    AppendAssoc(a + " ", b + " ", c);
    assert !IsSpace(c[0]) && bc[0] == b[0] && !IsSpace(b[0]);
    RunsOfNoSpace(c);
    RunsOfWordSpace(b, c);
    RunsOfWordSpace(a, bc);
  }

  /** The third word of `a b c` is highlighted when the boundary ends it. */
  lemma ThirdOfThree(a: string, b: string, c: string)
    requires a != [] && b != [] && c != [] && NoSpace(a) && NoSpace(b) && NoSpace(c)
    ensures BoundaryWordIndex(a + " " + b + " " + c, |a| + |b| + 2, Some(|c|)) == 2
  {
    var s := a + " " + b + " " + c;
    assert s[..|s|] == s;
    RunsOfThree(a, b, c);
    BoundaryOfPrefix(s, |a| + |b| + 2, |c|, s);
  }

  /**
   * Three words separated by single spaces: boundaries that end each word
   * highlight words 0, 1 and 2.
   */
  lemma ThreeWordBoundaries(a: string, b: string, c: string)
    requires a != [] && b != [] && c != [] && NoSpace(a) && NoSpace(b) && NoSpace(c)
    ensures var s := a + " " + b + " " + c;
            && BoundaryWordIndex(s, 0, Some(|a|)) == 0
            && BoundaryWordIndex(s, |a| + 1, Some(|b|)) == 1
            && BoundaryWordIndex(s, |a| + |b| + 2, Some(|c|)) == 2
  {
    FirstOfThree(a, b, c);
    SecondOfThree(a, b, c);
    ThirdOfThree(a, b, c);
  }

  /** The word boundaries of "the quick fox" at (0,3), (4,5), (10,3) highlight words 0, 1 and 2. */
  lemma QuickFoxBoundaries(s: string)
    requires s == "the quick fox"
    ensures BoundaryWordIndex(s, 0, Some(3)) == 0
    ensures BoundaryWordIndex(s, 4, Some(5)) == 1
    ensures BoundaryWordIndex(s, 10, Some(3)) == 2
  {
    var a, b, c := s[..3], s[4..9], s[10..];
    assert s == a + " " + b + " " + c;
    LettersHaveNoSpace(a);
    LettersHaveNoSpace(b);
    LettersHaveNoSpace(c);
    ThreeWordBoundaries(a, b, c);
  }


}

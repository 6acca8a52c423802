/**
 * The word-by-word heading animation (src/components/shared/AnimatedText.tsx).
 *
 * The text is split on single spaces, each word is rendered as one span per
 * character, a word is coloured as highlighted when it is exactly one of the
 * `highlight` strings, and a non-breaking space follows every word but the
 * last. A local `isVisible` flag latches the scroll hook's visibility.
 */
module AnimatedText {

  const Space := ' '
  /** The `&nbsp;` placed after every word but the last. */
  const NonBreakingSpace := '\U{00A0}'

  // ---------------------------------------------------------------------------
  // text.split(' ') and its inverse.
  // ---------------------------------------------------------------------------

  /** How many spaces a string holds. */
  function SpaceCount(s: string): nat {
    if s == [] then 0 else (if s[0] == Space then 1 else 0) + SpaceCount(s[1..])
  }

  /**
   * `s.split(' ')`: the pieces between the spaces, so the empty string gives
   * one empty word and each run of k spaces gives k - 1 empty words.
   */
  function Split(s: string): (words: seq<string>)
    ensures |words| == SpaceCount(s) + 1
    ensures forall k :: 0 <= k < |words| ==> Space !in words[k]
  {
    if s == [] then [""]
    else if s[0] == Space then [""] + Split(s[1..])
    else
      var rest := Split(s[1..]);
      [[s[0]] + rest[0]] + rest[1..]
  }

  /** `words.join(sep)`. */
  function JoinWith(words: seq<string>, sep: char): string {
    if words == [] then ""
    else if |words| == 1 then words[0]
    else words[0] + [sep] + JoinWith(words[1..], sep)
  }

  /** The string with every space replaced by `c`. */
  function ReplaceSpaces(s: string, c: char): (r: string)
    ensures |r| == |s|
    ensures forall k :: 0 <= k < |s| ==> r[k] == (if s[k] == Space then c else s[k])
  {
    if s == [] then [] else [if s[0] == Space then c else s[0]] + ReplaceSpaces(s[1..], c)
  }

  /** Joining the words of `s` with `sep` is `s` with its spaces turned into `sep`. */
  lemma {:induction false} JoinSplitReplaces(s: string, sep: char)
    ensures JoinWith(Split(s), sep) == ReplaceSpaces(s, sep)
  {
    if s != [] {
      JoinSplitReplaces(s[1..], sep);
      var rest := Split(s[1..]);
      if s[0] != Space {
        if |rest| == 1 {
          assert JoinWith(Split(s), sep) == [s[0]] + rest[0];
        } else {
          assert rest == [rest[0]] + rest[1..];
          assert JoinWith(rest, sep) == rest[0] + [sep] + JoinWith(rest[1..], sep);
          assert JoinWith(Split(s), sep) == [s[0]] + rest[0] + [sep] + JoinWith(rest[1..], sep);
        }
      }
    }
  }

  lemma {:induction false} ReplaceSpaceBySpace(s: string)
    ensures ReplaceSpaces(s, Space) == s
  {
    if s != [] {
      ReplaceSpaceBySpace(s[1..]);
    }
  }

  /** Joining the words with a space gives back the text exactly. */
  lemma JoinSplit(s: string)
    ensures JoinWith(Split(s), Space) == s
  {
    JoinSplitReplaces(s, Space);
    ReplaceSpaceBySpace(s);
  }

  /** Splitting a join of space-free words gives back the words. */
  lemma {:induction false} SplitJoin(words: seq<string>)
    requires |words| >= 1
    requires forall k :: 0 <= k < |words| ==> Space !in words[k]
    ensures Split(JoinWith(words, Space)) == words
  {
    if |words| == 1 {
      SplitWord(words[0], []);
      assert words[0] + [] == words[0];
      assert words == [words[0]];
    } else {
      SplitJoin(words[1..]);
      SplitWord(words[0], [Space] + JoinWith(words[1..], Space));
      assert words[0] + [Space] + JoinWith(words[1..], Space) == words[0] + ([Space] + JoinWith(words[1..], Space));
    }
  }

  /** A space-free word in front of a tail extends the tail's first word; on an empty or space-led tail, it is the first word. */
  lemma {:induction false} SplitWord(w: string, tail: string)
    requires Space !in w
    requires tail == [] || tail[0] == Space
    ensures tail == [] ==> Split(w + tail) == [w]
    ensures tail != [] ==> Split(w + tail) == [w] + Split(tail[1..])
  {
    if w == [] {
      assert w + tail == tail;
    } else {
      SplitWord(w[1..], tail);
      assert (w + tail)[1..] == w[1..] + tail;
      assert [w[0]] + w[1..] == w;
    }
  }

  /** Runs of spaces yield empty words. */
  lemma DoubleSpaceGivesEmptyWord()
    ensures Split("Data  Science") == ["Data", "", "Science"]
    ensures Split("") == [""]
  {
    SplitJoin(["Data", "", "Science"]);
    assert JoinWith(["Data", "", "Science"], Space) == "Data  Science";
  }

  // ---------------------------------------------------------------------------
  // renderWord
  // ---------------------------------------------------------------------------

  /** What `renderWord` puts on screen for one word. */
  datatype WordSpan = WordSpan(highlighted: bool, chars: seq<char>, separator: bool)

  /** `highlight.includes(word)`: exact, case-sensitive membership. */
  predicate IsHighlighted(word: string, highlight: seq<string>) {
    word in highlight
  }

  function RenderWord(word: string, index: nat, wordCount: nat, highlight: seq<string>): WordSpan {
    WordSpan(IsHighlighted(word, highlight), word, index + 1 < wordCount)
  }

  /** `words.map((word, index) => renderWord(word, index))`. */
  function Render(words: seq<string>, highlight: seq<string>): (spans: seq<WordSpan>)
    ensures |spans| == |words|
  {
    seq(|words|, i requires 0 <= i < |words| => RenderWord(words[i], i, |words|, highlight))
  }

  /** Each span shows its word letter by letter, is highlighted iff the word is listed, and only the last lacks a separator. */
  lemma RenderSpans(words: seq<string>, highlight: seq<string>, i: nat)
    requires i < |words|
    ensures Render(words, highlight)[i].chars == words[i]
    ensures Render(words, highlight)[i].highlighted <==> words[i] in highlight
    ensures Render(words, highlight)[i].separator <==> i != |words| - 1
  {
  }

  /** Membership is exact: the Projects heading highlights "Projects" but would not highlight "projects". */
  lemma HighlightIsExact()
    ensures Render(Split("Projects Portfolio"), ["Projects"])[0].highlighted
    ensures !Render(Split("Projects Portfolio"), ["Projects"])[1].highlighted
    ensures !Render(["projects"], ["Projects"])[0].highlighted
  {
    SplitJoin(["Projects", "Portfolio"]);
    assert JoinWith(["Projects", "Portfolio"], Space) == "Projects Portfolio";
    assert "projects" != "Projects";
  }

  function SeparatorCount(spans: seq<WordSpan>): nat {
    if spans == [] then 0 else (if spans[0].separator then 1 else 0) + SeparatorCount(spans[1..])
  }

  /** Dropping the first word renders the rest as before. */
  lemma RenderTail(words: seq<string>, highlight: seq<string>)
    requires |words| >= 1
    ensures Render(words, highlight)[1..] == Render(words[1..], highlight)
  {
  }

  /** A text of n words gets n - 1 separators. */
  lemma {:induction false} SeparatorsBetweenWords(words: seq<string>, highlight: seq<string>)
    requires |words| >= 1
    ensures SeparatorCount(Render(words, highlight)) == |words| - 1
  {
    if |words| > 1 {
      RenderTail(words, highlight);
      SeparatorsBetweenWords(words[1..], highlight);
    }
  }

  /** The characters the spans show, in order, with each separator as a non-breaking space. */
  function Shown(spans: seq<WordSpan>): string {
    if spans == [] then ""
    else spans[0].chars + (if spans[0].separator then [NonBreakingSpace] else []) + Shown(spans[1..])
  }

  lemma {:induction false} ShownIsJoin(words: seq<string>, highlight: seq<string>)
    ensures Shown(Render(words, highlight)) == JoinWith(words, NonBreakingSpace)
  {
    if |words| == 1 {
      assert Render(words, highlight)[1..] == [];
    } else if |words| > 1 {
      RenderTail(words, highlight);
      ShownIsJoin(words[1..], highlight);
    }
  }

  /** The heading shows the text itself, with each space drawn as a non-breaking space. */
  lemma RenderedText(text: string, highlight: seq<string>)
    ensures Shown(Render(Split(text), highlight)) == ReplaceSpaces(text, NonBreakingSpace)
  {
    ShownIsJoin(Split(text), highlight);
    JoinSplitReplaces(text, NonBreakingSpace);
  }

  // ---------------------------------------------------------------------------
  // The local visibility latch.
  // ---------------------------------------------------------------------------

  class TextReveal {
    var isVisible: bool

    constructor ()
      ensures !isVisible
    {
      isVisible := false;
    }

    /** The effect run when the scroll hook's `isVisible` changes: it can only switch the flag on. */
    method ScrollVisibilityChanged(scrollVisible: bool)
      modifies this
      ensures isVisible == (old(isVisible) || scrollVisible)
      ensures old(isVisible) ==> isVisible
    {
      if scrollVisible {
        isVisible := true;
      }
    }
  }
}

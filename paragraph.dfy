/** InfoParagraphInserter: the compliance paragraph under the charts. Its
    text is built from the device, the reading type and the readings; it is
    split on whitespace into words, wrapped greedily into lines no wider
    than a maximum width, and written line by line, starting a new page
    when the cursor reaches the bottom margin.

    Widths are in hundredths of a point at the paragraph's font size; the
    font's glyph widths are the parameter widthOf. */
module Paragraph {
  import opened Common
  import opened Calendar
  import opened Domain
  import opened Pdf
  import opened Analytics

  const FONT_SIZE: nat := 10
  /** FONT_SIZE * LINE_SPACING (1.5), in hundredths of a point. */
  const LINE_PITCH: int := 1500
  const BOTTOM_MARGIN: int := 5000
  /** The height of an A4 page (841.89 points), to the hundredth. */
  const A4_HEIGHT: int := 84189
  /** Where the cursor restarts on a new page. */
  const RESET_Y: int := A4_HEIGHT - BOTTOM_MARGIN

  /* ---------- splitting on \s+ ---------- */

  /** The characters of the regular-expression class \s. */
  predicate IsSpace(ch: char)
  {
    ch == ' ' || ch == '\t' || ch == '\n' || ch == '\U{0B}' || ch == '\U{0C}' || ch == '\r'
  }

  predicate NoSpace(w: string)
  {
    forall i :: 0 <= i < |w| ==> !IsSpace(w[i])
  }

  /** Words as the wrapper sees them: none empty, none holding whitespace. */
  predicate WellFormedWords(words: seq<string>)
  {
    forall k :: 0 <= k < |words| ==> words[k] != "" && NoSpace(words[k])
  }

  /** The length of the leading run of non-whitespace characters. */
  function WordLength(s: string): (n: nat)
    ensures n <= |s| && (forall i :: 0 <= i < n ==> !IsSpace(s[i]))
    ensures n < |s| ==> IsSpace(s[n])
  {
    if s == [] || IsSpace(s[0]) then 0 else 1 + WordLength(s[1..])
  }

  /** The maximal runs of non-whitespace characters, in order. */
  function Tokens(s: string): (words: seq<string>)
    ensures WellFormedWords(words)
    decreases |s|
  {
    if s == [] then []
    else if IsSpace(s[0]) then Tokens(s[1..])
    else
      var n := WordLength(s);
      [s[..n]] + Tokens(s[n..])
  }

  /** String.split("\\s+"): the runs between whitespace; a leading
      whitespace run gives a leading empty word, trailing empty words are
      dropped, and the empty text is the one empty word. */
  function SplitOnWhitespace(text: string): seq<string>
  {
    if text == [] then [""]
    else if IsSpace(text[0]) && Tokens(text) != [] then [""] + Tokens(text)
    else Tokens(text)
  }

  /** A word followed by whitespace or by nothing is read whole. */
  lemma {:induction false} WordLengthOfWord(w: string, t: string)
    requires NoSpace(w) && (t == [] || IsSpace(t[0]))
    ensures WordLength(w + t) == |w|
    decreases |w|
  {
    if w != [] {
      assert (w + t)[1..] == w[1..] + t;
      WordLengthOfWord(w[1..], t);
    } else {
      assert w + t == t;
    }
  }

  /** Splitting words joined by single spaces gives the words back. */
  lemma {:induction false} TokensOfJoin(words: seq<string>)
    requires |words| >= 1 && WellFormedWords(words)
    ensures Tokens(JoinWith(words, ' ')) == words
    decreases |words|
  {
    var w := words[0];
    var s := JoinWith(words, ' ');
    if |words| == 1 {
      WordLengthOfWord(w, []);
      assert w + [] == w;
      assert s[..|w|] == w && s[|w|..] == [];
    } else {
      var rest := JoinWith(words[1..], ' ');
      assert s == w + ([' '] + rest);
      WordLengthOfWord(w, [' '] + rest);
      assert s[..|w|] == w && s[|w|..] == [' '] + rest;
      assert ([' '] + rest)[1..] == rest;
      TokensOfJoin(words[1..]);
      assert words == [w] + words[1..];
    }
  }

  /** The split of text that starts with a word is its words; the split of
      words joined by single spaces is those words. */
  lemma SplitOnWhitespaceOfJoin(words: seq<string>)
    requires |words| >= 1 && WellFormedWords(words)
    ensures SplitOnWhitespace(JoinWith(words, ' ')) == words
  {
    TokensOfJoin(words);
    var s := JoinWith(words, ' ');
    if |words| > 1 {
      assert s == words[0] + ([' '] + JoinWith(words[1..], ' '));
    }
    assert s[0] == words[0][0];
  }

  /** The split is the text's words, after one leading empty word exactly
      when the text starts with whitespace and holds a word, or the single
      empty word of the empty text. */
  lemma SplitOnWhitespaceWords(text: string)
    ensures var words := SplitOnWhitespace(text);
            words == Tokens(text)
            || (words == [""] + Tokens(text) && text != [] && IsSpace(text[0]))
            || (words == [""] && text == [])
  {
  }

  /* ---------- splitTextIntoLines ---------- */

  /** The running state of the wrapping loop: the finished lines, the line
      being built and the width the code has counted for it. */
  datatype WrapState = WrapState(lines: seq<string>, line: string, width: int)

  /** StringBuilder.append of a word, after a space unless the line is empty. */
  function AppendWord(line: string, word: string): string
  {
    if |line| > 0 then line + " " + word else line + word
  }

  /** One iteration of the loop over the words. */
  function Step(st: WrapState, word: string, widthOf: string -> nat, spaceWidth: nat, maxWidth: int): WrapState
  {
    var wordWidth := widthOf(word);
    if st.width + wordWidth > maxWidth then WrapState(st.lines + [st.line], word, wordWidth + spaceWidth)
    else WrapState(st.lines, AppendWord(st.line, word), st.width + (if |st.line| > 0 then spaceWidth else 0) + wordWidth)
  }

  /** The state after the loop has run over the words. */
  function Wrapped(words: seq<string>, widthOf: string -> nat, spaceWidth: nat, maxWidth: int): WrapState
    decreases |words|
  {
    if words == [] then WrapState([], "", 0)
    else Step(Wrapped(words[..|words| - 1], widthOf, spaceWidth, maxWidth), words[|words| - 1], widthOf, spaceWidth, maxWidth)
  }

  /** The lines returned: the finished ones, then the last line if it is
      not empty. */
  function WrapLines(words: seq<string>, widthOf: string -> nat, spaceWidth: nat, maxWidth: int): seq<string>
  {
    var st := Wrapped(words, widthOf, spaceWidth, maxWidth);
    if |st.line| > 0 then st.lines + [st.line] else st.lines
  }

  /** splitTextIntoLines: the greedy wrap of the text's words, measuring a
      space as widthOf(" "). */
  method SplitTextIntoLines(text: string, widthOf: string -> nat, maxWidth: int) returns (lines: seq<string>)
    ensures lines == WrapLines(SplitOnWhitespace(text), widthOf, widthOf(" "), maxWidth)
  {
    var words := SplitOnWhitespace(text);
    var line := "";
    var spaceWidth := widthOf(" ");
    var currentWidth := 0;
    lines := [];
    var i := 0;
    while i < |words|
      invariant 0 <= i <= |words|
      invariant Wrapped(words[..i], widthOf, spaceWidth, maxWidth) == WrapState(lines, line, currentWidth)
    {
      var word := words[i];
      var wordWidth := widthOf(word);
      assert words[..i + 1][..i] == words[..i];
      if currentWidth + wordWidth > maxWidth {
        lines := lines + [line];
        line := word;
        currentWidth := wordWidth + spaceWidth;
      } else {
        if |line| > 0 {
          line := line + " ";
          currentWidth := currentWidth + spaceWidth;
        }
        line := line + word;
        currentWidth := currentWidth + wordWidth;
      }
      i := i + 1;
    }
    assert words[..i] == words;
    if |line| > 0 {
      lines := lines + [line];
    }
  }

  /* ---------- what the wrapped lines hold ---------- */

  /** The words of one line: its pieces between single spaces. */
  function WordsOf(line: string): seq<string>
  {
    if line == "" then [] else SplitOnChar(line, ' ')
  }

  /** The words of all lines, in order. */
  function LinesWords(lines: seq<string>): seq<string>
  {
    if lines == [] then [] else LinesWords(lines[..|lines| - 1]) + WordsOf(lines[|lines| - 1])
  }

  /** The rendered width of words set with one space between neighbours. */
  function LineWidth(words: seq<string>, widthOf: string -> nat, spaceWidth: nat): int
  {
    if words == [] then 0
    else LineWidth(words[..|words| - 1], widthOf, spaceWidth) + widthOf(words[|words| - 1])
         + (if |words| > 1 then spaceWidth else 0)
  }

  /** Line k fits: unless it is a single word, it is no wider than maxWidth,
      and the first line may be one space wider. */
  predicate Fits(line: string, k: int, widthOf: string -> nat, spaceWidth: nat, maxWidth: int)
  {
    |WordsOf(line)| >= 2 ==> LineWidth(WordsOf(line), widthOf, spaceWidth) <= maxWidth + (if k == 0 then spaceWidth else 0)
  }

  /** The break after line k was forced: next starts with a word that the
      code's count for line k (its width, plus one space after the first
      line) could not take. */
  predicate Breaks(line: string, k: int, next: string, widthOf: string -> nat, spaceWidth: nat, maxWidth: int)
  {
    next != ""
    && LineWidth(WordsOf(line), widthOf, spaceWidth) + (if k == 0 then 0 else spaceWidth) + widthOf(WordsOf(next)[0]) > maxWidth
  }

  lemma WordIsOneWord(w: string)
    requires w != "" && NoSpace(w)
    ensures WordsOf(w) == [w]
  {
    assert IsSpace(' ');
    SplitWithoutSeparator(w, ' ');
  }

  /** Appending a word adds it as the line's last word. */
  lemma WordsOfAppend(line: string, w: string)
    requires w != "" && NoSpace(w)
    ensures WordsOf(AppendWord(line, w)) == WordsOf(line) + [w]
  {
    assert IsSpace(' ');
    if line == "" {
      assert AppendWord(line, w) == w;
      WordIsOneWord(w);
    } else {
      assert AppendWord(line, w) == line + [' '] + w;
      SplitBeforeLast(line, ' ', w);
    }
  }

  lemma LinesWordsAppend(lines: seq<string>, line: string)
    ensures LinesWords(lines + [line]) == LinesWords(lines) + WordsOf(line)
  {
    assert (lines + [line])[..|lines|] == lines;
  }

  lemma LineWidthAppend(words: seq<string>, w: string, widthOf: string -> nat, spaceWidth: nat)
    ensures LineWidth(words + [w], widthOf, spaceWidth)
            == LineWidth(words, widthOf, spaceWidth) + widthOf(w) + (if words != [] then spaceWidth else 0)
  {
    assert (words + [w])[..|words|] == words;
  }

  /** The loop's invariants, as facts about one state. */

  /** The counted width is the current line's width, plus one space once a
      line has been finished. */
  predicate Counted(st: WrapState, widthOf: string -> nat, spaceWidth: nat)
  {
    st.width == LineWidth(WordsOf(st.line), widthOf, spaceWidth) + (if st.lines == [] then 0 else spaceWidth)
  }

  /** Every finished line and the current line fit. */
  predicate AllFit(st: WrapState, widthOf: string -> nat, spaceWidth: nat, maxWidth: int)
  {
    (forall k :: 0 <= k < |st.lines| ==> Fits(st.lines[k], k, widthOf, spaceWidth, maxWidth))
    && Fits(st.line, |st.lines|, widthOf, spaceWidth, maxWidth)
  }

  /** Every break between finished lines, and the one before the current
      line, was forced. */
  predicate AllBreaksForced(st: WrapState, widthOf: string -> nat, spaceWidth: nat, maxWidth: int)
  {
    BreaksForced(st.lines, widthOf, spaceWidth, maxWidth)
    && (st.lines != [] ==> Breaks(st.lines[|st.lines| - 1], |st.lines| - 1, st.line, widthOf, spaceWidth, maxWidth))
  }

  /** Every break between the lines was forced. */
  predicate BreaksForced(lines: seq<string>, widthOf: string -> nat, spaceWidth: nat, maxWidth: int)
  {
    forall k :: 0 <= k < |lines| - 1 ==> Breaks(lines[k], k, lines[k + 1], widthOf, spaceWidth, maxWidth)
  }

  /** One step adds the word as the last word read. */
  lemma StepWords(st: WrapState, w: string, widthOf: string -> nat, spaceWidth: nat, maxWidth: int)
    requires w != "" && NoSpace(w)
    ensures var next := Step(st, w, widthOf, spaceWidth, maxWidth);
            LinesWords(next.lines) + WordsOf(next.line) == LinesWords(st.lines) + WordsOf(st.line) + [w]
            && next.line != ""
            && (next.lines == st.lines || next.lines == st.lines + [st.line])
  {
    if st.width + widthOf(w) > maxWidth {
      LinesWordsAppend(st.lines, st.line);
      WordIsOneWord(w);
    } else {
      WordsOfAppend(st.line, w);
    }
  }

  /** One step keeps the count right. */
  lemma StepCounted(st: WrapState, w: string, widthOf: string -> nat, spaceWidth: nat, maxWidth: int)
    requires w != "" && NoSpace(w) && Counted(st, widthOf, spaceWidth)
    ensures Counted(Step(st, w, widthOf, spaceWidth, maxWidth), widthOf, spaceWidth)
  {
    if st.width + widthOf(w) > maxWidth {
      WordIsOneWord(w);
      LineWidthAppend([], w, widthOf, spaceWidth);
    } else {
      WordsOfAppend(st.line, w);
      LineWidthAppend(WordsOf(st.line), w, widthOf, spaceWidth);
      assert st.line != "" <==> WordsOf(st.line) != [];
    }
  }

  /** One step keeps every line fitting. */
  lemma StepFits(st: WrapState, w: string, widthOf: string -> nat, spaceWidth: nat, maxWidth: int)
    requires w != "" && NoSpace(w) && Counted(st, widthOf, spaceWidth) && AllFit(st, widthOf, spaceWidth, maxWidth)
    ensures AllFit(Step(st, w, widthOf, spaceWidth, maxWidth), widthOf, spaceWidth, maxWidth)
  {
    var next := Step(st, w, widthOf, spaceWidth, maxWidth);
    if st.width + widthOf(w) > maxWidth {
      WordIsOneWord(w);
      assert forall k :: 0 <= k < |next.lines| ==> next.lines[k] == if k < |st.lines| then st.lines[k] else st.line;
    } else {
      WordsOfAppend(st.line, w);
      LineWidthAppend(WordsOf(st.line), w, widthOf, spaceWidth);
    }
  }

  /** A break keeps every earlier break forced and is forced itself. */
  lemma BreakKeepsBreaks(st: WrapState, w: string, next: WrapState, widthOf: string -> nat, spaceWidth: nat, maxWidth: int)
    requires w != "" && NoSpace(w) && Counted(st, widthOf, spaceWidth)
    requires AllBreaksForced(st, widthOf, spaceWidth, maxWidth)
    requires st.width + widthOf(w) > maxWidth
    requires next.lines == st.lines + [st.line] && next.line == w
    ensures AllBreaksForced(next, widthOf, spaceWidth, maxWidth)
  {
    var n := |st.lines|;
    forall k | 0 <= k < |next.lines| - 1
      ensures Breaks(next.lines[k], k, next.lines[k + 1], widthOf, spaceWidth, maxWidth)
    {
      if k < n - 1 {
        assert next.lines[k] == st.lines[k] && next.lines[k + 1] == st.lines[k + 1];
      } else {
        assert next.lines[k] == st.lines[n - 1] && next.lines[k + 1] == st.line;
      }
    }
    WordIsOneWord(w);
  }

  /** A break depends on the next line only through its first word. */
  lemma BreaksSameFirstWord(line: string, k: int, a: string, b: string, widthOf: string -> nat, spaceWidth: nat, maxWidth: int)
    requires Breaks(line, k, a, widthOf, spaceWidth, maxWidth)
    requires b != "" && WordsOf(a) != [] && WordsOf(b) != [] && WordsOf(a)[0] == WordsOf(b)[0]
    ensures Breaks(line, k, b, widthOf, spaceWidth, maxWidth)
  {
  }

  /** A current line that keeps its first word keeps the break before it. */
  lemma SameFirstWordKeepsBreaks(st: WrapState, next: WrapState, widthOf: string -> nat, spaceWidth: nat, maxWidth: int)
    requires AllBreaksForced(st, widthOf, spaceWidth, maxWidth)
    requires next.lines == st.lines && next.line != "" && st.line != ""
    requires WordsOf(next.line) != [] && WordsOf(st.line) != [] && WordsOf(next.line)[0] == WordsOf(st.line)[0]
    ensures AllBreaksForced(next, widthOf, spaceWidth, maxWidth)
  {
    var n := |st.lines|;
    if n > 0 {
      BreaksSameFirstWord(st.lines[n - 1], n - 1, st.line, next.line, widthOf, spaceWidth, maxWidth);
    }
  }

  /** One step keeps every break forced. */
  lemma StepBreaks(st: WrapState, w: string, widthOf: string -> nat, spaceWidth: nat, maxWidth: int)
    requires w != "" && NoSpace(w) && Counted(st, widthOf, spaceWidth)
    requires AllBreaksForced(st, widthOf, spaceWidth, maxWidth)
    requires st.lines != [] ==> st.line != ""
    ensures AllBreaksForced(Step(st, w, widthOf, spaceWidth, maxWidth), widthOf, spaceWidth, maxWidth)
  {
    var next := Step(st, w, widthOf, spaceWidth, maxWidth);
    if st.width + widthOf(w) > maxWidth {
      BreakKeepsBreaks(st, w, next, widthOf, spaceWidth, maxWidth);
    } else if st.lines != [] {
      WordsOfAppend(st.line, w);
      assert WordsOf(st.line) != [];
      SameFirstWordKeepsBreaks(st, next, widthOf, spaceWidth, maxWidth);
    }
  }

  /** The words of the finished lines and of the current line are the words
      read so far, and the current line is empty only before the first. */
  lemma {:induction false} WrappedWords(words: seq<string>, widthOf: string -> nat, spaceWidth: nat, maxWidth: int)
    requires WellFormedWords(words)
    ensures var st := Wrapped(words, widthOf, spaceWidth, maxWidth);
            LinesWords(st.lines) + WordsOf(st.line) == words
            && (words != [] ==> st.line != "")
            && (words == [] ==> st.lines == [])
    decreases |words|
  {
    if words != [] {
      var prefix, w := words[..|words| - 1], words[|words| - 1];
      assert WellFormedWords(prefix) by {
        assert forall k :: 0 <= k < |prefix| ==> prefix[k] == words[k];
      }
      WrappedWords(prefix, widthOf, spaceWidth, maxWidth);
      var st := Wrapped(prefix, widthOf, spaceWidth, maxWidth);
      assert Wrapped(words, widthOf, spaceWidth, maxWidth) == Step(st, w, widthOf, spaceWidth, maxWidth);
      StepWords(st, w, widthOf, spaceWidth, maxWidth);
      PrefixAndLast(words);
    }
  }

  /** The count, the fit and the forced breaks hold after every word. */
  lemma {:induction false} WrappedInvariants(words: seq<string>, widthOf: string -> nat, spaceWidth: nat, maxWidth: int)
    requires WellFormedWords(words)
    ensures var st := Wrapped(words, widthOf, spaceWidth, maxWidth);
            Counted(st, widthOf, spaceWidth)
            && AllFit(st, widthOf, spaceWidth, maxWidth)
            && AllBreaksForced(st, widthOf, spaceWidth, maxWidth)
    decreases |words|
  {
    if words != [] {
      var prefix, w := words[..|words| - 1], words[|words| - 1];
      assert WellFormedWords(prefix) by {
        assert forall k :: 0 <= k < |prefix| ==> prefix[k] == words[k];
      }
      WrappedInvariants(prefix, widthOf, spaceWidth, maxWidth);
      WrappedWords(prefix, widthOf, spaceWidth, maxWidth);
      var st := Wrapped(prefix, widthOf, spaceWidth, maxWidth);
      StepCounted(st, w, widthOf, spaceWidth, maxWidth);
      StepFits(st, w, widthOf, spaceWidth, maxWidth);
      StepBreaks(st, w, widthOf, spaceWidth, maxWidth);
    }
  }

  /** Only the first finished line can be empty, and it is empty exactly
      when the first word w0 was wider than maxWidth. */
  predicate FirstLineRule(st: WrapState, w0: string, widthOf: string -> nat, maxWidth: int)
  {
    (forall k :: 0 < k < |st.lines| ==> st.lines[k] != "")
    && (st.lines != [] ==> (st.lines[0] == "" <==> widthOf(w0) > maxWidth))
    && (st.lines == [] ==> widthOf(w0) <= maxWidth)
  }

  /** A step after a non-empty current line keeps the rule. */
  lemma StepFirstLineRule(st: WrapState, w0: string, w: string, widthOf: string -> nat, spaceWidth: nat, maxWidth: int)
    requires st.line != "" && FirstLineRule(st, w0, widthOf, maxWidth)
    ensures FirstLineRule(Step(st, w, widthOf, spaceWidth, maxWidth), w0, widthOf, maxWidth)
  {
    var next := Step(st, w, widthOf, spaceWidth, maxWidth);
    if st.width + widthOf(w) > maxWidth {
      assert next.lines == st.lines + [st.line];
      assert forall k :: 0 <= k < |next.lines| ==> next.lines[k] == if k < |st.lines| then st.lines[k] else st.line;
    } else {
      assert next.lines == st.lines;
    }
  }

  lemma {:induction false} WrappedEmptyLines(words: seq<string>, widthOf: string -> nat, spaceWidth: nat, maxWidth: int)
    requires WellFormedWords(words) && words != []
    ensures FirstLineRule(Wrapped(words, widthOf, spaceWidth, maxWidth), words[0], widthOf, maxWidth)
    decreases |words|
  {
    var prefix, w := words[..|words| - 1], words[|words| - 1];
    if prefix == [] {
      assert Wrapped(prefix, widthOf, spaceWidth, maxWidth) == WrapState([], "", 0);
      assert w == words[0];
    } else {
      assert WellFormedWords(prefix) by {
        assert forall k :: 0 <= k < |prefix| ==> prefix[k] == words[k];
      }
      WrappedEmptyLines(prefix, widthOf, spaceWidth, maxWidth);
      WrappedWords(prefix, widthOf, spaceWidth, maxWidth);
      assert prefix[0] == words[0];
      StepFirstLineRule(Wrapped(prefix, widthOf, spaceWidth, maxWidth), words[0], w, widthOf, spaceWidth, maxWidth);
    }
  }

  /** Word conservation: read back from the lines, the words are exactly
      the input words, in order, none lost, repeated or split. */
  lemma WrapKeepsWords(words: seq<string>, widthOf: string -> nat, spaceWidth: nat, maxWidth: int)
    requires WellFormedWords(words)
    ensures LinesWords(WrapLines(words, widthOf, spaceWidth, maxWidth)) == words
  {
    WrappedWords(words, widthOf, spaceWidth, maxWidth);
    var st := Wrapped(words, widthOf, spaceWidth, maxWidth);
    if |st.line| > 0 {
      LinesWordsAppend(st.lines, st.line);
    }
  }

  /** There are lines exactly when there are words; only the first line
      can be empty, and it is empty exactly when the first word alone is
      wider than maxWidth. */
  lemma WrapEmptyLines(words: seq<string>, widthOf: string -> nat, spaceWidth: nat, maxWidth: int)
    requires WellFormedWords(words)
    ensures var lines := WrapLines(words, widthOf, spaceWidth, maxWidth);
            (lines == [] <==> words == [])
            && (forall k :: 0 < k < |lines| ==> lines[k] != "")
            && (lines != [] && lines[0] == "" <==> words != [] && widthOf(words[0]) > maxWidth)
  {
    WrappedWords(words, widthOf, spaceWidth, maxWidth);
    if words != [] {
      WrappedEmptyLines(words, widthOf, spaceWidth, maxWidth);
      var st := Wrapped(words, widthOf, spaceWidth, maxWidth);
      var lines := WrapLines(words, widthOf, spaceWidth, maxWidth);
      assert lines == st.lines + [st.line];
      assert forall k :: 0 <= k < |lines| ==> lines[k] == if k < |st.lines| then st.lines[k] else st.line;
    }
  }

  /** Width bound: a line of two or more words is no wider than maxWidth,
      except that the first line may exceed it by one space, because the
      code counts no space before its second word. */
  lemma WrapWidthBound(words: seq<string>, widthOf: string -> nat, spaceWidth: nat, maxWidth: int)
    requires WellFormedWords(words)
    ensures var lines := WrapLines(words, widthOf, spaceWidth, maxWidth);
            forall k :: 0 <= k < |lines| ==> Fits(lines[k], k, widthOf, spaceWidth, maxWidth)
  {
    WrappedInvariants(words, widthOf, spaceWidth, maxWidth);
  }

  /** Closing the current line as the last line keeps every break forced. */
  lemma ClosedLineBreaks(st: WrapState, lines: seq<string>, widthOf: string -> nat, spaceWidth: nat, maxWidth: int)
    requires AllBreaksForced(st, widthOf, spaceWidth, maxWidth)
    requires lines == st.lines + [st.line]
    ensures forall k :: 0 <= k < |lines| - 1 ==> Breaks(lines[k], k, lines[k + 1], widthOf, spaceWidth, maxWidth)
  {
    var n := |st.lines|;
    forall k | 0 <= k < |lines| - 1
      ensures Breaks(lines[k], k, lines[k + 1], widthOf, spaceWidth, maxWidth)
    {
      if k < n - 1 {
        assert lines[k] == st.lines[k] && lines[k + 1] == st.lines[k + 1];
      } else {
        assert k == n - 1;
        assert lines[k] == st.lines[n - 1] && lines[k + 1] == st.line;
      }
    }
  }

  /** Greedy: every line break happens because the code's count for the
      line plus the next line's first word exceeds maxWidth. */
  lemma WrapGreedy(words: seq<string>, widthOf: string -> nat, spaceWidth: nat, maxWidth: int)
    requires WellFormedWords(words)
    ensures var lines := WrapLines(words, widthOf, spaceWidth, maxWidth);
            forall k :: 0 <= k < |lines| - 1 ==> Breaks(lines[k], k, lines[k + 1], widthOf, spaceWidth, maxWidth)
  {
    var st := Wrapped(words, widthOf, spaceWidth, maxWidth);
    assert AllBreaksForced(st, widthOf, spaceWidth, maxWidth) by {
      WrappedInvariants(words, widthOf, spaceWidth, maxWidth);
    }
    if |st.line| > 0 {
      ClosedLineBreaks(st, WrapLines(words, widthOf, spaceWidth, maxWidth), widthOf, spaceWidth, maxWidth);
    }
  }

  /** The first line can exceed maxWidth by the width of a space. */
  lemma FirstLineOverflowExample()
    ensures var widthOf := (w: string) => |w|;
            var lines := WrapLines(["aaaa", "bbbbb"], widthOf, 1, 9);
            lines == ["aaaa bbbbb"] && LineWidth(WordsOf(lines[0]), widthOf, 1) == 10
  {
    var widthOf := (w: string) => |w|;
    assert ["aaaa", "bbbbb"][..1] == ["aaaa"];
    assert [ "aaaa"][..0] == [];
    assert Wrapped(["aaaa"], widthOf, 1, 9) == WrapState([], "aaaa", 4);
    assert "aaaa bbbbb" == "aaaa" + [' '] + "bbbbb";
    SplitBeforeLast("aaaa", ' ', "bbbbb");
    SplitWithoutSeparator("aaaa", ' ');
    LineWidthAppend(["aaaa"], "bbbbb", widthOf, 1);
    LineWidthAppend([], "aaaa", widthOf, 1);
  }

  /** A leading empty word is skipped when the empty word has no width and
      maxWidth is not negative. */
  lemma {:induction false} LeadingEmptyWordSkipped(words: seq<string>, widthOf: string -> nat, spaceWidth: nat, maxWidth: int)
    requires words != [] && words[0] == "" && widthOf("") == 0 && 0 <= maxWidth
    ensures Wrapped(words, widthOf, spaceWidth, maxWidth) == Wrapped(words[1..], widthOf, spaceWidth, maxWidth)
    decreases |words|
  {
    if |words| == 1 {
      assert words[..0] == [];
      assert words[1..] == [];
    } else {
      var prefix := words[..|words| - 1];
      LeadingEmptyWordSkipped(prefix, widthOf, spaceWidth, maxWidth);
      assert words[1..][..|words[1..]| - 1] == prefix[1..];
    }
  }

  /** The lines of a text are the wrap of its words: the leading empty word
      of text that starts with whitespace changes nothing. */
  lemma TextLinesAreWordLines(text: string, widthOf: string -> nat, spaceWidth: nat, maxWidth: int)
    requires widthOf("") == 0 && 0 <= maxWidth
    ensures WrapLines(SplitOnWhitespace(text), widthOf, spaceWidth, maxWidth)
            == WrapLines(Tokens(text), widthOf, spaceWidth, maxWidth)
  {
    var words := SplitOnWhitespace(text);
    if words != Tokens(text) {
      LeadingEmptyWordSkipped(words, widthOf, spaceWidth, maxWidth);
      assert words[1..] == Tokens(text) || (words == [""] && Tokens(text) == []);
    }
  }

  /* ---------- writeParagraph: the page cursor ---------- */

  /** Where the next line goes from cursor y: on a new page at RESET_Y when
      y is at or below the bottom margin. Lines always land above it. */
  function LineY(y: int): (lineY: int)
    ensures lineY > BOTTOM_MARGIN
  {
    if y <= BOTTOM_MARGIN then RESET_Y else y
  }

  /** The cursor after n lines written from yPos. */
  function CursorAfter(yPos: int, n: nat): int
  {
    if n == 0 then yPos else LineY(CursorAfter(yPos, n - 1)) - LINE_PITCH
  }

  /** How many new pages n lines written from yPos start. */
  function Resets(yPos: int, n: nat): nat
  {
    if n == 0 then 0
    else Resets(yPos, n - 1) + (if CursorAfter(yPos, n - 1) <= BOTTOM_MARGIN then 1 else 0)
  }

  /** The page line k goes on, for a document of pagesBefore pages: page 0
      until the first break, then the page the last break appended. */
  function LinePage(pagesBefore: nat, yPos: int, k: nat): nat
  {
    if Resets(yPos, k + 1) == 0 then 0 else pagesBefore + Resets(yPos, k + 1) - 1
  }

  /** The text draws of the lines: line k at the cursor after k lines, on
      the page that cursor is on. */
  function ParagraphOps(xPos: int, yPos: int, pagesBefore: nat, lines: seq<string>): seq<DrawOp>
  {
    if lines == [] then []
    else ParagraphOps(xPos, yPos, pagesBefore, lines[..|lines| - 1])
         + [Text(LinePage(pagesBefore, yPos, |lines| - 1), xPos, LineY(CursorAfter(yPos, |lines| - 1)),
                 lines[|lines| - 1], FONT_SIZE, false)]
  }

  /** Writing line i from the cursor after i lines: it goes at LineY of that
      cursor, starts a page when the cursor is at or below the margin, and
      leaves the cursor one pitch lower. */
  lemma ParagraphStep(xPos: int, yPos: int, pagesBefore: nat, lines: seq<string>, i: nat)
    requires i < |lines|
    ensures var y := CursorAfter(yPos, i);
            ParagraphOps(xPos, yPos, pagesBefore, lines[..i + 1])
              == ParagraphOps(xPos, yPos, pagesBefore, lines[..i])
                 + [Text(LinePage(pagesBefore, yPos, i), xPos, LineY(y), lines[i], FONT_SIZE, false)]
            && CursorAfter(yPos, i + 1) == LineY(y) - LINE_PITCH
            && Resets(yPos, i + 1) == Resets(yPos, i) + (if y <= BOTTOM_MARGIN then 1 else 0)
  {
    assert lines[..i + 1][..i] == lines[..i];
  }

  /** One draw per line, in order, each at the cursor above the margin,
      regular and at the paragraph's font size. */
  lemma {:induction false} ParagraphOpsAt(xPos: int, yPos: int, pagesBefore: nat, lines: seq<string>)
    ensures var ops := ParagraphOps(xPos, yPos, pagesBefore, lines);
            |ops| == |lines|
            && forall k :: 0 <= k < |lines| ==>
                 ops[k] == Text(LinePage(pagesBefore, yPos, k), xPos, LineY(CursorAfter(yPos, k)), lines[k], FONT_SIZE, false)
                 && ops[k].y > BOTTOM_MARGIN
    decreases |lines|
  {
    if lines != [] {
      var prefix := lines[..|lines| - 1];
      ParagraphOpsAt(xPos, yPos, pagesBefore, prefix);
      assert forall k :: 0 <= k < |prefix| ==> prefix[k] == lines[k];
    }
  }

  /** Writing on from a later cursor continues the same walk. */
  lemma {:induction false} CursorShift(yPos: int, k: nat, j: nat)
    ensures CursorAfter(yPos, k + j) == CursorAfter(CursorAfter(yPos, k), j)
    ensures Resets(yPos, k + j) == Resets(yPos, k) + Resets(CursorAfter(yPos, k), j)
    decreases j
  {
    if j > 0 {
      CursorShift(yPos, k, j - 1);
    }
  }

  /** Line k of n lies on page 0 exactly when no break came before it, and
      otherwise on one of the pages the paragraph added; so every line is
      on a page the document has afterwards. */
  lemma LinePages(pagesBefore: nat, yPos: int, k: nat, n: nat)
    requires k < n && 1 <= pagesBefore
    ensures var page := LinePage(pagesBefore, yPos, k);
            (page == 0 <==> Resets(yPos, k + 1) == 0)
            && (page != 0 ==> pagesBefore <= page)
            && page < pagesBefore + Resets(yPos, n)
  {
    CursorShift(yPos, k + 1, n - k - 1);
  }

  /** From a cursor above the margin, the lines step down one pitch at a
      time while they stay above it. */
  lemma {:induction false} CursorDescends(yPos: int, j: nat)
    requires yPos - LINE_PITCH * (j - 1) > BOTTOM_MARGIN || j == 0
    ensures CursorAfter(yPos, j) == yPos - LINE_PITCH * j && Resets(yPos, j) == 0
    decreases j
  {
    if j > 0 {
      CursorDescends(yPos, j - 1);
    }
  }

  /** A fresh page holds exactly 50 lines: from a cursor at or below the
      margin, the first line starts a page and the 51st the next one. */
  lemma PageHolds50Lines(y: int, j: nat)
    requires y <= BOTTOM_MARGIN && 1 <= j <= 50
    ensures CursorAfter(y, j) == RESET_Y - LINE_PITCH * j
    ensures Resets(y, j) == 1
    ensures (CursorAfter(y, j) <= BOTTOM_MARGIN) == (j == 50)
  {
    CursorShift(y, 1, j - 1);
    CursorDescends(RESET_Y - LINE_PITCH, j - 1);
    assert CursorAfter(y, 1) == RESET_Y - LINE_PITCH;
  }

  /** Pages: n lines written from a cursor at or below the margin start
      ceiling(n / 50) new pages. */
  lemma {:induction false} PagesFromBottom(y: int, n: nat)
    requires y <= BOTTOM_MARGIN
    ensures Resets(y, n) == (n + 49) / 50
    decreases n
  {
    if n > 0 {
      if n <= 50 {
        PageHolds50Lines(y, n);
      } else {
        PageHolds50Lines(y, 50);
        CursorShift(y, 50, n - 50);
        PagesFromBottom(CursorAfter(y, 50), n - 50);
      }
    }
  }

  /** addNewPageAndResetCursor: one A4 page more, and the cursor at the top
      margin. */
  method AddNewPageAndResetCursor(document: Document) returns (newY: int)
    modifies document
    ensures newY == RESET_Y
    ensures document.pages == old(document.pages) + 1
    ensures document.log == old(document.log) && document.closed == old(document.closed)
  {
    document.AddPage();
    newY := A4_HEIGHT - BOTTOM_MARGIN;
  }

  /** writeParagraph as evidently intended: each wrapped line at the cursor;
      whenever the cursor has reached the bottom margin, a new page is
      added and the lines go on from its top, on that page. */
  method WriteParagraph(document: Document, xPos: int, yPos: int, maxWidth: int, widthOf: string -> nat, paragraph: string)
    returns (lines: seq<string>)
    modifies document
    ensures lines == WrapLines(SplitOnWhitespace(paragraph), widthOf, widthOf(" "), maxWidth)
    ensures document.log == old(document.log) + ParagraphOps(xPos, yPos, WithFirstPage(old(document.pages)), lines)
    ensures document.pages == WithFirstPage(old(document.pages)) + Resets(yPos, |lines|)
    ensures document.closed == old(document.closed)
  {
    var page := document.GetOrCreateFirstPage();
    ghost var base := document.pages;
    var currentY := yPos;
    lines := SplitTextIntoLines(paragraph, widthOf, maxWidth);
    ghost var drawn: seq<DrawOp> := [];
    var i := 0;
    while i < |lines|
      invariant 0 <= i <= |lines|
      invariant currentY == CursorAfter(yPos, i)
      invariant page == if Resets(yPos, i) == 0 then 0 else base + Resets(yPos, i) - 1
      invariant drawn == ParagraphOps(xPos, yPos, base, lines[..i])
      invariant document.log == old(document.log) + drawn
      invariant document.pages == base + Resets(yPos, i)
      invariant document.closed == old(document.closed)
    {
      ParagraphStep(xPos, yPos, base, lines, i);
      ghost var lineY := LineY(currentY);
      if currentY <= BOTTOM_MARGIN {
        currentY := AddNewPageAndResetCursor(document);
        page := document.pages - 1;
      }
      assert currentY == lineY && page == LinePage(base, yPos, i);
      document.DrawTextOn(page, xPos, currentY, lines[i], FONT_SIZE, false);
      ghost var piece := [Text(page, xPos, currentY, lines[i], FONT_SIZE, false)];
      AppendAssociates(old(document.log), drawn, piece);
      drawn := drawn + piece;
      currentY := currentY - LINE_PITCH;
      i := i + 1;
    }
    assert lines[..i] == lines;
  }

  /* ---------- writeParagraph as written ---------- */

  /** How many lines fit from cursor yPos before it reaches the bottom
      margin: the cursor is above it before each of them, and at or below
      it after the last. */
  function Room(yPos: int): (room: nat)
    ensures room > 0 ==> yPos - LINE_PITCH * (room - 1) > BOTTOM_MARGIN
    ensures yPos - LINE_PITCH * room <= BOTTOM_MARGIN
  {
    if yPos <= BOTTOM_MARGIN then 0 else (yPos - BOTTOM_MARGIN - 1) / LINE_PITCH + 1
  }

  /** The lines that fit draw where the intended writer draws them: on
      page 0, one pitch apart, with no page added. */
  lemma {:induction false} FittingLines(xPos: int, yPos: int, pagesBefore: nat, lines: seq<string>, i: nat)
    requires i < |lines| && i < Room(yPos)
    ensures CursorAfter(yPos, i + 1) == yPos - LINE_PITCH * (i + 1) && Resets(yPos, i + 1) == 0
    ensures ParagraphOps(xPos, yPos, pagesBefore, lines[..i + 1])
              == ParagraphOps(xPos, yPos, pagesBefore, lines[..i])
                 + [Text(0, xPos, yPos - LINE_PITCH * i, lines[i], FONT_SIZE, false)]
  {
    CursorDescends(yPos, i + 1);
    CursorDescends(yPos, i);
    ParagraphStep(xPos, yPos, pagesBefore, lines, i);
  }

  /** A paragraph overflows as written exactly when the intended writer
      would start a page for it. */
  lemma OverflowIsPageBreak(yPos: int, n: nat)
    ensures n > Room(yPos) <==> Resets(yPos, n) > 0
  {
    var room := Room(yPos);
    if n <= room {
      CursorDescends(yPos, n);
    } else {
      CursorDescends(yPos, room);
      CursorShift(yPos, room + 1, n - room - 1);
    }
  }

  /** One pitch above the margin there is room for one line: a second line
      makes the written code fail, and the intended one add a page. */
  lemma OverflowExample()
    ensures Room(BOTTOM_MARGIN + LINE_PITCH) == 1
    ensures Resets(BOTTOM_MARGIN + LINE_PITCH, 2) == 1
  {
    OverflowIsPageBreak(BOTTOM_MARGIN + LINE_PITCH, 2);
    CursorDescends(BOTTOM_MARGIN + LINE_PITCH, 1);
  }

  /** writeParagraph as written: at the first line with the cursor at or
      below the margin, the text block is ended and the stream closed, and
      beginText on the closed stream fails before any page is added. The
      lines that fit are drawn on page 0. */
  method WriteParagraphAsWritten(document: Document, xPos: int, yPos: int, maxWidth: int, widthOf: string -> nat,
                                 paragraph: string)
    returns (lines: seq<string>, failed: bool)
    modifies document
    ensures lines == WrapLines(SplitOnWhitespace(paragraph), widthOf, widthOf(" "), maxWidth)
    ensures failed <==> |lines| > Room(yPos)
    ensures var drawn := if failed then Room(yPos) else |lines|;
            document.log == old(document.log) + ParagraphOps(xPos, yPos, WithFirstPage(old(document.pages)), lines[..drawn])
    ensures document.pages == WithFirstPage(old(document.pages))
    ensures document.closed == old(document.closed)
  {
    var page := document.GetOrCreateFirstPage();
    ghost var base := document.pages;
    var currentY := yPos;
    lines := SplitTextIntoLines(paragraph, widthOf, maxWidth);
    failed := false;
    var i := 0;
    while i < |lines|
      invariant 0 <= i <= |lines| && i <= Room(yPos)
      invariant currentY == yPos - LINE_PITCH * i
      invariant document.log == old(document.log) + ParagraphOps(xPos, yPos, base, lines[..i])
      invariant document.pages == base && document.closed == old(document.closed)
    {
      if currentY <= BOTTOM_MARGIN {
        failed := true;
        return;
      }
      FittingLines(xPos, yPos, base, lines, i);
      document.DrawText(xPos, currentY, lines[i], FONT_SIZE, false);
      currentY := currentY - LINE_PITCH;
      i := i + 1;
    }
    assert lines[..i] == lines;
  }

  /* ---------- the paragraph text ---------- */

  datatype ParagraphInfo = ParagraphInfo(
    measurementType: string,
    unit: string,
    minWorking: string,
    maxWorking: string,
    timeInRange: string,
    note: string,
    device: Device,
    start: Date,
    end: Date)

  /** The device's working range for the reading type. */
  function WorkingMin(device: Device, t: ReadingType): real
  {
    if t == Temperature then device.minWorkingTemp else device.minWorkingHumidity
  }

  function WorkingMax(device: Device, t: ReadingType): real
  {
    if t == Temperature then device.maxWorkingTemp else device.maxWorkingHumidity
  }

  /** What buildParagraphInfo collects, with fmt the "%.2f" formatter. */
  ghost function ParagraphInfoOf(device: Device, t: ReadingType, readings: seq<Reading>, start: Date, end: Date,
                                 fmt: real -> string): ParagraphInfo
  {
    var hasRun := HasRun(Values(readings), WorkingMin(device, t), WorkingMax(device, t));
    if t == Temperature then
      ParagraphInfo("temperatura", "°C", fmt(device.minWorkingTemp), fmt(device.maxWorkingTemp),
                    WorkingPeriodInTemperatureRange(device, readings),
                    if hasRun then TemperatureNote(device.deviceFunction) else "", device, start, end)
    else
      ParagraphInfo("umidade", "%", fmt(device.minWorkingHumidity), fmt(device.maxWorkingHumidity),
                    WorkingPeriodInHumidityRange(device, readings),
                    if hasRun then HUMIDITY_NOTE else "", device, start, end)
  }

  /** buildParagraphInfo: the type's words, bounds, time in range and note. */
  method BuildParagraphInfo(device: Device, t: ReadingType, readings: seq<Reading>, start: Date, end: Date,
                            fmt: real -> string) returns (info: ParagraphInfo)
    ensures info == ParagraphInfoOf(device, t, readings, start, end, fmt)
  {
    if t == Temperature {
      var note := NoteIfTemperatureNotWorkedInRange(device, readings);
      info := ParagraphInfo("temperatura", "°C", fmt(device.minWorkingTemp), fmt(device.maxWorkingTemp),
                            WorkingPeriodInTemperatureRange(device, readings), note, device, start, end);
    } else {
      var note := NoteIfHumidityNotWorkedInRange(device, readings);
      info := ParagraphInfo("umidade", "%", fmt(device.minWorkingHumidity), fmt(device.maxWorkingHumidity),
                            WorkingPeriodInHumidityRange(device, readings), note, device, start, end);
    }
  }

  const OPENING: string := "O controle de "
  const SENSOR_TEXT: string :=
    "foi realizado utilizando um sensor SONOFF, de identificação "
  const COLLECTION_TEXT: string :=
    ", com coleta em tempo real em intervalos médios de 3 minutos. Conforme registro compreendido no período de "

  /** The sentence about the observed range, up to the time in range. */
  function RangeSentence(info: ParagraphInfo): string
  {
    ", a " + info.measurementType + " de trabalho observada permaneceu no intervalo de "
    + info.minWorking + " a " + info.maxWorking + " " + info.unit + " durante " + info.timeInRange
  }

  /** Both sentences after the measured quantity, without the full stop. */
  function Sentences(info: ParagraphInfo): string
  {
    SENSOR_TEXT + info.device.tag + COLLECTION_TEXT + FormatPeriod(info.start, info.end) + RangeSentence(info)
  }

  /** createParagraphText: the sentences, a full stop, then the note. */
  function CreateParagraphText(info: ParagraphInfo): string
  {
    OPENING + info.measurementType + " " + Sentences(info) + "." + info.note
  }

  /** Text framed as head, a space, the middle and a full stop, then a note
      that is empty or ends with a parenthesis. */
  lemma FramedText(head: string, middle: string, note: string)
    requires note == "" || note[|note| - 1] == ')'
    ensures var text := head + " " + middle + "." + note;
            StartsWith(text, head + " ") && (text[|text| - 1] == '.' <==> note == "")
  {
    var text := head + " " + middle + "." + note;
    assert text[..|head| + 1] == head + " ";
  }

  /** The notes end with a closing parenthesis. */
  lemma NotesEndWithParenthesis()
    ensures EQUIPMENT_NOTE[|EQUIPMENT_NOTE| - 1] == ')'
    ensures ENVIRONMENT_NOTE[|ENVIRONMENT_NOTE| - 1] == ')'
    ensures HUMIDITY_NOTE[|HUMIDITY_NOTE| - 1] == ')'
  {
  }

  /** The text opens with the measured quantity and ends with the note,
      after a full stop. */
  lemma ParagraphTextEnds(info: ParagraphInfo)
    requires info.note == "" || info.note[|info.note| - 1] == ')'
    ensures var text := CreateParagraphText(info);
            StartsWith(text, OPENING + info.measurementType + " ")
            && (text[|text| - 1] == '.' <==> info.note == "")
  {
    FramedText(OPENING + info.measurementType, Sentences(info), info.note);
  }

  /** The info's note is empty or ends with a parenthesis, and it is empty
      exactly when no seven consecutive readings fell outside the type's
      working range. */
  lemma NoteOfInfo(device: Device, t: ReadingType, readings: seq<Reading>, start: Date, end: Date, fmt: real -> string)
    ensures var info := ParagraphInfoOf(device, t, readings, start, end, fmt);
            (info.note == "" || info.note[|info.note| - 1] == ')')
            && (info.note == "" <==> !HasRun(Values(readings), WorkingMin(device, t), WorkingMax(device, t)))
            && info.measurementType == Quantity(t)
  {
    NotesEndWithParenthesis();
  }

  /** The measured quantity as the paragraph names it. */
  function Quantity(t: ReadingType): string
  {
    if t == Temperature then "temperatura" else "umidade"
  }

  /** The paragraph opens by naming the measured quantity, and it ends with
      a full stop exactly when no seven consecutive readings fell outside the
      working range: otherwise it ends with the note's closing parenthesis. */
  ghost predicate TextShape(text: string, device: Device, t: ReadingType, readings: seq<Reading>)
  {
    StartsWith(text, OPENING + Quantity(t) + " ")
    && (text[|text| - 1] == '.' <==> !HasRun(Values(readings), WorkingMin(device, t), WorkingMax(device, t)))
  }

  /** The text createParagraphText makes from buildParagraphInfo has that
      shape. */
  lemma ParagraphOpeningAndEnd(device: Device, t: ReadingType, readings: seq<Reading>, start: Date, end: Date,
                               fmt: real -> string)
    ensures TextShape(CreateParagraphText(ParagraphInfoOf(device, t, readings, start, end, fmt)), device, t, readings)
  {
    NoteOfInfo(device, t, readings, start, end, fmt);
    ParagraphTextEnds(ParagraphInfoOf(device, t, readings, start, end, fmt));
  }

  /** insertParagraph: build the text, then write it (the regular font is
      always found, so the early return for a missing font never happens). */
  method InsertParagraph(document: Document, start: Date, end: Date, xPos: int, yPos: int, maxWidth: int,
                         device: Device, t: ReadingType, readings: seq<Reading>,
                         fmt: real -> string, widthOf: string -> nat)
    returns (lines: seq<string>)
    modifies document
    ensures lines == WrapLines(SplitOnWhitespace(CreateParagraphText(ParagraphInfoOf(device, t, readings, start, end, fmt))),
                               widthOf, widthOf(" "), maxWidth)
    ensures document.log == old(document.log) + ParagraphOps(xPos, yPos, WithFirstPage(old(document.pages)), lines)
    ensures document.pages == WithFirstPage(old(document.pages)) + Resets(yPos, |lines|)
    ensures document.closed == old(document.closed)
  {
    var info := BuildParagraphInfo(device, t, readings, start, end, fmt);
    var paragraph := CreateParagraphText(info);
    lines := WriteParagraph(document, xPos, yPos, maxWidth, widthOf, paragraph);
  }
}

/** The knowledge chunker: text is cut at newlines, then at spaces, then hard,
    and the parts are packed greedily into chunks of bounded length. */
module Chunker {
  import opened Sequences
  import opened Text

  const MAX_CHUNK_CHARS: nat := 1000
  const SEPARATOR: string := "\n\n"

  /** Every piece is non-empty and has no whitespace at its ends. */
  ghost predicate Solid(pieces: seq<string>) {
    forall i :: 0 <= i < |pieces| ==> pieces[i] != "" && Stripped(pieces[i])
  }

  ghost predicate Bounded(pieces: seq<string>, limit: nat) {
    forall i :: 0 <= i < |pieces| ==> |pieces[i]| <= limit
  }

  // ------------------------------------------------------- cutting a text

  /** `s.rfind(c)`. */
  function RFind(s: string, c: char): (i: int)
    ensures -1 <= i < |s|
    ensures i >= 0 ==> s[i] == c
    ensures forall j :: i < j < |s| ==> s[j] != c
  {
    if s == "" then -1
    else if s[|s| - 1] == c then |s| - 1
    else RFind(s[..|s| - 1], c)
  }

  /** Where a remainder longer than the limit is cut. */
  function CutPoint(remaining: string, limit: nat): (k: nat)
    requires |remaining| > limit
    ensures k <= limit
    ensures limit >= 1 ==> k >= 1
  {
    var newline := RFind(remaining[..limit + 1], '\n');
    var space := RFind(remaining[..limit + 1], ' ');
    if newline > 0 then newline else if space > 0 then space else limit
  }

  /** What is left after one turn of the loop. */
  function Rest(remaining: string, limit: nat): (r: string)
    requires |remaining| > limit
    ensures Stripped(r)
    ensures limit >= 1 ==> |r| < |remaining|
  {
    Strip(remaining[CutPoint(remaining, limit)..])
  }

  lemma RestNonEmpty(remaining: string, limit: nat)
    requires |remaining| > limit && Stripped(remaining)
    ensures Rest(remaining, limit) != ""
  {
    var tail := remaining[CutPoint(remaining, limit)..];
    assert tail == tail[..|tail| - 1] + [remaining[|remaining| - 1]];
    VisibleConcat(tail[..|tail| - 1], [remaining[|remaining| - 1]]);
    BlankIffNothingVisible(tail);
  }

  /** The parts of a stripped, non-empty text. */
  function Parts(remaining: string, limit: nat): seq<string>
    requires limit >= 1 && remaining != "" && Stripped(remaining)
    decreases |remaining|
  {
    if |remaining| <= limit then [remaining]
    else
      RestNonEmpty(remaining, limit);
      [Strip(remaining[..CutPoint(remaining, limit)])] + Parts(Rest(remaining, limit), limit)
  }

  function SplitParts(text: string, limit: nat): seq<string>
    requires limit >= 1
  {
    if Blank(text) then [""] else Parts(Strip(text), limit)
  }

  lemma HeadNonEmpty(remaining: string, limit: nat)
    requires limit >= 1 && |remaining| > limit && Stripped(remaining)
    ensures Strip(remaining[..CutPoint(remaining, limit)]) != ""
  {
    var head := remaining[..CutPoint(remaining, limit)];
    assert head == [remaining[0]] + head[1..];
    BlankIffNothingVisible(head);
  }

  method SplitText(text: string, limit: nat) returns (parts: seq<string>)
    requires limit >= 1
    ensures parts == SplitParts(text, limit)
  {
    var remaining := Strip(text);
    if remaining == "" {
      return [""];
    }
    parts := [];
    ghost var whole := Parts(remaining, limit);
    while remaining != ""
      invariant Stripped(remaining) && remaining != ""
      invariant parts + Parts(remaining, limit) == whole
      decreases |remaining|
    {
      if |remaining| <= limit {
        parts := parts + [remaining];
        break;
      }
      var splitAt := RFind(remaining[..limit + 1], '\n');
      if splitAt <= 0 {
        splitAt := RFind(remaining[..limit + 1], ' ');
      }
      if splitAt <= 0 {
        splitAt := limit;
      }
      assert splitAt == CutPoint(remaining, limit);
      HeadNonEmpty(remaining, limit);
      RestNonEmpty(remaining, limit);
      var part := Strip(remaining[..splitAt]);
      ghost var before, rest := parts, Strip(remaining[splitAt..]);
      Assoc(before, [part], Parts(rest, limit));
      if part != "" {
        parts := parts + [part];
      }
      remaining := Strip(remaining[splitAt..]);
    }
    assert parts == whole;
    // The fallback for an empty list of parts is never taken.
    assert parts != [] by { PartsShape(Strip(text), limit); }
  }

  /** With a limit of 0 a turn of the loop leaves its remainder as it was, so
      the loop ends for every text exactly when the limit is at least 1. */
  lemma ProgressIffPositiveLimit(limit: nat)
    ensures limit >= 1 <==>
            forall s: string :: Stripped(s) && |s| > limit ==> |Rest(s, limit)| < |s|
  {
    if limit == 0 {
      var s := "word";
      assert IsSpace(' ') && IsSpace('\n');
      assert s[..1] == "w";
      assert CutPoint(s, 0) == 0;
      assert s[0..] == s;
      StripStripped(s);
      assert !(|Rest(s, 0)| < |s|);
    }
  }

  /** Which position is cut: the last newline of the first `limit + 1`
      characters, else their last space, else the limit itself; so a word is
      cut only when those characters hold neither. */
  lemma CutRule(remaining: string, limit: nat)
    requires limit >= 1 && |remaining| > limit && Stripped(remaining)
    ensures var k, window := CutPoint(remaining, limit), remaining[..limit + 1];
            && ('\n' in window ==> remaining[k] == '\n' && '\n' !in window[k + 1..])
            && ('\n' !in window && ' ' in window ==> remaining[k] == ' ' && ' ' !in window[k + 1..])
            && ('\n' !in window && ' ' !in window ==> k == limit)
    ensures var k := CutPoint(remaining, limit);
            !IsSpace(remaining[k - 1]) && !IsSpace(remaining[k])
            ==> '\n' !in remaining[..limit + 1] && ' ' !in remaining[..limit + 1]
  {
    var window := remaining[..limit + 1];
    assert !IsSpace(window[0]);
    var newline, space := RFind(window, '\n'), RFind(window, ' ');
    if '\n' in window {
      var i :| 0 <= i < |window| && window[i] == '\n';
      assert newline >= i;
    }
    if ' ' in window {
      var i :| 0 <= i < |window| && window[i] == ' ';
      assert space >= i;
    }
  }

  lemma {:induction false} PartsShape(remaining: string, limit: nat)
    requires limit >= 1 && remaining != "" && Stripped(remaining)
    ensures Parts(remaining, limit) != []
    ensures Solid(Parts(remaining, limit)) && Bounded(Parts(remaining, limit), limit)
    decreases |remaining|
  {
    if |remaining| > limit {
      HeadNonEmpty(remaining, limit);
      RestNonEmpty(remaining, limit);
      PartsShape(Rest(remaining, limit), limit);
    }
  }

  lemma CutVisible(remaining: string, k: nat)
    requires k <= |remaining|
    ensures Visible(Strip(remaining[..k])) + Visible(Strip(remaining[k..])) == Visible(remaining)
  {
    Cut(remaining, k);
    VisibleConcat(remaining[..k], remaining[k..]);
    VisibleStrip(remaining[..k]);
    VisibleStrip(remaining[k..]);
  }

  lemma {:induction false} PartsVisible(remaining: string, limit: nat)
    requires limit >= 1 && remaining != "" && Stripped(remaining)
    ensures Visible(Flatten(Parts(remaining, limit))) == Visible(remaining)
    decreases |remaining|
  {
    if |remaining| <= limit {
      FlattenSingle(remaining);
    } else {
      var k := CutPoint(remaining, limit);
      RestNonEmpty(remaining, limit);
      var part, parts := Strip(remaining[..k]), Parts(Rest(remaining, limit), limit);
      PartsVisible(Rest(remaining, limit), limit);
      CutVisible(remaining, k);
      ConsTail(part, parts);
      VisibleConcat(part, Flatten(parts));
    }
  }

  /** Number of cuts that separate two visible characters. */
  function WordCuts(remaining: string, limit: nat): nat
    requires limit >= 1 && remaining != "" && Stripped(remaining)
    decreases |remaining|
  {
    if |remaining| <= limit then 0
    else
      RestNonEmpty(remaining, limit);
      var k := CutPoint(remaining, limit);
      (if IsSpace(remaining[k - 1]) || IsSpace(remaining[k]) then 0 else 1)
      + WordCuts(Rest(remaining, limit), limit)
  }

  lemma CutWords(remaining: string, k: nat)
    requires 0 < k < |remaining|
    ensures |Words(Strip(remaining[..k]))| + |Words(Strip(remaining[k..]))|
         == |Words(remaining)| + (if IsSpace(remaining[k - 1]) || IsSpace(remaining[k]) then 0 else 1)
  {
    var head, tail := remaining[..k], remaining[k..];
    Cut(remaining, k);
    WordStartsCut(head, tail);
    WordStartsStrip(head);
    WordStartsStrip(tail);
    WordsAreWordStarts(Strip(head));
    WordsAreWordStarts(Strip(tail));
    WordsAreWordStarts(remaining);
  }

  lemma {:induction false} PartsWords(remaining: string, limit: nat)
    requires limit >= 1 && remaining != "" && Stripped(remaining)
    ensures SumWords(Parts(remaining, limit)) == |Words(remaining)| + WordCuts(remaining, limit)
    decreases |remaining|
  {
    if |remaining| <= limit {
      assert SumWords([remaining][1..]) == 0;
    } else {
      var k := CutPoint(remaining, limit);
      var rest := Rest(remaining, limit);
      RestNonEmpty(remaining, limit);
      PartsWords(rest, limit);
      CutWords(remaining, k);
      ConsTail(Strip(remaining[..k]), Parts(rest, limit));
    }
  }

  // ------------------------------------------------ documents to paragraphs

  /** `s.replace("\r\n", "\n")`. */
  function ReplaceCrLf(s: string): string {
    if s == "" then ""
    else if |s| >= 2 && s[0] == '\r' && s[1] == '\n' then "\n" + ReplaceCrLf(s[2..])
    else [s[0]] + ReplaceCrLf(s[1..])
  }

  /** `s.replace("\r", "\n")`. */
  function ReplaceCr(s: string): string {
    if s == "" then "" else [if s[0] == '\r' then '\n' else s[0]] + ReplaceCr(s[1..])
  }

  function Normalize(content: string): string {
    Strip(ReplaceCr(ReplaceCrLf(content)))
  }

  lemma {:induction false} ReplaceCrLfKeeps(s: string, gap: bool)
    ensures Visible(ReplaceCrLf(s)) == Visible(s)
    ensures WordStarts(ReplaceCrLf(s), gap) == WordStarts(s, gap)
  {
    if s == "" {
    } else if |s| >= 2 && s[0] == '\r' && s[1] == '\n' {
      ReplaceCrLfKeeps(s[2..], true);
      var r := ReplaceCrLf(s[2..]);
      assert ("\n" + r)[1..] == r;
      assert s[1..][1..] == s[2..];
    } else {
      ReplaceCrLfKeeps(s[1..], IsSpace(s[0]));
      var r := ReplaceCrLf(s[1..]);
      assert ([s[0]] + r)[1..] == r;
    }
  }

  lemma {:induction false} ReplaceCrKeeps(s: string, gap: bool)
    ensures Visible(ReplaceCr(s)) == Visible(s)
    ensures WordStarts(ReplaceCr(s), gap) == WordStarts(s, gap)
  {
    if s != "" {
      ReplaceCrKeeps(s[1..], IsSpace(s[0]));
      var c := if s[0] == '\r' then '\n' else s[0];
      assert ([c] + ReplaceCr(s[1..]))[1..] == ReplaceCr(s[1..]);
    }
  }

  lemma NormalizeKeeps(content: string)
    ensures Visible(Normalize(content)) == Visible(content)
    ensures |Words(Normalize(content))| == |Words(content)|
    ensures Normalize(content) == "" <==> Blank(content)
  {
    var r := ReplaceCr(ReplaceCrLf(content));
    ReplaceCrLfKeeps(content, true);
    ReplaceCrKeeps(ReplaceCrLf(content), true);
    VisibleStrip(r);
    WordStartsStrip(r);
    WordsAreWordStarts(Normalize(content));
    WordsAreWordStarts(content);
    BlankIffNothingVisible(r);
    BlankIffNothingVisible(content);
  }

  // --------------------------------------------------------- line ends

  datatype LineEnd = CrLf | Cr | Lf

  function EndText(end: LineEnd): string {
    match end
    case CrLf => ['\r', '\n']
    case Cr => ['\r']
    case Lf => ['\n']
  }

  /** Lines with the given line ends between them. */
  function Lined(lines: seq<string>, ends: seq<LineEnd>): string
    requires |lines| == |ends| + 1
  {
    if ends == [] then lines[0] else lines[0] + (EndText(ends[0]) + Lined(lines[1..], ends[1..]))
  }

  predicate IsLine(line: string) {
    '\r' !in line && '\n' !in line
  }

  /** Every CR that is followed by an LF is one line end with it. */
  ghost predicate AreLines(lines: seq<string>, ends: seq<LineEnd>)
    requires |lines| == |ends| + 1
  {
    && (forall i :: 0 <= i < |lines| ==> IsLine(lines[i]))
    && forall i :: 0 < i < |ends| && ends[i - 1] == Cr && lines[i] == "" ==> ends[i] != Lf
  }

  lemma {:induction false} ReplacePastLine(line: string, x: string)
    requires IsLine(line)
    ensures ReplaceCrLf(line + x) == line + ReplaceCrLf(x)
    ensures ReplaceCr(line + x) == line + ReplaceCr(x)
  {
    if line == "" {
      Empty(x);
      Empty(ReplaceCrLf(x));
      Empty(ReplaceCr(x));
    } else {
      ReplacePastLine(line[1..], x);
      ConcatTail(line, x);
      Uncons(line);
      Assoc([line[0]], line[1..], ReplaceCrLf(x));
      Assoc([line[0]], line[1..], ReplaceCr(x));
    }
  }

  lemma ReplaceEnd(end: LineEnd, x: string)
    requires end == Cr && x != "" ==> x[0] != '\n'
    ensures ReplaceCrLf(EndText(end) + x) == (if end == Cr then ['\r'] else ['\n']) + ReplaceCrLf(x)
  {
    var s := EndText(end) + x;
    if end == CrLf {
      assert s[0] == '\r' && s[1] == '\n' && s[2..] == x;
    } else {
      ConsTail(EndText(end)[0], x);
    }
  }

  lemma ReplaceLast(c: char, x: string)
    requires c == '\r' || c == '\n'
    ensures ReplaceCr([c] + x) == ['\n'] + ReplaceCr(x)
  {
    ConsTail(c, x);
  }

  lemma RestOfLines(lines: seq<string>, ends: seq<LineEnd>)
    requires |lines| == |ends| + 1 && AreLines(lines, ends) && ends != []
    ensures AreLines(lines[1..], ends[1..])
    ensures var rest := Lined(lines[1..], ends[1..]);
            ends[0] == Cr && rest != "" ==> rest[0] != '\n'
  {
    forall i | 0 < i < |ends[1..]| && ends[1..][i - 1] == Cr && lines[1..][i] == ""
      ensures ends[1..][i] != Lf
    {
      assert ends[1..][i - 1] == ends[i] && lines[1..][i] == lines[i + 1];
    }
    assert IsLine(lines[1]);
    if |ends| > 1 && lines[1] == "" {
      Empty(EndText(ends[1]) + Lined(lines[1..][1..], ends[1..][1..]));
    }
  }

  /** Whatever mix of line ends a text has, they all become newlines, one for one. */
  lemma {:induction false} LineEndsBecomeNewlines(lines: seq<string>, ends: seq<LineEnd>)
    requires |lines| == |ends| + 1 && AreLines(lines, ends)
    ensures ReplaceCr(ReplaceCrLf(Lined(lines, ends))) == Join(['\n'], lines)
    decreases |ends|
  {
    var line := lines[0];
    if ends == [] {
      ReplacePastLine(line, "");
      Empty(line);
    } else {
      var end, rest := ends[0], Lined(lines[1..], ends[1..]);
      RestOfLines(lines, ends);
      LineEndsBecomeNewlines(lines[1..], ends[1..]);
      var c, replaced := if end == Cr then '\r' else '\n', ReplaceCrLf(rest);
      ReplacePastLine(line, EndText(end) + rest);
      ReplaceEnd(end, rest);
      ReplacePastLine(line, [c] + replaced);
      ReplaceLast(c, replaced);
      Assoc(line, ['\n'], ReplaceCr(replaced));
    }
  }

  /** The normalized text has the lines of the document, without the whitespace at
      its ends. */
  lemma NormalizedLines(lines: seq<string>, ends: seq<LineEnd>)
    requires |lines| == |ends| + 1 && AreLines(lines, ends)
    ensures Normalize(Lined(lines, ends)) == Strip(Join(['\n'], lines))
  {
    LineEndsBecomeNewlines(lines, ends);
  }

  // ------------------------------------------------------- blank lines

  /** Two newlines in a row, from position `k` on. */
  predicate BlankAt(s: string, k: int) {
    0 <= k < |s| - 1 && s[k] == '\n' && s[k + 1] == '\n'
  }

  /** `s.find("\n\n")`, or the length when there is none. */
  function FindBlankLine(s: string): (i: nat)
    ensures i <= |s|
    ensures i < |s| ==> BlankAt(s, i) && s[i..i + 2] == SEPARATOR
    ensures forall k :: k < i ==> !BlankAt(s, k)
  {
    if |s| < 2 then |s|
    else if s[..2] == SEPARATOR then 0
    else
      BlankAtFront(s);
      assert forall k :: BlankAt(s, k) && k >= 1 ==> BlankAt(s[1..], k - 1);
      1 + FindBlankLine(s[1..])
  }

  lemma BlankAtFront(s: string)
    requires |s| >= 2
    ensures BlankAt(s, 0) <==> s[..2] == SEPARATOR
  {
    assert s[..2] == [s[0]] + [s[1]] && SEPARATOR == ['\n'] + ['\n'];
  }

  /** Blank lines of a part of a text. */
  lemma BlankWithin(s: string, m: nat, k: int)
    requires m <= |s| && k >= 0
    ensures BlankAt(s[m..], k) <==> BlankAt(s, m + k)
    ensures BlankAt(s[..m], k) <==> k < m - 1 && BlankAt(s, k)
  {
  }

  lemma SliceOfRest(s: string, m: nat, i: nat, j: nat)
    requires m <= i <= j <= |s|
    ensures s[m..][i - m..j - m] == s[i..j]
  {
  }

  /** `s.split("\n\n")`. */
  function SplitBlankLines(s: string): seq<string> {
    var i := FindBlankLine(s);
    if i < |s| then [s[..i]] + SplitBlankLines(s[i + 2..]) else [s]
  }

  /** The pieces of a text between its blank lines, where each blank line is taken as
      early as possible: none holds a blank line, and none but the last ends in a
      newline. */
  ghost predicate IsSplit(s: string, pieces: seq<string>) {
    && pieces != [] && Join(SEPARATOR, pieces) == s
    && (forall i :: 0 <= i < |pieces| ==> forall k :: !BlankAt(pieces[i], k))
    && (forall i :: 0 <= i < |pieces| - 1 ==> pieces[i] == "" || pieces[i][|pieces[i]| - 1] != '\n')
  }

  lemma ThreeParts(s: string, i: nat)
    requires i + 2 <= |s| && s[i..i + 2] == SEPARATOR
    ensures s == s[..i] + SEPARATOR + s[i + 2..]
  {
  }

  lemma FirstPiece(s: string)
    ensures forall k :: !BlankAt(s[..FindBlankLine(s)], k)
    ensures var head := s[..FindBlankLine(s)];
            FindBlankLine(s) < |s| ==> head == "" || head[|head| - 1] != '\n'
  {
    var i := FindBlankLine(s);
    forall k | BlankAt(s[..i], k)
      ensures false
    {
      BlankWithin(s, i, k);
    }
    if 0 < i < |s| {
      assert !BlankAt(s, i - 1);
    }
  }

  lemma SplitCons(s: string, head: string, tail: string, rest: seq<string>)
    requires s == head + SEPARATOR + tail && IsSplit(tail, rest)
    requires forall k :: !BlankAt(head, k)
    requires head == "" || head[|head| - 1] != '\n'
    ensures IsSplit(s, [head] + rest)
  {
    JoinHead(SEPARATOR, head, rest);
    Assoc(head, SEPARATOR, tail);
  }

  lemma {:induction false} SplitIsSplit(s: string)
    ensures IsSplit(s, SplitBlankLines(s))
  {
    var i := FindBlankLine(s);
    FirstPiece(s);
    if i < |s| {
      var rest := s[i + 2..];
      SplitIsSplit(rest);
      ThreeParts(s, i);
      SplitCons(s, s[..i], rest, SplitBlankLines(rest));
    } else {
      TakeAll(s);
    }
  }

  /** Where the first piece of a split ends is the first blank line. */
  lemma FirstPieceEnds(s: string, head: string, tail: string)
    requires s == head + SEPARATOR + tail
    requires forall k :: !BlankAt(head, k)
    requires head == "" || head[|head| - 1] != '\n'
    ensures FindBlankLine(s) == |head|
  {
    var n := |head|;
    assert SEPARATOR == ['\n', '\n'];
    assert BlankAt(s, n);
    forall k | k < n
      ensures !BlankAt(s, k)
    {
      if 0 <= k < n - 1 {
        assert s[k] == head[k] && s[k + 1] == head[k + 1];
        assert !BlankAt(head, k);
      }
    }
  }

  lemma {:induction false} SplitIsUnique(s: string, pieces: seq<string>)
    requires IsSplit(s, pieces)
    ensures pieces == SplitBlankLines(s)
    decreases |pieces|
  {
    if |pieces| == 1 {
      assert forall k :: !BlankAt(s, k);
      assert pieces == [s];
    } else {
      var head, rest := pieces[0], pieces[1..];
      var tail := Join(SEPARATOR, rest);
      FirstPieceEnds(s, head, tail);
      assert s[..|head|] == head && s[|head| + 2..] == tail;
      assert IsSplit(tail, rest);
      SplitIsUnique(tail, rest);
    }
  }

  /** A text is split at its blank lines and nowhere else. */
  lemma SplitIff(s: string, pieces: seq<string>)
    ensures pieces == SplitBlankLines(s) <==> IsSplit(s, pieces)
  {
    SplitIsSplit(s);
    if IsSplit(s, pieces) {
      SplitIsUnique(s, pieces);
    }
  }

  // ---------------------------------------------------------- stretches

  /** A longest stretch without a blank line of the text from `m` on. */
  ghost predicate StretchFrom(s: string, m: nat, i: nat, j: nat) {
    && m <= i < j <= |s| && (forall k :: i <= k < j - 1 ==> !BlankAt(s, k))
    && (i == m || BlankAt(s, i - 1)) && (j == |s| || BlankAt(s, j - 1))
  }

  ghost predicate IsStretch(s: string, i: nat, j: nat) {
    StretchFrom(s, 0, i, j)
  }

  lemma LeadingSpace(x: string)
    ensures Strip("\n" + x) == Strip(x)
  {
    ConsTail('\n', x);
  }

  lemma TrailingSpace(x: string)
    ensures Strip(x + "\n") == Strip(x)
  {
    StripLeftSnoc(x, '\n');
    var r := StripLeft(x);
    if r != "" {
      SnocFront(r, '\n');
    }
  }

  lemma {:induction false} StripLeftSnoc(x: string, c: char)
    requires IsSpace(c)
    ensures StripLeft(x + [c]) == if StripLeft(x) == "" then "" else StripLeft(x) + [c]
  {
    if x == "" {
      assert ("" + [c])[1..] == "";
    } else if IsSpace(x[0]) {
      StripLeftSnoc(x[1..], c);
      ConcatTail(x, [c]);
    }
  }

  lemma {:induction false} ParagraphsHold(pieces: seq<string>, piece: string)
    requires piece in pieces && !Blank(piece)
    ensures Strip(piece) in Paragraphs(pieces)
  {
    if pieces[0] != piece {
      Uncons(pieces);
      ParagraphsHold(pieces[1..], piece);
    }
  }

  /** The first stretch is the first piece, up to a newline. */
  lemma FirstStretch(s: string, j: nat)
    requires IsStretch(s, 0, j)
    ensures Strip(s[0..j]) == Strip(SplitBlankLines(s)[0])
  {
    var i := FindBlankLine(s);
    if i == |s| {
      assert forall k :: !BlankAt(s, k);
      assert s[0..j] == s;
    } else {
      assert j == i + 1;
      assert s[0..j] == s[..i] + "\n";
      TrailingSpace(s[..i]);
    }
  }

  lemma StretchOfRest(s: string, m: nat, i: nat, j: nat)
    requires StretchFrom(s, m, i, j)
    ensures IsStretch(s[m..], i - m, j - m) && s[m..][i - m..j - m] == s[i..j]
  {
    SliceOfRest(s, m, i, j);
    forall k | i - m <= k < j - m - 1
      ensures !BlankAt(s[m..], k)
    {
      BlankWithin(s, m, k);
    }
    if i > m {
      BlankWithin(s, m, i - m - 1);
    }
    if j < |s| {
      BlankWithin(s, m, j - m - 1);
    }
  }

  /** A later stretch begins with the second newline of the first blank line, or after
      it. */
  lemma LaterStart(s: string, i: nat, j: nat) returns (start: nat)
    requires i > 0 && IsStretch(s, i, j) && !Blank(s[i..j])
    ensures StretchFrom(s, FindBlankLine(s) + 2, start, j)
    ensures Strip(s[start..j]) == Strip(s[i..j])
  {
    start := i;
    if i == FindBlankLine(s) + 1 {
      assert s[i..j] == "\n" + s[i + 1..j];
      LeadingSpace(s[i + 1..j]);
      start := i + 1;
      assert s[start..j] != "" by {
        StripStripped("");
      }
    }
  }

  /** The pieces of `rest` are pieces of `s`. */
  ghost predicate Ends(s: string, rest: string) {
    |rest| < |s| && forall p :: p in SplitBlankLines(rest) ==> p in SplitBlankLines(s)
  }

  lemma RestEnds(s: string, m: nat)
    requires m == FindBlankLine(s) + 2 <= |s|
    ensures Ends(s, s[m..])
  {
    assert SplitBlankLines(s) == [s[..m - 2]] + SplitBlankLines(s[m..]);
  }

  /** A later stretch is one of the rest of the text. */
  lemma LaterStretch(s: string, i: nat, j: nat) returns (rest: string, i': nat, j': nat)
    requires i > 0 && IsStretch(s, i, j) && !Blank(s[i..j])
    ensures Ends(s, rest) && IsStretch(rest, i', j') && Strip(rest[i'..j']) == Strip(s[i..j])
  {
    var start := LaterStart(s, i, j);
    var m := FindBlankLine(s) + 2;
    StretchOfRest(s, m, start, j);
    RestEnds(s, m);
    rest, i', j' := s[m..], start - m, j - m;
  }

  /** Up to newlines at its ends, a stretch that holds more than whitespace is a piece
      of the split. */
  lemma {:induction false} StretchIsPiece(s: string, i: nat, j: nat) returns (piece: string)
    requires IsStretch(s, i, j) && !Blank(s[i..j])
    ensures piece in SplitBlankLines(s) && Strip(piece) == Strip(s[i..j])
    decreases |s|
  {
    if i == 0 {
      FirstStretch(s, j);
      piece := SplitBlankLines(s)[0];
    } else {
      var rest, i', j' := LaterStretch(s, i, j);
      piece := StretchIsPiece(rest, i', j');
    }
  }

  /** The stripped, non-blank pieces. */
  function Paragraphs(pieces: seq<string>): seq<string> {
    if pieces == [] then []
    else (if Blank(pieces[0]) then [] else [Strip(pieces[0])]) + Paragraphs(pieces[1..])
  }

  lemma BlankLineVisible(a: string, b: string)
    ensures Visible(a + SEPARATOR + b) == Visible(a) + Visible(b)
  {
    assert SEPARATOR[1..][1..] == "";
    VisibleConcat(a + SEPARATOR, b);
    VisibleConcat(a, SEPARATOR);
  }

  lemma BlankLineWords(a: string, b: string)
    ensures |Words(a + SEPARATOR + b)| == |Words(a)| + |Words(b)|
  {
    var pair := [a, b];
    WordsJoin(pair);
    assert pair[1..] == [b];
    assert Join(SEPARATOR, pair) == a + SEPARATOR + b;
    assert SumWords([b]) == |Words(b)| + SumWords([b][1..]);
    assert SumWords([b][1..]) == 0;
  }

  lemma {:induction false} SplitBlankLinesKeeps(s: string)
    ensures Visible(Flatten(SplitBlankLines(s))) == Visible(s)
    ensures SumWords(SplitBlankLines(s)) == |Words(s)|
  {
    var i := FindBlankLine(s);
    if i < |s| {
      var a, b := s[..i], s[i + 2..];
      SplitBlankLinesKeeps(b);
      assert s == a + SEPARATOR + b;
      BlankLineVisible(a, b);
      BlankLineWords(a, b);
      var tail := SplitBlankLines(b);
      assert ([a] + tail)[1..] == tail;
      VisibleConcat(a, Flatten(tail));
    } else {
      assert [s][1..] == [];
      assert Flatten([s]) == s + Flatten<char>([]) == s;
    }
  }

  lemma StripKeepsBoth(head: string)
    ensures Visible(Strip(head)) == Visible(head) && |Words(Strip(head))| == |Words(head)|
    ensures Blank(head) ==> Visible(head) == ""
  {
    VisibleStrip(head);
    WordStartsStrip(head);
    WordsAreWordStarts(head);
    WordsAreWordStarts(Strip(head));
    BlankIffNothingVisible(head);
  }

  lemma {:induction false} ParagraphsKeep(pieces: seq<string>)
    ensures Visible(Flatten(Paragraphs(pieces))) == Visible(Flatten(pieces))
    ensures SumWords(Paragraphs(pieces)) == SumWords(pieces)
    ensures Solid(Paragraphs(pieces))
  {
    if pieces != [] {
      var head, rest := pieces[0], pieces[1..];
      ParagraphsKeep(rest);
      VisibleConcat(head, Flatten(rest));
      StripKeepsBoth(head);
      if Blank(head) {
        Empty(Paragraphs(rest));
        Empty(Visible(Flatten(rest)));
      } else {
        VisibleConcat(Strip(head), Flatten(Paragraphs(rest)));
        ConsTail(Strip(head), Paragraphs(rest));
      }
    }
  }

  function AllParts(paragraphs: seq<string>, limit: nat): seq<string>
    requires limit >= 1
  {
    if paragraphs == [] then [] else SplitParts(paragraphs[0], limit) + AllParts(paragraphs[1..], limit)
  }

  ghost function AllWordCuts(paragraphs: seq<string>, limit: nat): nat
    requires limit >= 1 && Solid(paragraphs)
  {
    if paragraphs == [] then 0 else WordCuts(paragraphs[0], limit) + AllWordCuts(paragraphs[1..], limit)
  }

  lemma ConcatKeeps(a: seq<string>, b: seq<string>, limit: nat)
    requires Solid(a) && Bounded(a, limit) && Solid(b) && Bounded(b, limit)
    ensures Solid(a + b) && Bounded(a + b, limit)
    ensures Visible(Flatten(a + b)) == Visible(Flatten(a)) + Visible(Flatten(b))
    ensures SumWords(a + b) == SumWords(a) + SumWords(b)
  {
    SumWordsConcat(a, b);
    FlattenConcat(a, b);
    VisibleConcat(Flatten(a), Flatten(b));
  }

  lemma {:induction false} AllPartsKeep(paragraphs: seq<string>, limit: nat)
    requires limit >= 1 && Solid(paragraphs)
    ensures paragraphs != [] ==> AllParts(paragraphs, limit) != []
    ensures Solid(AllParts(paragraphs, limit)) && Bounded(AllParts(paragraphs, limit), limit)
    ensures Visible(Flatten(AllParts(paragraphs, limit))) == Visible(Flatten(paragraphs))
    ensures SumWords(AllParts(paragraphs, limit)) == SumWords(paragraphs) + AllWordCuts(paragraphs, limit)
  {
    if paragraphs != [] {
      var head, rest := paragraphs[0], paragraphs[1..];
      AllPartsKeep(rest, limit);
      StripStripped(head);
      PartsShape(head, limit);
      PartsVisible(head, limit);
      PartsWords(head, limit);
      ConcatKeeps(Parts(head, limit), AllParts(rest, limit), limit);
      VisibleConcat(head, Flatten(rest));
    }
  }

  // ------------------------------------------------------- greedy packing

  /** The packing loop, started with `current` as the chunk being built. */
  function Pack(current: string, parts: seq<string>, limit: nat): seq<string>
    decreases |parts|
  {
    if parts == [] then (if current == "" then [] else [current])
    else if current == "" then Pack(parts[0], parts[1..], limit)
    else if |current + SEPARATOR + parts[0]| <= limit
    then Pack(current + SEPARATOR + parts[0], parts[1..], limit)
    else [current] + Pack(parts[0], parts[1..], limit)
  }

  lemma {:induction false} PackMonotone(a: string, b: string, parts: seq<string>, limit: nat)
    requires |a| <= |b|
    ensures |Pack(a, parts, limit)| <= |Pack(b, parts, limit)|
    ensures |Pack(b, parts, limit)| <= 1 + |Pack(a, parts, limit)|
    decreases |parts|
  {
    if parts != [] {
      var p, rest := parts[0], parts[1..];
      PackMonotone(a + SEPARATOR + p, b + SEPARATOR + p, rest, limit);
      PackMonotone(p, a + SEPARATOR + p, rest, limit);
      PackMonotone(p, b + SEPARATOR + p, rest, limit);
    }
  }

  /** A group that fits is swallowed without closing a chunk. */
  lemma {:induction false} PackGroup(current: string, group: seq<string>, rest: seq<string>, limit: nat)
    requires group != [] ==> |Join(SEPARATOR, [current] + group)| <= limit
    ensures |Pack(current, group + rest, limit)| <= 1 + |Pack("", rest, limit)|
    decreases |group|
  {
    if group == [] {
      assert group + rest == rest;
      PackMonotone("", current, rest, limit);
    } else {
      var p, tail := group[0], group[1..];
      assert (group + rest)[1..] == tail + rest;
      var joined := current + SEPARATOR + p;
      JoinAbsorb(SEPARATOR, current, p, tail);
      assert [current] + group == [current, p] + tail;
      JoinLength(SEPARATOR, [joined] + tail);
      if current == "" {
        assert |Join(SEPARATOR, [p] + tail)| <= |Join(SEPARATOR, [joined] + tail)| by {
          JoinHead(SEPARATOR, p, tail);
          JoinHead(SEPARATOR, joined, tail);
        }
        PackGroup(p, tail, rest, limit);
      } else {
        JoinHead(SEPARATOR, joined, tail);
        PackGroup(joined, tail, rest, limit);
      }
    }
  }

  lemma JoinHead(sep: string, head: string, tail: seq<string>)
    ensures Join(sep, [head] + tail) == head + (if tail == [] then "" else sep + Join(sep, tail))
  {
    assert ([head] + tail)[1..] == tail;
  }

  lemma JoinAbsorb(sep: string, a: string, b: string, tail: seq<string>)
    ensures Join(sep, [a, b] + tail) == Join(sep, [a + sep + b] + tail)
  {
    assert [a, b] + tail == [a] + ([b] + tail);
    JoinHead(sep, a, [b] + tail);
    JoinHead(sep, b, tail);
    JoinHead(sep, a + sep + b, tail);
  }

  lemma JoinLength(sep: string, parts: seq<string>)
    requires parts != []
    ensures |parts[0]| <= |Join(sep, parts)|
  {
  }

  /** Greedy packing is optimal: no order-preserving grouping of the same parts
      into bounded groups has fewer groups than the loop makes chunks. */
  lemma {:induction false} GreedyIsOptimal(groups: seq<seq<string>>, limit: nat)
    requires forall g :: g in groups ==> |Join(SEPARATOR, g)| <= limit
    ensures |Pack("", Flatten(groups), limit)| <= |groups|
  {
    if groups != [] {
      var group, rest := groups[0], groups[1..];
      GreedyIsOptimal(rest, limit);
      if group == [] {
        assert Flatten(groups) == Flatten(rest);
      } else {
        var p, tail := group[0], group[1..];
        assert group == [p] + tail;
        assert (group + Flatten(rest))[1..] == tail + Flatten(rest);
        PackGroup(p, tail, Flatten(rest), limit);
      }
    }
  }

  /** The groups of parts that the loop's chunks are made of. */
  function PackGroups(group: seq<string>, parts: seq<string>, limit: nat): seq<seq<string>>
    decreases |parts|
  {
    if parts == [] then (if group == [] then [] else [group])
    else if group == [] || |Join(SEPARATOR, group) + SEPARATOR + parts[0]| <= limit
    then PackGroups(group + [parts[0]], parts[1..], limit)
    else [group] + PackGroups([parts[0]], parts[1..], limit)
  }

  function JoinAll(groups: seq<seq<string>>): seq<string> {
    if groups == [] then [] else [Join(SEPARATOR, groups[0])] + JoinAll(groups[1..])
  }

  lemma JoinNonEmpty(group: seq<string>)
    requires group != [] && group[0] != ""
    ensures Join(SEPARATOR, group) != ""
  {
    JoinLength(SEPARATOR, group);
  }

  /** The chunks are the joins of an order-preserving grouping of the parts. */
  lemma {:induction false} PackJoinsGroups(group: seq<string>, parts: seq<string>, limit: nat)
    requires forall i :: 0 <= i < |group| ==> group[i] != ""
    requires forall i :: 0 <= i < |parts| ==> parts[i] != ""
    ensures Pack(Join(SEPARATOR, group), parts, limit) == JoinAll(PackGroups(group, parts, limit))
    decreases |parts|
  {
    if group != [] {
      JoinNonEmpty(group);
    }
    if parts == [] {
      assert [group][1..] == [];
    } else if group == [] {
      assert group + [parts[0]] == [parts[0]];
      PackJoinsGroups([parts[0]], parts[1..], limit);
    } else if |Join(SEPARATOR, group) + SEPARATOR + parts[0]| <= limit {
      JoinSnoc(SEPARATOR, group, parts[0]);
      PackJoinsGroups(group + [parts[0]], parts[1..], limit);
    } else {
      var tail := PackGroups([parts[0]], parts[1..], limit);
      PackJoinsGroups([parts[0]], parts[1..], limit);
      assert ([group] + tail)[1..] == tail;
    }
  }

  lemma {:induction false} PackGroupsKeepOrder(group: seq<string>, parts: seq<string>, limit: nat)
    ensures Flatten(PackGroups(group, parts, limit)) == group + parts
    decreases |parts|
  {
    if parts == [] {
      assert [group][1..] == [];
      assert group != [] ==> Flatten([group]) == group + Flatten<string>([]);
    } else if group == [] || |Join(SEPARATOR, group) + SEPARATOR + parts[0]| <= limit {
      PackGroupsKeepOrder(group + [parts[0]], parts[1..], limit);
      assert group + [parts[0]] + parts[1..] == group + parts;
    } else {
      var tail := PackGroups([parts[0]], parts[1..], limit);
      PackGroupsKeepOrder([parts[0]], parts[1..], limit);
      assert ([group] + tail)[1..] == tail;
      assert [parts[0]] + parts[1..] == parts;
    }
  }

  /** Consecutive groups are tight: a group could not have taken the first part
      of its successor. */
  ghost predicate Tight(groups: seq<seq<string>>, limit: nat)
    requires forall i :: 0 <= i < |groups| ==> groups[i] != []
  {
    forall i :: 0 <= i < |groups| - 1 ==>
      |Join(SEPARATOR, groups[i])| + |SEPARATOR| + |groups[i + 1][0]| > limit
  }

  lemma {:induction false} PackGroupsFitTightly(group: seq<string>, parts: seq<string>, limit: nat)
    requires Bounded(parts, limit) && |Join(SEPARATOR, group)| <= limit
    ensures var gs := PackGroups(group, parts, limit);
            && (forall i :: 0 <= i < |gs| ==> gs[i] != [] && |Join(SEPARATOR, gs[i])| <= limit)
            && Tight(gs, limit)
            && (group != [] ==> gs != [] && gs[0][0] == group[0])
    decreases |parts|
  {
    if parts != [] {
      if group == [] {
        assert group + [parts[0]] == [parts[0]];
        PackGroupsFitTightly([parts[0]], parts[1..], limit);
      } else if |Join(SEPARATOR, group) + SEPARATOR + parts[0]| <= limit {
        JoinSnoc(SEPARATOR, group, parts[0]);
        PackGroupsFitTightly(group + [parts[0]], parts[1..], limit);
      } else {
        PackGroupsFitTightly([parts[0]], parts[1..], limit);
      }
    }
  }

  /** The loop's chunks are an order-preserving grouping of the parts into
      bounded, tight groups; with `GreedyIsOptimal` they are a smallest one. */
  lemma PackIsSmallestGrouping(parts: seq<string>, limit: nat)
    requires Solid(parts) && Bounded(parts, limit)
    ensures var gs := PackGroups([], parts, limit);
            && Pack("", parts, limit) == JoinAll(gs) && |gs| == |Pack("", parts, limit)|
            && Flatten(gs) == parts
            && (forall i :: 0 <= i < |gs| ==> gs[i] != [] && |Join(SEPARATOR, gs[i])| <= limit)
            && Tight(gs, limit)
            && forall other: seq<seq<string>> ::
                 Flatten(other) == parts && (forall g :: g in other ==> |Join(SEPARATOR, g)| <= limit)
                 ==> |gs| <= |other|
  {
    var gs := PackGroups([], parts, limit);
    PackJoinsGroups([], parts, limit);
    PackGroupsKeepOrder([], parts, limit);
    PackGroupsFitTightly([], parts, limit);
    JoinAllLength(gs);
    forall other: seq<seq<string>> |
      Flatten(other) == parts && (forall g :: g in other ==> |Join(SEPARATOR, g)| <= limit)
      ensures |gs| <= |other|
    {
      GreedyIsOptimal(other, limit);
    }
  }

  lemma JoinAllLength(groups: seq<seq<string>>)
    ensures |JoinAll(groups)| == |groups|
    ensures forall i :: 0 <= i < |groups| ==> JoinAll(groups)[i] == Join(SEPARATOR, groups[i])
  {
  }

  lemma {:induction false} JoinStripped(group: seq<string>)
    requires group != [] && Solid(group)
    ensures Join(SEPARATOR, group) != "" && Stripped(Join(SEPARATOR, group))
    ensures Join(SEPARATOR, group)[0] == group[0][0]
  {
    if |group| > 1 {
      var rest := Join(SEPARATOR, group[1..]);
      JoinStripped(group[1..]);
      var r := group[0] + SEPARATOR + rest;
      assert Stripped(group[0]) && r[0] == group[0][0];
      assert r[|r| - 1] == rest[|rest| - 1];
    }
  }

  /** Joining keeps visible characters, words and the stripped ends. */
  lemma {:induction false} JoinAllKeeps(groups: seq<seq<string>>)
    requires forall i :: 0 <= i < |groups| ==> groups[i] != []
    requires Solid(Flatten(groups))
    ensures Visible(Flatten(JoinAll(groups))) == Visible(Flatten(Flatten(groups)))
    ensures SumWords(JoinAll(groups)) == SumWords(Flatten(groups))
    ensures Solid(JoinAll(groups))
  {
    if groups != [] {
      var group, rest := groups[0], groups[1..];
      var all := Flatten(groups);
      assert group == all[..|group|] && Flatten(rest) == all[|group|..];
      assert Solid(group) by {
        forall i | 0 <= i < |group| ensures group[i] != "" && Stripped(group[i]) {
          assert group[i] == all[i];
        }
      }
      JoinStripped(group);
      JoinAllKeeps(rest);
      JoinedGroupKeeps(group, rest);
    }
  }

  lemma JoinedGroupKeeps(group: seq<string>, rest: seq<seq<string>>)
    requires Visible(Flatten(JoinAll(rest))) == Visible(Flatten(Flatten(rest)))
    ensures Visible(Flatten([Join(SEPARATOR, group)] + JoinAll(rest))) == Visible(Flatten(group + Flatten(rest)))
    ensures SumWords([Join(SEPARATOR, group)] + JoinAll(rest)) == SumWords(group) + SumWords(JoinAll(rest))
    ensures SumWords(group + Flatten(rest)) == SumWords(group) + SumWords(Flatten(rest))
  {
    var chunk := Join(SEPARATOR, group);
    assert SEPARATOR[1..][1..] == "";
    assert ([chunk] + JoinAll(rest))[1..] == JoinAll(rest);
    VisibleJoin(SEPARATOR, group);
    VisibleConcat(chunk, Flatten(JoinAll(rest)));
    FlattenConcat(group, Flatten(rest));
    VisibleConcat(Flatten(group), Flatten(Flatten(rest)));
    WordsJoin(group);
    SumWordsConcat(group, Flatten(rest));
  }

  // ------------------------------------------------------------ documents

  function ChunkSpec(content: string, limit: nat): seq<string>
    requires limit >= 1
  {
    if Blank(content) then [""]
    else Pack("", AllParts(DocumentParagraphs(content), limit), limit)
  }

  lemma ParagraphsOfText(normalized: string)
    requires normalized != "" && Stripped(normalized)
    ensures Paragraphs(SplitBlankLines(normalized)) != []
  {
    SplitBlankLinesKeeps(normalized);
    ParagraphsKeep(SplitBlankLines(normalized));
    assert Visible(normalized)[0] == normalized[0];
  }

  /** The stripped paragraphs of a document. */
  function DocumentParagraphs(content: string): seq<string> {
    Paragraphs(SplitBlankLines(Normalize(content)))
  }

  lemma DocumentParagraphsKeep(content: string)
    ensures Solid(DocumentParagraphs(content))
    ensures Visible(Flatten(DocumentParagraphs(content))) == Visible(content)
    ensures SumWords(DocumentParagraphs(content)) == |Words(content)|
  {
    NormalizeKeeps(content);
    SplitBlankLinesKeeps(Normalize(content));
    ParagraphsKeep(SplitBlankLines(Normalize(content)));
  }

  /** Every non-blank document is chunked into bounded, stripped, non-empty
      pieces that hold exactly its visible characters in order; the chunks' word
      counts add up to the document's plus one for every word that was cut. */
  lemma ChunkLaws(content: string, limit: nat)
    requires limit >= 1 && !Blank(content)
    ensures var chunks := ChunkSpec(content, limit);
            && chunks != [] && Solid(chunks) && Bounded(chunks, limit)
            && Visible(Flatten(chunks)) == Visible(content)
            && Solid(DocumentParagraphs(content))
            && SumWords(chunks) == |Words(content)| + AllWordCuts(DocumentParagraphs(content), limit)
  {
    var paragraphs := DocumentParagraphs(content);
    DocumentParagraphsKeep(content);
    NormalizeKeeps(content);
    ParagraphsOfText(Normalize(content));
    AllPartsKeep(paragraphs, limit);
    var parts := AllParts(paragraphs, limit);
    PackIsSmallestGrouping(parts, limit);
    var groups := PackGroups([], parts, limit);
    JoinAllKeeps(groups);
    JoinAllLength(groups);
  }

  /** The text lies in the chunk between blank lines, or the chunk's ends. */
  ghost predicate HoldsWhole(chunk: string, text: string) {
    exists before: seq<string>, after: seq<string> :: chunk == Join(SEPARATOR, before + [text] + after)
  }

  ghost predicate SomeHoldsWhole(chunks: seq<string>, text: string) {
    exists i :: 0 <= i < |chunks| && HoldsWhole(chunks[i], text)
  }

  lemma {:induction false} PartIsPacked(paragraphs: seq<string>, paragraph: string, part: string, limit: nat)
    requires limit >= 1 && paragraph in paragraphs && part in SplitParts(paragraph, limit)
    ensures part in AllParts(paragraphs, limit)
  {
    if paragraphs[0] != paragraph {
      Uncons(paragraphs);
      PartIsPacked(paragraphs[1..], paragraph, part, limit);
    }
  }

  lemma {:induction false} InSomeGroup(groups: seq<seq<string>>, part: string) returns (g: nat)
    requires part in Flatten(groups)
    ensures g < |groups| && part in groups[g]
  {
    if part in groups[0] {
      g := 0;
    } else {
      var rest := InSomeGroup(groups[1..], part);
      g := rest + 1;
    }
  }

  lemma GroupHolds(group: seq<string>, part: string)
    requires part in group
    ensures HoldsWhole(Join(SEPARATOR, group), part)
  {
    var k :| 0 <= k < |group| && group[k] == part;
    assert group == group[..k] + [part] + group[k + 1..];
  }

  /** Every part of a paragraph lies whole inside one chunk. */
  lemma PartsStayWhole(content: string, limit: nat, paragraph: string, part: string)
    requires limit >= 1 && !Blank(content) && paragraph in DocumentParagraphs(content)
    requires part in SplitParts(paragraph, limit)
    ensures SomeHoldsWhole(ChunkSpec(content, limit), part)
  {
    var paragraphs := DocumentParagraphs(content);
    DocumentParagraphsKeep(content);
    AllPartsKeep(paragraphs, limit);
    var parts := AllParts(paragraphs, limit);
    PartIsPacked(paragraphs, paragraph, part, limit);
    PackIsSmallestGrouping(parts, limit);
    var groups := PackGroups([], parts, limit);
    var g := InSomeGroup(groups, part);
    GroupHolds(groups[g], part);
    JoinAllLength(groups);
  }

  lemma ShortIsOnePart(text: string, limit: nat)
    requires limit >= 1 && !Blank(text) && |Strip(text)| <= limit
    ensures SplitParts(Strip(text), limit) == [Strip(text)]
  {
    StripStripped(Strip(text));
  }

  /** Each longest stretch of a document without a blank line is cut by itself, and
      each of its parts lies whole inside one chunk. */
  lemma StretchPartsStayWhole(content: string, limit: nat, i: nat, j: nat, part: string)
    requires limit >= 1 && IsStretch(Normalize(content), i, j) && !Blank(Normalize(content)[i..j])
    requires part in SplitParts(Strip(Normalize(content)[i..j]), limit)
    ensures SomeHoldsWhole(ChunkSpec(content, limit), part)
  {
    var piece := StretchIsPiece(Normalize(content), i, j);
    ParagraphsHold(SplitBlankLines(Normalize(content)), piece);
    NormalizeKeeps(content);
    PartsStayWhole(content, limit, Strip(piece), part);
  }

  /** A stretch that fits the limit lies whole inside one chunk. */
  lemma StretchesStayWhole(content: string, limit: nat, i: nat, j: nat)
    requires limit >= 1 && IsStretch(Normalize(content), i, j) && !Blank(Normalize(content)[i..j])
    requires |Strip(Normalize(content)[i..j])| <= limit
    ensures SomeHoldsWhole(ChunkSpec(content, limit), Strip(Normalize(content)[i..j]))
  {
    ShortIsOnePart(Normalize(content)[i..j], limit);
    StretchPartsStayWhole(content, limit, i, j, Strip(Normalize(content)[i..j]));
  }

  /** A blank document becomes one empty chunk. */
  lemma BlankDocument(content: string, limit: nat)
    requires limit >= 1 && Blank(content)
    ensures ChunkSpec(content, limit) == [""]
  {
  }

  /** The inner loop: one paragraph's parts go through the packing step. */
  method PackParts(done: seq<string>, building: string, parts: seq<string>, ghost later: seq<string>, limit: nat)
    returns (chunks: seq<string>, current: string)
    ensures chunks + Pack(current, later, limit) == done + Pack(building, parts + later, limit)
  {
    chunks, current := done, building;
    assert parts[0..] == parts;
    for j := 0 to |parts|
      invariant chunks + Pack(current, parts[j..] + later, limit) == done + Pack(building, parts + later, limit)
    {
      var part := parts[j];
      PackStep(current, parts, j, later, limit);
      if current == "" {
        current := part;
        continue;
      }
      var candidate := current + SEPARATOR + part;
      if |candidate| <= limit {
        current := candidate;
        continue;
      }
      Regroup(chunks, current, Pack(part, parts[j + 1..] + later, limit));
      chunks := chunks + [current];
      current := part;
    }
    assert parts[|parts|..] + later == later;
  }

  method ChunkMarkdown(content: string, limit: nat) returns (chunks: seq<string>)
    requires limit >= 1
    ensures chunks == ChunkSpec(content, limit)
    ensures forall i: nat, j: nat ::
              && IsStretch(Normalize(content), i, j) && !Blank(Normalize(content)[i..j])
              && |Strip(Normalize(content)[i..j])| <= limit
              ==> SomeHoldsWhole(chunks, Strip(Normalize(content)[i..j]))
  {
    forall i: nat, j: nat |
      && IsStretch(Normalize(content), i, j) && !Blank(Normalize(content)[i..j])
      && |Strip(Normalize(content)[i..j])| <= limit
    {
      StretchesStayWhole(content, limit, i, j);
    }
    var normalized := Strip(ReplaceCr(ReplaceCrLf(content)));
    NormalizeKeeps(content);
    if normalized == "" {
      BlankDocument(content, limit);
      return [""];
    }
    var paragraphs := Paragraphs(SplitBlankLines(normalized));
    // The fallback for a text without paragraphs is never taken.
    assert paragraphs != [] by { ParagraphsOfText(normalized); }

    chunks := [];
    var current := "";
    assert paragraphs[0..] == paragraphs;
    for i := 0 to |paragraphs|
      invariant chunks + Pack(current, AllParts(paragraphs[i..], limit), limit) == ChunkSpec(content, limit)
    {
      var parts := SplitText(paragraphs[i], limit);
      assert paragraphs[i..][1..] == paragraphs[i + 1..];
      chunks, current := PackParts(chunks, current, parts, AllParts(paragraphs[i + 1..], limit), limit);
    }
    assert AllParts(paragraphs[|paragraphs|..], limit) == [];
    if current != "" {
      chunks := chunks + [current];
    }
    // The fallback for an empty list of chunks is never taken.
    assert chunks != [] by { ChunkLaws(content, limit); }
  }

  lemma PackStep(current: string, parts: seq<string>, j: nat, later: seq<string>, limit: nat)
    requires j < |parts|
    ensures Pack(current, parts[j..] + later, limit)
         == if current == "" then Pack(parts[j], parts[j + 1..] + later, limit)
            else if |current + SEPARATOR + parts[j]| <= limit
            then Pack(current + SEPARATOR + parts[j], parts[j + 1..] + later, limit)
            else [current] + Pack(parts[j], parts[j + 1..] + later, limit)
  {
    assert (parts[j..] + later)[1..] == parts[j + 1..] + later;
  }

  lemma Regroup(done: seq<string>, x: string, todo: seq<string>)
    ensures done + ([x] + todo) == done + [x] + todo
  {
  }
}

/** Python string operations used by the knowledge chunker and the agents:
    `strip`, `split()`, `split(sep)` and `join`, with the facts about visible
    (non-whitespace) characters and words that the chunker's laws rest on. */
module Text {
  import opened Sequences

  /** The characters that `str.strip` and `str.split` treat as whitespace. */
  predicate IsSpace(c: char) {
    var n := c as int;
    || 0x9 <= n <= 0xD || 0x1C <= n <= 0x20
    || n == 0x85 || n == 0xA0 || n == 0x1680 || 0x2000 <= n <= 0x200A
    || n == 0x2028 || n == 0x2029 || n == 0x202F || n == 0x205F || n == 0x3000
  }

  /** The code points of whitespace, written out. */
  lemma SpaceCharacters(c: char)
    ensures IsSpace(c) <==>
      || c as int in {0x9, 0xA, 0xB, 0xC, 0xD, 0x1C, 0x1D, 0x1E, 0x1F, 0x20, 0x85, 0xA0, 0x1680, 0x2000, 0x2001, 0x2002}
      || c as int in {0x2003, 0x2004, 0x2005, 0x2006, 0x2007, 0x2008, 0x2009, 0x200A, 0x2028, 0x2029, 0x202F, 0x205F}
      || c as int == 0x3000
  {
  }

  /** Neither end of the string is whitespace. */
  predicate Stripped(s: string) {
    s == "" || (!IsSpace(s[0]) && !IsSpace(s[|s| - 1]))
  }

  function StripLeft(s: string): (r: string)
    ensures |r| <= |s|
    ensures r == "" || !IsSpace(r[0])
    ensures s != "" ==> r == "" || r[|r| - 1] == s[|s| - 1]
  {
    if s != "" && IsSpace(s[0]) then StripLeft(s[1..]) else s
  }

  function StripRight(s: string): (r: string)
    ensures |r| <= |s| && r == s[..|r|]
    ensures r == "" || !IsSpace(r[|r| - 1])
  {
    if s != "" && IsSpace(s[|s| - 1]) then StripRight(s[..|s| - 1]) else s
  }

  function Strip(s: string): (r: string)
    ensures |r| <= |s|
    ensures Stripped(r)
  {
    StripRight(StripLeft(s))
  }

  predicate Blank(s: string) {
    Strip(s) == ""
  }

  /** The non-whitespace characters of a text, in order. */
  function Visible(s: string): string {
    if s == "" then ""
    else if IsSpace(s[0]) then Visible(s[1..])
    else [s[0]] + Visible(s[1..])
  }

  lemma {:induction false} VisibleConcat(a: string, b: string)
    ensures Visible(a + b) == Visible(a) + Visible(b)
  {
    if a == "" {
      Empty(b);
    } else {
      VisibleConcat(a[1..], b);
      ConcatTail(a, b);
      if !IsSpace(a[0]) {
        Assoc([a[0]], Visible(a[1..]), Visible(b));
      }
    }
  }

  lemma {:induction false} VisibleStripLeft(s: string)
    ensures Visible(StripLeft(s)) == Visible(s)
  {
    if s != "" && IsSpace(s[0]) {
      VisibleStripLeft(s[1..]);
    }
  }

  lemma {:induction false} VisibleStripRight(s: string)
    ensures Visible(StripRight(s)) == Visible(s)
  {
    if s != "" && IsSpace(s[|s| - 1]) {
      var last := s[|s| - 1..];
      VisibleStripRight(s[..|s| - 1]);
      VisibleConcat(s[..|s| - 1], last);
      assert s == s[..|s| - 1] + last;
      assert last[1..] == "";
    }
  }

  lemma VisibleStrip(s: string)
    ensures Visible(Strip(s)) == Visible(s)
  {
    VisibleStripLeft(s);
    VisibleStripRight(StripLeft(s));
  }

  /** A text is blank exactly when it has no visible character. */
  lemma BlankIffNothingVisible(s: string)
    ensures Blank(s) <==> Visible(s) == ""
  {
    VisibleStrip(s);
    var r := Strip(s);
    if r != "" {
      assert Visible(r) == [r[0]] + Visible(r[1..]);
    }
  }

  lemma StripStripped(s: string)
    requires Stripped(s)
    ensures Strip(s) == s
  {
  }

  lemma {:induction false} StripLeftIsRest(s: string) returns (n: nat)
    ensures n <= |s| && StripLeft(s) == s[n..] && forall i :: 0 <= i < n ==> IsSpace(s[i])
  {
    n := 0;
    if s != "" && IsSpace(s[0]) {
      var rest := StripLeftIsRest(s[1..]);
      n := rest + 1;
      assert s[1..][rest..] == s[n..];
      assert forall i :: 0 < i < n ==> s[i] == s[1..][i - 1];
    }
  }

  lemma {:induction false} StripRightDrops(s: string)
    ensures forall i :: |StripRight(s)| <= i < |s| ==> IsSpace(s[i])
  {
    if s != "" && IsSpace(s[|s| - 1]) {
      StripRightDrops(s[..|s| - 1]);
      assert forall i :: 0 <= i < |s| - 1 ==> s[i] == s[..|s| - 1][i];
    }
  }

  /** Stripping drops whitespace from the ends and nothing else. */
  lemma StripIsMiddle(s: string) returns (i: nat, j: nat)
    ensures i <= j <= |s| && Strip(s) == s[i..j]
    ensures forall k :: 0 <= k < i || j <= k < |s| ==> IsSpace(s[k])
  {
    i := StripLeftIsRest(s);
    var left := s[i..];
    StripRightDrops(left);
    j := i + |StripRight(left)|;
    assert forall k :: i <= k < |s| ==> s[k] == left[k - i];
  }

  // ---------------------------------------------------------------- words

  /** Length of the run of non-whitespace characters at the front. */
  function WordLength(s: string): (n: nat)
    ensures n <= |s|
    ensures n < |s| ==> IsSpace(s[n])
    ensures s != "" && !IsSpace(s[0]) ==> n > 0
    ensures forall i :: 0 <= i < n ==> !IsSpace(s[i])
  {
    if s == "" || IsSpace(s[0]) then 0 else 1 + WordLength(s[1..])
  }

  /** `str.split()`: the maximal runs of non-whitespace characters. */
  function Words(s: string): seq<string>
    decreases |s|
  {
    if s == "" then []
    else if IsSpace(s[0]) then Words(s[1..])
    else [s[..WordLength(s)]] + Words(s[WordLength(s)..])
  }

  /** The words hold the visible characters and no whitespace; none is empty. */
  lemma {:induction false} WordsHoldVisible(s: string)
    ensures Flatten(Words(s)) == Visible(s)
    ensures forall w :: w in Words(s) ==> w != "" && forall c :: c in w ==> !IsSpace(c)
    decreases |s|
  {
    if s == "" {
    } else if IsSpace(s[0]) {
      WordsHoldVisible(s[1..]);
    } else {
      var n := WordLength(s);
      WordsHoldVisible(s[n..]);
      AllVisible(s[..n]);
      Cut(s, n);
      VisibleConcat(s[..n], s[n..]);
      ConsTail(s[..n], Words(s[n..]));
    }
  }

  lemma {:induction false} AllVisible(s: string)
    requires forall i :: 0 <= i < |s| ==> !IsSpace(s[i])
    ensures Visible(s) == s
  {
    if s != "" {
      AllVisible(s[1..]);
      Uncons(s);
    }
  }

  /** Number of positions where a word begins; `gap` tells whether the
      character before the string separates words. */
  function WordStarts(s: string, gap: bool): nat {
    if s == "" then 0
    else (if gap && !IsSpace(s[0]) then 1 else 0) + WordStarts(s[1..], IsSpace(s[0]))
  }

  lemma {:induction false} WordStartsInside(s: string)
    requires s != "" && !IsSpace(s[0])
    ensures WordStarts(s, false) == WordStarts(s[WordLength(s)..], true)
  {
    var n := WordLength(s);
    if |s| > 1 && !IsSpace(s[1]) {
      WordStartsInside(s[1..]);
      assert s[1..][n - 1..] == s[n..];
    } else {
      assert WordLength(s[1..]) == 0;
      assert n == 1;
      if |s| > 1 {
        assert WordStarts(s[1..], false) == WordStarts(s[1..], true);
      }
    }
  }

  lemma {:induction false} WordsAreWordStarts(s: string)
    ensures |Words(s)| == WordStarts(s, true)
    decreases |s|
  {
    if s == "" {
    } else if IsSpace(s[0]) {
      WordsAreWordStarts(s[1..]);
    } else {
      WordStartsInside(s);
      WordsAreWordStarts(s[WordLength(s)..]);
      assert WordStarts(s, true) == 1 + WordStarts(s, false);
    }
  }

  predicate EndsInGap(s: string, gap: bool) {
    if s == "" then gap else IsSpace(s[|s| - 1])
  }

  lemma {:induction false} WordStartsConcat(a: string, b: string, gap: bool)
    ensures WordStarts(a + b, gap) == WordStarts(a, gap) + WordStarts(b, EndsInGap(a, gap))
  {
    if a == "" {
      Empty(b);
    } else {
      WordStartsConcat(a[1..], b, IsSpace(a[0]));
      ConcatTail(a, b);
      assert |a| > 1 ==> a[1..][|a[1..]| - 1] == a[|a| - 1];
    }
  }

  lemma {:induction false} WordStartsStripLeft(s: string)
    ensures WordStarts(StripLeft(s), true) == WordStarts(s, true)
  {
    if s != "" && IsSpace(s[0]) {
      WordStartsStripLeft(s[1..]);
    }
  }

  lemma {:induction false} WordStartsStripRight(s: string)
    ensures WordStarts(StripRight(s), true) == WordStarts(s, true)
  {
    if s != "" && IsSpace(s[|s| - 1]) {
      var front, last := s[..|s| - 1], s[|s| - 1..];
      WordStartsStripRight(front);
      WordStartsConcat(front, last, true);
      assert s == front + last;
      assert last[1..] == "" && WordStarts(last, EndsInGap(front, true)) == 0;
    }
  }

  lemma WordStartsStrip(s: string)
    ensures WordStarts(Strip(s), true) == WordStarts(s, true)
  {
    WordStartsStripLeft(s);
    WordStartsStripRight(StripLeft(s));
  }

  /** Cutting a text in two adds one word exactly when both sides of the cut
      are visible characters. */
  lemma WordStartsCut(a: string, b: string)
    requires a != "" && b != ""
    ensures WordStarts(a, true) + WordStarts(b, true)
         == WordStarts(a + b, true) + (if IsSpace(a[|a| - 1]) || IsSpace(b[0]) then 0 else 1)
  {
    WordStartsConcat(a, b, true);
    assert b == [b[0]] + b[1..];
  }

  // ---------------------------------------------------- sequences of texts

  function Flatten<T>(xss: seq<seq<T>>): seq<T> {
    if xss == [] then [] else xss[0] + Flatten(xss[1..])
  }

  lemma {:induction false} FlattenConcat<T>(a: seq<seq<T>>, b: seq<seq<T>>)
    ensures Flatten(a + b) == Flatten(a) + Flatten(b)
  {
    if a == [] {
      Empty(b);
      Empty(Flatten(b));
    } else {
      FlattenConcat(a[1..], b);
      ConcatTail(a, b);
      Assoc(a[0], Flatten(a[1..]), Flatten(b));
    }
  }

  lemma FlattenSingle<T>(xs: seq<T>)
    ensures Flatten([xs]) == xs
  {
    ConsTail(xs, []);
    Empty(xs);
    assert Flatten([xs]) == xs + Flatten<T>([xs][1..]);
  }

  /** `sep.join(parts)`. */
  function Join(sep: string, parts: seq<string>): string {
    if parts == [] then ""
    else if |parts| == 1 then parts[0]
    else parts[0] + sep + Join(sep, parts[1..])
  }

  lemma {:induction false} JoinSnoc(sep: string, parts: seq<string>, p: string)
    requires parts != []
    ensures Join(sep, parts + [p]) == Join(sep, parts) + sep + p
  {
    if |parts| > 1 {
      JoinSnoc(sep, parts[1..], p);
      assert (parts + [p])[1..] == parts[1..] + [p];
    } else {
      assert (parts + [p])[1..] == [p];
    }
  }

  /** Joining with a whitespace separator keeps the visible characters. */
  lemma {:induction false} VisibleJoin(sep: string, parts: seq<string>)
    requires Visible(sep) == ""
    ensures Visible(Join(sep, parts)) == Visible(Flatten(parts))
  {
    if parts == [] {
    } else if |parts| == 1 {
      assert parts[1..] == [] && Flatten(parts) == parts[0] + "";
      assert Flatten(parts) == parts[0];
    } else {
      VisibleJoin(sep, parts[1..]);
      VisibleConcat(parts[0], Flatten(parts[1..]));
      VisibleConcat(parts[0] + sep, Join(sep, parts[1..]));
      VisibleConcat(parts[0], sep);
    }
  }

  function SumWords(parts: seq<string>): nat {
    if parts == [] then 0 else |Words(parts[0])| + SumWords(parts[1..])
  }

  lemma {:induction false} SumWordsConcat(a: seq<string>, b: seq<string>)
    ensures SumWords(a + b) == SumWords(a) + SumWords(b)
  {
    if a == [] {
      Empty(b);
    } else {
      SumWordsConcat(a[1..], b);
      ConcatTail(a, b);
    }
  }

  /** Joining non-empty parts with a separator that ends and begins in
      whitespace keeps the number of words. */
  lemma {:induction false} WordsJoin(parts: seq<string>)
    ensures |Words(Join("\n\n", parts))| == SumWords(parts)
  {
    if parts == [] {
    } else if |parts| == 1 {
      assert SumWords(parts[1..]) == 0;
    } else {
      var rest := Join("\n\n", parts[1..]);
      WordsJoin(parts[1..]);
      WordsAreWordStarts(parts[0] + "\n\n" + rest);
      WordsAreWordStarts(parts[0]);
      WordsAreWordStarts(rest);
      WordStartsConcat(parts[0] + "\n\n", rest, true);
      WordStartsConcat(parts[0], "\n\n", true);
      assert WordStarts("\n\n"[1..], true) == 0;
    }
  }

  // ---------------------------------------------------------------- split

  /** Position of the first occurrence, or the length when there is none. */
  function IndexOf(s: string, c: char): (i: nat)
    ensures i <= |s|
    ensures i < |s| ==> s[i] == c
    ensures c !in s[..i]
  {
    if s == "" || s[0] == c then 0 else 1 + IndexOf(s[1..], c)
  }

  /** `s.split(sep)` for a separator of one character. */
  function SplitOn(s: string, sep: char): (parts: seq<string>)
    ensures parts != []
    decreases |s|
  {
    var i := IndexOf(s, sep);
    if i == |s| then [s] else [s[..i]] + SplitOn(s[i + 1..], sep)
  }

  lemma {:induction false} IndexOfFirst(a: string, c: char, b: string)
    requires c !in a
    ensures IndexOf(a + [c] + b, c) == |a|
  {
    if a != "" {
      assert (a + [c] + b)[1..] == a[1..] + [c] + b;
      IndexOfFirst(a[1..], c, b);
    }
  }

  lemma SplitAtFirst(a: string, sep: char, b: string)
    requires sep !in a
    ensures SplitOn(a + [sep] + b, sep) == [a] + SplitOn(b, sep)
  {
    IndexOfFirst(a, sep, b);
    var s := a + [sep] + b;
    assert s[..|a|] == a && s[|a| + 1..] == b;
  }

  lemma SplitWithout(s: string, sep: char)
    requires sep !in s
    ensures SplitOn(s, sep) == [s]
  {
  }

  lemma SplitInOne(s: string, sep: char)
    requires |SplitOn(s, sep)| == 1
    ensures SplitOn(s, sep) == [s]
  {
  }

  lemma AtFirst(s: string, sep: char, i: nat)
    requires i < |s| && s[i] == sep
    ensures s == s[..i] + [sep] + s[i + 1..]
  {
  }

  lemma SplitInTwo(s: string, sep: char)
    requires |SplitOn(s, sep)| == 2
    ensures s == SplitOn(s, sep)[0] + [sep] + SplitOn(s, sep)[1]
  {
    var i := IndexOf(s, sep);
    AtFirst(s, sep, i);
    SplitInOne(s[i + 1..], sep);
  }

  // -------------------------------------------------------------- numbers

  /** `str(n)`. */
  function Decimal(n: nat): string {
    if n < 10 then ["0123456789"[n]] else Decimal(n / 10) + ["0123456789"[n % 10]]
  }

  /** `int(s)` of a text of decimal digits. */
  function ReadDecimal(s: string): int {
    if s == "" then 0 else 10 * ReadDecimal(s[..|s| - 1]) + (s[|s| - 1] as int - '0' as int)
  }

  /** The decimal text of a number reads back as the number, and begins with a zero only
      for zero. */
  lemma {:induction false} DecimalReadsBack(n: nat)
    ensures ReadDecimal(Decimal(n)) == n
    ensures Decimal(n) != "" && forall i :: 0 <= i < |Decimal(n)| ==> '0' <= Decimal(n)[i] <= '9'
    ensures Decimal(n)[0] == '0' ==> n == 0
  {
    DigitOf(n % 10);
    if n >= 10 {
      DecimalReadsBack(n / 10);
      SnocFront(Decimal(n / 10), "0123456789"[n % 10]);
    } else {
      assert Decimal(n)[..0] == "";
    }
  }

  lemma DigitOf(d: nat)
    requires d < 10
    ensures "0123456789"[d] as int == '0' as int + d
  {
  }
}

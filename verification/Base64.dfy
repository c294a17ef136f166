/** Base64 as the backend uses it (sections 3.2, 4 and 5 of RFC 4648): the standard
    and the URL-safe alphabet, the encoder, and the decoder of Python's `binascii`
    in its lenient and its strict mode. */
module Base64 {
  import opened Options
  import opened Sequences

  type Byte = n: nat | n < 256
  type Sextet = n: nat | n < 64

  datatype Alphabet = Standard | UrlSafe

  function Digit(v: Sextet, alphabet: Alphabet): char {
    if v < 26 then ('A' as int + v) as char
    else if v < 52 then ('a' as int + v - 26) as char
    else if v < 62 then ('0' as int + v - 52) as char
    else if v == 62 then (if alphabet.Standard? then '+' else '-')
    else (if alphabet.Standard? then '/' else '_')
  }

  /** The value of a character. The URL-safe decoder first rewrites `-` to `+` and
      `_` to `/`, so it reads those two as well. */
  function ValueOf(c: char, alphabet: Alphabet): Option<Sextet> {
    if 'A' <= c <= 'Z' then Some(c as int - 'A' as int)
    else if 'a' <= c <= 'z' then Some(c as int - 'a' as int + 26)
    else if '0' <= c <= '9' then Some(c as int - '0' as int + 52)
    else if c == '+' || (alphabet.UrlSafe? && c == '-') then Some(62)
    else if c == '/' || (alphabet.UrlSafe? && c == '_') then Some(63)
    else None
  }

  lemma DigitHasItsValue(v: Sextet, alphabet: Alphabet)
    ensures ValueOf(Digit(v, alphabet), alphabet) == Some(v)
    ensures Digit(v, alphabet) != '=' && Digit(v, alphabet) != '.' && Digit(v, alphabet) as int > 0x20
    ensures Digit(v, alphabet) as int < 0x80
  {
  }

  /** The digits of a group of one, two or three bytes. */
  function Group(b: seq<Byte>, alphabet: Alphabet): string
    requires 1 <= |b| <= 3
  {
    if |b| == 1 then [Digit(b[0] / 4, alphabet), Digit(b[0] % 4 * 16, alphabet)]
    else if |b| == 2 then
      [Digit(b[0] / 4, alphabet), Digit(b[0] % 4 * 16 + b[1] / 16, alphabet), Digit(b[1] % 16 * 4, alphabet)]
    else
      [Digit(b[0] / 4, alphabet), Digit(b[0] % 4 * 16 + b[1] / 16, alphabet),
       Digit(b[1] % 16 * 4 + b[2] / 64, alphabet), Digit(b[2] % 64, alphabet)]
  }

  /** The digits of a byte string, without padding. */
  function Digits(b: seq<Byte>, alphabet: Alphabet): string {
    if b == [] then ""
    else if |b| <= 3 then Group(b, alphabet)
    else Group(b[..3], alphabet) + Digits(b[3..], alphabet)
  }

  function Equals(n: nat): string {
    seq(n, _ => '=')
  }

  function Padding(n: nat): string {
    Equals((3 - n % 3) % 3)
  }

  function Encode(b: seq<Byte>, alphabet: Alphabet): string {
    Digits(b, alphabet) + Padding(|b|)
  }

  // ---------------------------------------------------------- the decoder

  datatype Mode = Lenient | Strict

  /** The decoder between two characters: position in the quadruple, bits left
      over, padding seen since the last digit, and whether any was seen. */
  datatype State = State(quad: nat, left: nat, pads: nat, padded: bool, out: seq<Byte>)

  ghost predicate Sane(st: State) {
    st.quad < 4
    && (st.quad == 1 ==> st.left < 64) && (st.quad == 2 ==> st.left < 16) && (st.quad == 3 ==> st.left < 4)
  }

  const START: State := State(0, 0, 0, false, [])

  function Push(st: State, v: Sextet): (r: State)
    requires Sane(st)
    ensures Sane(r)
  {
    match st.quad
    case 0 => State(1, v, 0, st.padded, st.out)
    case 1 => State(2, v % 16, 0, st.padded, st.out + [st.left * 4 + v / 16])
    case 2 => State(3, v % 4, 0, st.padded, st.out + [st.left * 16 + v / 4])
    case _ => State(0, 0, 0, st.padded, st.out + [st.left * 64 + v])
  }

  /** The decoder from a state on; `None` stands for the decoding error. */
  function Scan(s: string, st: State, alphabet: Alphabet, mode: Mode): Option<seq<Byte>>
    requires Sane(st)
    decreases |s|
  {
    if s == "" then (if st.quad == 0 then Some(st.out) else None)
    else if s[0] == '=' then
      if mode.Strict? && st.quad == 0 then None
      else if st.quad >= 2 && st.quad + st.pads + 1 >= 4 then
        (if mode.Strict? && |s| > 1 then None else Some(st.out))
      else Scan(s[1..], st.(pads := if st.quad >= 2 then st.pads + 1 else st.pads, padded := true), alphabet, mode)
    else
      match ValueOf(s[0], alphabet)
      case None => if mode.Strict? then None else Scan(s[1..], st, alphabet, mode)
      case Some(v) => if mode.Strict? && st.padded then None else Scan(s[1..], Push(st, v), alphabet, mode)
  }

  predicate Ascii(s: string) {
    forall i :: 0 <= i < |s| ==> s[i] as int < 0x80
  }

  /** Only ASCII text can be decoded. */
  function Decode(s: string, alphabet: Alphabet, mode: Mode): Option<seq<Byte>> {
    if Ascii(s) then Scan(s, START, alphabet, mode) else None
  }

  /** `s.rstrip("=")`. */
  function StripPadding(s: string): string {
    if s != "" && s[|s| - 1] == '=' then StripPadding(s[..|s| - 1]) else s
  }

  /** The padding that the token decoder puts back. */
  function Repad(s: string): string {
    s + Equals((4 - |s| % 4) % 4)
  }

  // ------------------------------------------------------------ round trip

  lemma ScanDigit(v: Sextet, rest: string, st: State, alphabet: Alphabet, mode: Mode)
    requires Sane(st) && !st.padded
    ensures Scan([Digit(v, alphabet)] + rest, st, alphabet, mode) == Scan(rest, Push(st, v), alphabet, mode)
  {
    DigitHasItsValue(v, alphabet);
    ConsTail(Digit(v, alphabet), rest);
  }

  lemma ScanDigits2(v: Sextet, w: Sextet, rest: string, st: State, alphabet: Alphabet, mode: Mode)
    requires Sane(st) && !st.padded
    ensures Scan([Digit(v, alphabet), Digit(w, alphabet)] + rest, st, alphabet, mode)
         == Scan(rest, Push(Push(st, v), w), alphabet, mode)
  {
    assert [Digit(v, alphabet), Digit(w, alphabet)] + rest == [Digit(v, alphabet)] + ([Digit(w, alphabet)] + rest);
    ScanDigit(v, [Digit(w, alphabet)] + rest, st, alphabet, mode);
    ScanDigit(w, rest, Push(st, v), alphabet, mode);
  }

  /** The first two digits of a group yield its first byte. */
  lemma FirstByte(b: Byte, high: nat, out: seq<Byte>)
    requires high < 16
    ensures Push(Push(State(0, 0, 0, false, out), b / 4), b % 4 * 16 + high) == State(2, high, 0, false, out + [b])
  {
  }

  lemma SecondByte(b: Byte, high: nat, out: seq<Byte>)
    requires high < 4
    ensures Push(State(2, b / 16, 0, false, out), b % 16 * 4 + high) == State(3, high, 0, false, out + [b])
  {
  }

  lemma ThirdByte(b: Byte, out: seq<Byte>)
    ensures Push(State(3, b / 64, 0, false, out), b % 64) == State(0, 0, 0, false, out + [b])
  {
  }

  lemma SplitGroup(b: seq<Byte>, rest: string, alphabet: Alphabet)
    requires |b| == 3
    ensures var head := [Digit(b[0] / 4, alphabet), Digit(b[0] % 4 * 16 + b[1] / 16, alphabet)];
            var tail := [Digit(b[1] % 16 * 4 + b[2] / 64, alphabet), Digit(b[2] % 64, alphabet)];
            Group(b, alphabet) + rest == head + (tail + rest)
  {
  }

  lemma AppendThree(out: seq<Byte>, b: seq<Byte>)
    requires |b| == 3
    ensures out + [b[0]] + [b[1]] + [b[2]] == out + b
  {
  }

  lemma ScanSecondHalf(b: Byte, c: Byte, rest: string, out: seq<Byte>, alphabet: Alphabet, mode: Mode)
    ensures Scan([Digit(b % 16 * 4 + c / 64, alphabet), Digit(c % 64, alphabet)] + rest,
                 State(2, b / 16, 0, false, out), alphabet, mode)
         == Scan(rest, State(0, 0, 0, false, out + [b] + [c]), alphabet, mode)
  {
    ScanDigits2(b % 16 * 4 + c / 64, c % 64, rest, State(2, b / 16, 0, false, out), alphabet, mode);
    SecondByte(b, c / 64, out);
    ThirdByte(c, out + [b]);
  }

  lemma ScanFirstHalf(b: Byte, c: Byte, rest: string, out: seq<Byte>, alphabet: Alphabet, mode: Mode)
    ensures Scan([Digit(b / 4, alphabet), Digit(b % 4 * 16 + c / 16, alphabet)] + rest,
                 State(0, 0, 0, false, out), alphabet, mode)
         == Scan(rest, State(2, c / 16, 0, false, out + [b]), alphabet, mode)
  {
    ScanDigits2(b / 4, b % 4 * 16 + c / 16, rest, State(0, 0, 0, false, out), alphabet, mode);
    FirstByte(b, c / 16, out);
  }

  lemma ScanThreeBytes(a: Byte, b: Byte, c: Byte, rest: string, out: seq<Byte>, alphabet: Alphabet, mode: Mode)
    ensures var head := [Digit(a / 4, alphabet), Digit(a % 4 * 16 + b / 16, alphabet)];
            var tail := [Digit(b % 16 * 4 + c / 64, alphabet), Digit(c % 64, alphabet)];
            Scan(head + (tail + rest), State(0, 0, 0, false, out), alphabet, mode)
              == Scan(rest, State(0, 0, 0, false, out + [a] + [b] + [c]), alphabet, mode)
  {
    var tail := [Digit(b % 16 * 4 + c / 64, alphabet), Digit(c % 64, alphabet)];
    ScanFirstHalf(a, b, tail + rest, out, alphabet, mode);
    ScanSecondHalf(b, c, rest, out + [a], alphabet, mode);
  }

  lemma ScanFullGroup(b: seq<Byte>, rest: string, out: seq<Byte>, alphabet: Alphabet, mode: Mode)
    requires |b| == 3
    ensures Scan(Group(b, alphabet) + rest, State(0, 0, 0, false, out), alphabet, mode)
         == Scan(rest, State(0, 0, 0, false, out + b), alphabet, mode)
  {
    SplitGroup(b, rest, alphabet);
    ScanThreeBytes(b[0], b[1], b[2], rest, out, alphabet, mode);
    AppendThree(out, b);
  }

  /** Two padding characters end a quadruple of two digits, one ends one of three. */
  lemma ScanPadding(st: State, alphabet: Alphabet, mode: Mode)
    requires Sane(st) && 2 <= st.quad && st.pads == 0
    ensures Scan(Equals(4 - st.quad), st, alphabet, mode) == Some(st.out)
  {
    var s := Equals(4 - st.quad);
    if st.quad == 2 {
      var tail := s[1..];
      assert Scan(s, st, alphabet, mode) == Scan(tail, st.(pads := 1, padded := true), alphabet, mode);
      assert |tail| == 1 && tail[0] == '=';
    }
  }

  lemma ScanOneByte(b: Byte, out: seq<Byte>, alphabet: Alphabet, mode: Mode)
    ensures Scan(Group([b], alphabet) + Equals(2), State(0, 0, 0, false, out), alphabet, mode) == Some(out + [b])
  {
    ScanDigits2(b / 4, b % 4 * 16, Equals(2), State(0, 0, 0, false, out), alphabet, mode);
    FirstByte(b, 0, out);
    ScanPadding(State(2, 0, 0, false, out + [b]), alphabet, mode);
  }

  lemma ScanTwoBytes(b: Byte, c: Byte, out: seq<Byte>, alphabet: Alphabet, mode: Mode)
    ensures Scan(Group([b, c], alphabet) + Equals(1), State(0, 0, 0, false, out), alphabet, mode)
         == Some(out + [b] + [c])
  {
    var v0, v1, v2 := b / 4, b % 4 * 16 + c / 16, c % 16 * 4;
    var tail := [Digit(v2, alphabet)] + Equals(1);
    assert Group([b, c], alphabet) + Equals(1) == [Digit(v0, alphabet), Digit(v1, alphabet)] + tail;
    ScanDigits2(v0, v1, tail, State(0, 0, 0, false, out), alphabet, mode);
    FirstByte(b, c / 16, out);
    ScanDigit(v2, Equals(1), State(2, c / 16, 0, false, out + [b]), alphabet, mode);
    SecondByte(c, 0, out + [b]);
    ScanPadding(State(3, 0, 0, false, out + [b] + [c]), alphabet, mode);
  }

  lemma AppendTwo(out: seq<Byte>, b: seq<Byte>)
    requires |b| == 2
    ensures b == [b[0], b[1]] && out + [b[0]] + [b[1]] == out + b
  {
  }

  lemma ScanLastGroup(b: seq<Byte>, out: seq<Byte>, alphabet: Alphabet, mode: Mode)
    requires 1 <= |b| <= 3
    ensures Scan(Group(b, alphabet) + Padding(|b|), State(0, 0, 0, false, out), alphabet, mode) == Some(out + b)
  {
    if |b| == 1 {
      assert b == [b[0]];
      ScanOneByte(b[0], out, alphabet, mode);
    } else if |b| == 2 {
      AppendTwo(out, b);
      ScanTwoBytes(b[0], b[1], out, alphabet, mode);
    } else {
      ScanFullGroup(b, Equals(0), out, alphabet, mode);
    }
  }

  lemma EncodeSplits(b: seq<Byte>, alphabet: Alphabet)
    requires |b| > 3
    ensures Encode(b, alphabet) == Group(b[..3], alphabet) + Encode(b[3..], alphabet)
  {
    assert (|b| - 3) % 3 == |b| % 3;
    Assoc(Group(b[..3], alphabet), Digits(b[3..], alphabet), Padding(|b[3..]|));
  }

  lemma {:induction false} ScanEncoded(b: seq<Byte>, out: seq<Byte>, alphabet: Alphabet, mode: Mode)
    ensures Scan(Encode(b, alphabet), State(0, 0, 0, false, out), alphabet, mode) == Some(out + b)
    decreases |b|
  {
    if b == [] {
      assert Encode(b, alphabet) == "";
      Empty(out);
    } else if |b| <= 3 {
      ScanLastGroup(b, out, alphabet, mode);
    } else {
      var first, rest := b[..3], b[3..];
      EncodeSplits(b, alphabet);
      ScanFullGroup(first, Encode(rest, alphabet), out, alphabet, mode);
      ScanEncoded(rest, out + first, alphabet, mode);
      Assoc(out, first, rest);
      Cut(b, 3);
    }
  }

  /** A digit is ASCII, visible, and neither a dot nor a padding character. */
  predicate Plain(s: string) {
    forall i :: 0 <= i < |s| ==> 0x20 < s[i] as int < 0x80 && s[i] != '.' && s[i] != '='
  }

  lemma {:induction false} DigitsArePlain(b: seq<Byte>, alphabet: Alphabet)
    ensures Plain(Digits(b, alphabet))
    ensures |Digits(b, alphabet)| == |b| / 3 * 4 + (if |b| % 3 == 0 then 0 else |b| % 3 + 1)
    decreases |b|
  {
    if b != [] {
      GroupIsPlain(if |b| <= 3 then b else b[..3], alphabet);
      if |b| > 3 {
        DigitsArePlain(b[3..], alphabet);
      }
    }
  }

  lemma GroupIsPlain(b: seq<Byte>, alphabet: Alphabet)
    requires 1 <= |b| <= 3
    ensures Plain(Group(b, alphabet)) && |Group(b, alphabet)| == |b| + 1
  {
    forall v: Sextet
      ensures 0x20 < Digit(v, alphabet) as int < 0x80 && Digit(v, alphabet) != '.' && Digit(v, alphabet) != '='
    {
      DigitHasItsValue(v, alphabet);
    }
  }

  lemma {:induction false} StripPaddingOf(s: string, n: nat)
    requires Plain(s)
    ensures StripPadding(s + Equals(n)) == s
    decreases n
  {
    var t := s + Equals(n);
    if n == 0 {
      assert t == s;
    } else {
      assert t[..|t| - 1] == s + Equals(n - 1);
      StripPaddingOf(s, n - 1);
    }
  }

  /** Both modes give back what either alphabet encodes. */
  lemma DecodeInvertsEncode(b: seq<Byte>, alphabet: Alphabet, mode: Mode)
    ensures Decode(Encode(b, alphabet), alphabet, mode) == Some(b)
  {
    DigitsArePlain(b, alphabet);
    ScanEncoded(b, [], alphabet, mode);
    Empty(b);
  }

  lemma PaddingCounts(n: nat, digits: nat)
    requires digits == n / 3 * 4 + (if n % 3 == 0 then 0 else n % 3 + 1)
    ensures (4 - digits % 4) % 4 == (3 - n % 3) % 3
  {
  }

  lemma DigitsPads(b: seq<Byte>, alphabet: Alphabet)
    ensures Padding(|b|) == Equals((4 - |Digits(b, alphabet)| % 4) % 4)
  {
    DigitsArePlain(b, alphabet);
    PaddingCounts(|b|, |Digits(b, alphabet)|);
  }

  /** The padding that the token encoder strips is what its decoder restores. */
  lemma PaddingIsRestored(b: seq<Byte>, alphabet: Alphabet)
    ensures StripPadding(Encode(b, alphabet)) == Digits(b, alphabet)
    ensures Repad(Digits(b, alphabet)) == Encode(b, alphabet)
  {
    DigitsPads(b, alphabet);
    DigitsArePlain(b, alphabet);
    StripPaddingOf(Digits(b, alphabet), (3 - |b| % 3) % 3);
  }

  const UPPER: string := "ABCDEFGHIJKLMNOPQRSTUVWXYZ"
  const LOWER: string := "abcdefghijklmnopqrstuvwxyz"
  const DECIMAL: string := "0123456789"

  /** The two alphabets, written out. */
  lemma DigitsAreTheAlphabet(v: Sextet)
    ensures v < 26 ==> Digit(v, Standard) == Digit(v, UrlSafe) == UPPER[v]
    ensures 26 <= v < 52 ==> Digit(v, Standard) == Digit(v, UrlSafe) == LOWER[v - 26]
    ensures 52 <= v < 62 ==> Digit(v, Standard) == Digit(v, UrlSafe) == DECIMAL[v - 52]
    ensures v == 62 ==> Digit(v, Standard) == '+' && Digit(v, UrlSafe) == '-'
    ensures v == 63 ==> Digit(v, Standard) == '/' && Digit(v, UrlSafe) == '_'
  {
  }

  predicate IsDigit(c: char, alphabet: Alphabet) {
    ValueOf(c, alphabet).Some?
  }

  /** Length of the run of digits at the front. */
  function DigitRun(s: string, alphabet: Alphabet): (k: nat)
    ensures k <= |s|
    ensures forall i :: 0 <= i < k ==> IsDigit(s[i], alphabet)
    ensures k < |s| ==> !IsDigit(s[k], alphabet)
  {
    if s == "" || !IsDigit(s[0], alphabet) then 0 else 1 + DigitRun(s[1..], alphabet)
  }

  /** Digits, then at most two padding characters, up to a whole quadruple. */
  ghost predicate Quadruples(s: string, quad: nat, alphabet: Alphabet) {
    var k := DigitRun(s, alphabet);
    (|s| + quad) % 4 == 0 && |s| - k <= 2 && forall i :: k <= i < |s| ==> s[i] == '='
  }

  lemma QuadruplesCons(s: string, quad: nat, alphabet: Alphabet)
    requires s != "" && IsDigit(s[0], alphabet) && quad < 4
    ensures Quadruples(s, quad, alphabet) <==> Quadruples(s[1..], (quad + 1) % 4, alphabet)
  {
    var k := DigitRun(s, alphabet);
    assert k == 1 + DigitRun(s[1..], alphabet);
    assert forall i :: k <= i < |s| ==> s[i] == s[1..][i - 1];
    assert forall i :: k - 1 <= i < |s| - 1 ==> s[1..][i] == s[i + 1];
  }

  /** The strict decoder on what begins with padding. */
  lemma StrictPadding(s: string, st: State, alphabet: Alphabet)
    requires Sane(st) && !st.padded && st.pads == 0 && s != "" && s[0] == '='
    ensures Scan(s, st, alphabet, Strict).Some? <==> (st.quad == 3 && s == "=") || (st.quad == 2 && s == "==")
  {
    if st.quad == 1 {
      StuckPadding(s, st, alphabet);
    } else if st.quad == 2 && |s| > 1 {
      var rest, next := s[1..], st.(pads := 1, padded := true);
      assert Scan(s, st, alphabet, Strict) == Scan(rest, next, alphabet, Strict);
      assert s == [s[0]] + rest;
    }
  }

  lemma {:induction false} StuckPadding(s: string, st: State, alphabet: Alphabet)
    requires Sane(st) && st.quad == 1 && (st.padded || (s != "" && s[0] == '='))
    ensures Scan(s, st, alphabet, Strict).None?
    decreases |s|
  {
    if s != "" && s[0] == '=' {
      StuckPadding(s[1..], st.(padded := true), alphabet);
    }
  }

  lemma PaddingQuadruples(s: string, quad: nat, alphabet: Alphabet)
    requires quad < 4 && s != "" && !IsDigit(s[0], alphabet)
    ensures Quadruples(s, quad, alphabet) <==> (quad == 3 && s == "=") || (quad == 2 && s == "==")
  {
    if |s| <= 2 {
      assert s == [s[0]] + s[1..];
    }
  }

  lemma {:induction false} StrictScanIff(s: string, st: State, alphabet: Alphabet)
    requires Sane(st) && !st.padded && st.pads == 0
    ensures Scan(s, st, alphabet, Strict).Some? <==> Quadruples(s, st.quad, alphabet)
    decreases |s|
  {
    if s != "" {
      if IsDigit(s[0], alphabet) {
        QuadruplesCons(s, st.quad, alphabet);
        StrictScanIff(s[1..], Push(st, ValueOf(s[0], alphabet).value), alphabet);
      } else {
        PaddingQuadruples(s, st.quad, alphabet);
        if s[0] == '=' {
          StrictPadding(s, st, alphabet);
        }
      }
    }
  }

  lemma QuadruplesAreAscii(s: string, alphabet: Alphabet)
    requires Quadruples(s, 0, alphabet)
    ensures Ascii(s)
  {
  }

  /** The strict mode accepts exactly whole quadruples of digits with at most two
      padding characters at their end. */
  lemma StrictAcceptsIff(s: string, alphabet: Alphabet)
    ensures Decode(s, alphabet, Strict).Some? <==> Quadruples(s, 0, alphabet)
  {
    StrictScanIff(s, START, alphabet);
    if Quadruples(s, 0, alphabet) {
      QuadruplesAreAscii(s, alphabet);
    }
  }

  /** The digits and padding characters of a text. */
  function Clean(s: string, alphabet: Alphabet): string {
    if s == "" then ""
    else if s[0] == '=' || IsDigit(s[0], alphabet) then [s[0]] + Clean(s[1..], alphabet)
    else Clean(s[1..], alphabet)
  }

  /** The lenient mode reads nothing but digits and padding. */
  lemma {:induction false} LenientScansClean(s: string, st: State, alphabet: Alphabet)
    requires Sane(st)
    ensures Scan(s, st, alphabet, Lenient) == Scan(Clean(s, alphabet), st, alphabet, Lenient)
    decreases |s|
  {
    if s != "" {
      var rest := Clean(s[1..], alphabet);
      if s[0] == '=' {
        ConsTail(s[0], rest);
        if !(st.quad >= 2 && st.quad + st.pads + 1 >= 4) {
          LenientScansClean(
            s[1..], st.(pads := if st.quad >= 2 then st.pads + 1 else st.pads, padded := true), alphabet);
        }
      } else if IsDigit(s[0], alphabet) {
        ConsTail(s[0], rest);
        LenientScansClean(s[1..], Push(st, ValueOf(s[0], alphabet).value), alphabet);
      } else {
        LenientScansClean(s[1..], st, alphabet);
      }
    }
  }

  lemma {:induction false} CleanIsAscii(s: string, alphabet: Alphabet)
    requires Ascii(s)
    ensures Ascii(Clean(s, alphabet))
  {
    if s != "" {
      CleanIsAscii(s[1..], alphabet);
    }
  }

  lemma LenientIgnoresOthers(s: string, alphabet: Alphabet)
    requires Ascii(s)
    ensures Decode(s, alphabet, Lenient) == Decode(Clean(s, alphabet), alphabet, Lenient)
  {
    LenientScansClean(s, START, alphabet);
    CleanIsAscii(s, alphabet);
  }

  /** What the strict mode accepts, the lenient mode reads the same way. */
  lemma {:induction false} StrictRefinesLenient(s: string, st: State, alphabet: Alphabet)
    requires Sane(st) && Scan(s, st, alphabet, Strict).Some?
    ensures Scan(s, st, alphabet, Lenient) == Scan(s, st, alphabet, Strict)
    decreases |s|
  {
    if s != "" {
      if s[0] == '=' {
        if !(st.quad >= 2 && st.quad + st.pads + 1 >= 4) {
          StrictRefinesLenient(
            s[1..], st.(pads := if st.quad >= 2 then st.pads + 1 else st.pads, padded := true), alphabet);
        }
      } else {
        StrictRefinesLenient(s[1..], Push(st, ValueOf(s[0], alphabet).value), alphabet);
      }
    }
  }
}

/** Line and word splitting and the number grammars that the route checker and
    the script parser are built from, as Rust's standard library defines them
    over Unicode scalar values. */
module Text {
  import opened Wrappers

  // ---- Lines and words ----

  /** Where `c` first occurs, or the length of `s`. */
  function IndexOf(s: string, c: char): (i: nat)
    ensures i <= |s|
    ensures forall k | 0 <= k < i :: s[k] != c
    ensures i < |s| ==> s[i] == c
  {
    if s == "" || s[0] == c then 0 else 1 + IndexOf(s[1..], c)
  }

  function WithoutReturn(line: string): string {
    if line != "" && line[|line| - 1] == '\r' then line[..|line| - 1] else line
  }

  /** `str::lines`: a line ends at a line feed, with one carriage return just
      before it dropped; text after the last line feed is a line as it is. */
  function Lines(s: string): seq<string>
    decreases |s|
  {
    if s == "" then []
    else
      var i := IndexOf(s, '\n');
      if i == |s| then [s] else [WithoutReturn(s[..i])] + Lines(s[i + 1..])
  }

  predicate IsAsciiSpace(c: char) {
    c in " \t\n\r" || c == '\U{C}'
  }

  /** Unicode's White_Space property, which `str::trim` uses. */
  predicate IsWhiteSpace(c: char) {
    '\t' <= c <= '\r' || c == ' ' || c == '\U{85}' || c == '\U{A0}' || c == '\U{1680}' ||
    '\U{2000}' <= c <= '\U{200A}' || c == '\U{2028}' || c == '\U{2029}' || c == '\U{202F}' ||
    c == '\U{205F}' || c == '\U{3000}'
  }

  function TrimStart(s: string): string {
    if s != "" && IsWhiteSpace(s[0]) then TrimStart(s[1..]) else s
  }

  function TrimEnd(s: string): string {
    if s != "" && IsWhiteSpace(s[|s| - 1]) then TrimEnd(s[..|s| - 1]) else s
  }

  function Trim(s: string): string {
    TrimEnd(TrimStart(s))
  }

  /** How many characters precede the first ASCII space. */
  function WordLength(s: string): (n: nat)
    ensures n <= |s|
    ensures forall k | 0 <= k < n :: !IsAsciiSpace(s[k])
    ensures n < |s| ==> IsAsciiSpace(s[n])
  {
    if s == "" || IsAsciiSpace(s[0]) then 0 else 1 + WordLength(s[1..])
  }

  /** `str::split_ascii_whitespace`. */
  function Words(s: string): seq<string>
    decreases |s|
  {
    if s == "" then []
    else if IsAsciiSpace(s[0]) then Words(s[1..])
    else [s[..WordLength(s)]] + Words(s[WordLength(s)..])
  }

  // ---- Whole numbers ----

  predicate IsDigit(c: char) { '0' <= c <= '9' }

  predicate AllDigits(s: string) {
    forall i | 0 <= i < |s| :: IsDigit(s[i])
  }

  function DigitsValue(s: string): nat
    requires AllDigits(s)
  {
    if s == "" then 0 else 10 * DigitsValue(s[..|s| - 1]) + (s[|s| - 1] - '0') as nat
  }

  /** `str::parse` for an unsigned type with the given largest value: an
      optional plus sign, at least one digit, and no overflow. */
  function ParseUnsigned(s: string, max: nat): Option<nat> {
    var digits := if s != "" && s[0] == '+' then s[1..] else s;
    if digits != "" && AllDigits(digits) && DigitsValue(digits) <= max then Some(DigitsValue(digits))
    else None
  }

  /** The tools' own stricter reader: digits only. */
  function Unsigned(s: string, max: nat): Option<nat> {
    if s == "" || !AllDigits(s) then None else ParseUnsigned(s, max)
  }

  const U8_MAX: nat := 0xFF
  const U32_MAX: nat := 0xFFFF_FFFF
  const U64_MAX: nat := 0xFFFF_FFFF_FFFF_FFFF

  // ---- Decimal numbers ----

  /** A parsed float: its exact value before rounding, or a special value. */
  datatype Float = Finite(value: real) | Infinite(negative: bool) | NotANumber

  /** The magnitude from which rounding to 32 bits gives infinity:
      2^128 - 2^103. */
  const F32_OVERFLOW: real := 340282356779733661637539395458142568448.0

  function Pow10(n: int): real
    decreases if n < 0 then -n else n
  {
    if n == 0 then 1.0 else if n > 0 then 10.0 * Pow10(n - 1) else Pow10(n + 1) / 10.0
  }

  function DigitRun(s: string): (n: nat)
    ensures n <= |s|
    ensures AllDigits(s[..n])
    ensures n < |s| ==> !IsDigit(s[n])
  {
    if s == "" || !IsDigit(s[0]) then 0 else 1 + DigitRun(s[1..])
  }

  /** An exponent part: nothing, or `e`, an optional sign, and digits. */
  function ParseExponent(s: string): Option<int> {
    if s == "" then Some(0)
    else if s[0] != 'e' && s[0] != 'E' then None
    else
      var signed := s[1..];
      var digits := if signed != "" && signed[0] in "+-" then signed[1..] else signed;
      if digits == "" || !AllDigits(digits) then None
      else
        var e: int := if signed[0] == '-' then -(DigitsValue(digits) as int) else DigitsValue(digits);
        Some(e)
  }

  /** The exact value of an unsigned decimal number. */
  function ParseNumber(s: string): Option<real> {
    var whole := DigitRun(s);
    var dotted := whole < |s| && s[whole] == '.';
    var start := if dotted then whole + 1 else whole;
    var places := if dotted then DigitRun(s[start..]) else 0;
    if whole + places == 0 then None
    else
      var mantissa := s[..whole] + s[start..][..places];
      match ParseExponent(s[start + places..])
      case None => None
      case Some(e) => Some(DigitsValue(mantissa) as real * Pow10(e - places))
  }

  function Lower(s: string): string {
    seq(|s|, i requires 0 <= i < |s| =>
      if 'A' <= s[i] <= 'Z' then s[i] - 'A' + 'a' else s[i])
  }

  /** `str::parse` for a 32-bit float. */
  function ParseFloat(s: string): Option<Float> {
    if s == "" then None
    else
      var negative := s[0] == '-';
      var body := if s[0] in "+-" then s[1..] else s;
      if body == "" then None
      else match ParseNumber(body)
        case Some(v) =>
          if v >= F32_OVERFLOW then Some(Infinite(negative))
          else Some(Finite(if negative then -v else v))
        case None =>
          if Lower(body) == "inf" || Lower(body) == "infinity" then Some(Infinite(negative))
          else if Lower(body) == "nan" then Some(NotANumber)
          else None
  }

  /** The tools' own stricter reader of nonnegative seconds: digits, a point,
      digits. */
  function Seconds(s: string): Option<real> {
    var i := IndexOf(s, '.');
    if i == |s| || Unsigned(s[..i], U64_MAX).None? || Unsigned(s[i + 1..], U64_MAX).None? then None
    else match ParseFloat(s)
      case Some(Finite(v)) => if v >= 0.0 then Some(v) else None
      case _ => None
  }

  // ---- Facts about lines and words ----

  predicate LineFree(line: string) {
    (forall k | 0 <= k < |line| :: line[k] != '\n') && (line == "" || line[|line| - 1] != '\r')
  }

  /** Lines written out, each ended by a line feed. */
  function Unlines(lines: seq<string>): string {
    if lines == [] then "" else lines[0] + "\n" + Unlines(lines[1..])
  }

  lemma FirstLine(s: string, line: string, rest: string)
    requires LineFree(line) && s == line + "\n" + rest
    ensures Lines(s) == [line] + Lines(rest)
  {
    var i := IndexOf(s, '\n');
    assert s[|line|] == '\n';
    assert forall k | 0 <= k < |line| :: s[k] == line[k] && s[k] != '\n';
    assert i == |line|;
    assert s[..i] == line && s[i + 1..] == rest;
  }

  /** A carriage return before the line feed belongs to the end of the line,
      and only one does. */
  lemma FirstLineReturned(s: string, line: string, rest: string)
    requires (forall k | 0 <= k < |line| :: line[k] != '\n') && s == line + "\r\n" + rest
    ensures Lines(s) == [line] + Lines(rest)
  {
    var i := IndexOf(s, '\n');
    assert s[|line|] == '\r' && s[|line| + 1] == '\n';
    assert forall k | 0 <= k < |line| :: s[k] == line[k] && s[k] != '\n';
    assert i == |line| + 1;
    assert s[..i] == line + "\r" && s[i + 1..] == rest;
    assert (line + "\r")[..|line|] == line;
  }

  /** The spaces between words: tab, line feed, form feed, carriage return and
      blank. */
  lemma AsciiSpaces(c: char)
    ensures IsAsciiSpace(c) <==> c as int in [9, 10, 12, 13, 32]
  {
  }

  /** Written lines read back as themselves, whatever follows them. */
  lemma {:induction false} LinesOfUnlines(lines: seq<string>, rest: string, s: string)
    requires forall i | 0 <= i < |lines| :: LineFree(lines[i])
    requires s == Unlines(lines) + rest
    ensures Lines(s) == lines + Lines(rest)
  {
    if lines == [] {
      assert s == rest;
    } else {
      var tail := UnlinesTail(lines, rest, s);
      LinesOfUnlines(lines[1..], rest, tail);
      FirstLine(s, lines[0], tail);
      PrependLine(lines, Lines(rest));
    }
  }

  lemma UnlinesTail(lines: seq<string>, rest: string, s: string) returns (tail: string)
    requires lines != [] && s == Unlines(lines) + rest
    ensures s == lines[0] + "\n" + tail && tail == Unlines(lines[1..]) + rest
  {
    tail := Unlines(lines[1..]) + rest;
  }

  lemma PrependLine(lines: seq<string>, more: seq<string>)
    requires lines != []
    ensures [lines[0]] + (lines[1..] + more) == lines + more
  {
  }

  lemma {:induction false} WordsOfTrailingSpace(s: string, c: char)
    requires IsAsciiSpace(c)
    ensures Words(s + [c]) == Words(s)
    decreases |s|
  {
    if s == "" {
      assert Words([c]) == Words([c][1..]) == [];
    } else if IsAsciiSpace(s[0]) {
      WordsOfTrailingSpace(s[1..], c);
      assert (s + [c])[1..] == s[1..] + [c];
    } else {
      var n := WordLength(s);
      WordLengthOfPrefix(s, [c]);
      assert (s + [c])[..n] == s[..n];
      assert (s + [c])[n..] == s[n..] + [c];
      WordsOfTrailingSpace(s[n..], c);
    }
  }

  lemma {:induction false} WordLengthOfPrefix(s: string, t: string)
    requires t == "" || IsAsciiSpace(t[0])
    ensures WordLength(s + t) == WordLength(s)
  {
    if s == "" {
      assert s + t == t;
    } else if !IsAsciiSpace(s[0]) {
      WordLengthOfPrefix(s[1..], t);
      assert (s + t)[1..] == s[1..] + t;
    }
  }

  /** Trimming does not disturb the words of a line whose only white space is
      ASCII. */
  predicate AsciiSpacesOnly(s: string) {
    forall i | 0 <= i < |s| :: IsWhiteSpace(s[i]) ==> IsAsciiSpace(s[i])
  }

  lemma {:induction false} WordsOfTrimStart(s: string)
    requires AsciiSpacesOnly(s)
    ensures Words(TrimStart(s)) == Words(s) && AsciiSpacesOnly(TrimStart(s))
  {
    if s != "" && IsWhiteSpace(s[0]) {
      WordsOfTrimStart(s[1..]);
    }
  }

  lemma {:induction false} WordsOfTrimEnd(s: string)
    requires AsciiSpacesOnly(s)
    ensures Words(TrimEnd(s)) == Words(s)
  {
    if s != "" && IsWhiteSpace(s[|s| - 1]) {
      var n := |s| - 1;
      WordsOfTrimEnd(s[..n]);
      WordsOfTrailingSpace(s[..n], s[n]);
      assert s == s[..n] + [s[n]];
    }
  }

  lemma WordsOfTrim(s: string)
    requires AsciiSpacesOnly(s)
    ensures Words(Trim(s)) == Words(s)
  {
    WordsOfTrimStart(s);
    WordsOfTrimEnd(TrimStart(s));
  }

  /** Every character of a line is an ASCII space or belongs to one of its
      words. */
  lemma {:induction false} CharacterInWord(s: string, i: nat)
    requires i < |s| && !IsAsciiSpace(s[i])
    ensures exists w :: w in Words(s) && s[i] in w
    decreases |s|
  {
    if IsAsciiSpace(s[0]) {
      CharacterInWord(s[1..], i - 1);
    } else {
      var n := WordLength(s);
      if i < n {
        assert s[..n] in Words(s) && s[i] in s[..n];
      } else {
        CharacterInWord(s[n..], i - n);
        var w :| w in Words(s[n..]) && s[n..][i - n] in w;
        assert w in Words(s) && s[i] in w;
      }
    }
  }

  lemma {:induction false} WordsAreWords(s: string, w: string)
    requires w in Words(s)
    ensures w != "" && forall i | 0 <= i < |w| :: !IsAsciiSpace(w[i])
    decreases |s|
  {
    if s == "" {
    } else if IsAsciiSpace(s[0]) {
      WordsAreWords(s[1..], w);
    } else if w != s[..WordLength(s)] {
      WordsAreWords(s[WordLength(s)..], w);
    }
  }

  lemma {:induction false} TrimStartFirst(s: string)
    ensures TrimStart(s) != "" ==> !IsWhiteSpace(TrimStart(s)[0])
  {
    if s != "" && IsWhiteSpace(s[0]) {
      TrimStartFirst(s[1..]);
    }
  }

  lemma {:induction false} TrimEndFirst(s: string)
    ensures TrimEnd(s) != "" ==> s != "" && TrimEnd(s)[0] == s[0]
    ensures s != "" && !IsWhiteSpace(s[0]) ==> TrimEnd(s) != ""
  {
    if s != "" && IsWhiteSpace(s[|s| - 1]) {
      TrimEndFirst(s[..|s| - 1]);
    }
  }

  // ---- Written words ----

  /** No white space of any kind. */
  predicate Solid(w: string) {
    forall i | 0 <= i < |w| :: !IsWhiteSpace(w[i])
  }

  lemma DigitsAreSolid(w: string)
    requires AllDigits(w)
    ensures Solid(w)
  {
  }

  predicate AllSpaces(gap: string) {
    forall i | 0 <= i < |gap| :: IsAsciiSpace(gap[i])
  }

  /** Words with gaps before, between and behind them. */
  function Spaced(words: seq<string>, gaps: seq<string>): string
    requires |gaps| == |words| + 1
  {
    if words == [] then gaps[0] else gaps[0] + words[0] + Spaced(words[1..], gaps[1..])
  }

  ghost predicate Gaps(words: seq<string>, gaps: seq<string>) {
    && |gaps| == |words| + 1
    && (forall i | 0 <= i < |gaps| :: AllSpaces(gaps[i]))
    && (forall i | 0 < i < |words| :: gaps[i] != "")
  }

  ghost predicate IsWord(w: string) {
    w != "" && forall i | 0 <= i < |w| :: !IsAsciiSpace(w[i])
  }

  lemma {:induction false} SpacesBefore(gap: string, rest: string)
    requires AllSpaces(gap)
    ensures Words(gap + rest) == Words(rest)
  {
    if gap == "" {
      assert gap + rest == rest;
    } else {
      SpacesBefore(gap[1..], rest);
      assert (gap + rest)[1..] == gap[1..] + rest;
    }
  }

  lemma {:induction false} WordRun(w: string, rest: string)
    requires forall i | 0 <= i < |w| :: !IsAsciiSpace(w[i])
    requires rest == "" || IsAsciiSpace(rest[0])
    ensures WordLength(w + rest) == |w|
  {
    if w == "" {
      assert w + rest == rest;
    } else {
      WordRun(w[1..], rest);
      assert (w + rest)[1..] == w[1..] + rest;
    }
  }

  lemma WordBefore(w: string, rest: string)
    requires IsWord(w) && (rest == "" || IsAsciiSpace(rest[0]))
    ensures Words(w + rest) == [w] + Words(rest)
  {
    WordRun(w, rest);
    var s := w + rest;
    assert s[0] == w[0] && s[..|w|] == w && s[|w|..] == rest;
  }

  /** Words are read back from between any gaps. */
  lemma {:induction false} WordsOfSpaced(words: seq<string>, gaps: seq<string>)
    requires Gaps(words, gaps) && forall w | w in words :: IsWord(w)
    ensures Words(Spaced(words, gaps)) == words
  {
    if words == [] {
      SpacesBefore(gaps[0], "");
      assert gaps[0] + "" == gaps[0];
    } else {
      var rest := Spaced(words[1..], gaps[1..]);
      GapsAfter(words, gaps);
      WordsOfSpaced(words[1..], gaps[1..]);
      SpacedStarts(words[1..], gaps[1..]);
      WordBefore(words[0], rest);
      SpacesBefore(gaps[0], words[0] + rest);
      assert gaps[0] + (words[0] + rest) == Spaced(words, gaps);
      assert [words[0]] + words[1..] == words;
    }
  }

  lemma GapsAfter(words: seq<string>, gaps: seq<string>)
    requires words != [] && Gaps(words, gaps)
    ensures Gaps(words[1..], gaps[1..]) && AllSpaces(gaps[0])
    ensures |words| > 1 ==> gaps[1] != ""
  {
  }

  lemma SpacedStarts(words: seq<string>, gaps: seq<string>)
    requires Gaps(words, gaps) && (words != [] ==> gaps[0] != "")
    ensures Spaced(words, gaps) == "" || IsAsciiSpace(Spaced(words, gaps)[0])
  {
    assert AllSpaces(gaps[0]);
  }

  lemma {:induction false} SpacedIsAscii(words: seq<string>, gaps: seq<string>)
    requires Gaps(words, gaps) && forall w | w in words :: Solid(w)
    ensures AsciiSpacesOnly(Spaced(words, gaps))
  {
    assert AllSpaces(gaps[0]);
    if words != [] {
      GapsAfter(words, gaps);
      SpacedIsAscii(words[1..], gaps[1..]);
      assert Solid(words[0]);
    }
  }
}

/** Admission of a machine-planned route: the checker's own narrow grammar,
    and why everything it admits is a script the game's parser accepts. */
module RouteCheck {
  import opened Wrappers
  import opened Text
  import opened PlayScript
  import opened RouteHeader

  const MAX_TURN: real := 180.0

  /** Bytes to text, strictly and with replacement. */
  datatype Decoder = Decoder(strict: seq<bv8> -> Option<string>, lossy: seq<bv8> -> string)

  /** Replacement changes nothing where strict decoding succeeds. */
  ghost predicate Lawful(d: Decoder) {
    forall b :: d.strict(b).Some? ==> d.lossy(b) == d.strict(b).value
  }

  // ---- The checker ----

  predicate AllowedTurn(yaw: string) {
    var magnitude := WithoutMinus(yaw);
    var point := IndexOf(magnitude, '.');
    point < |magnitude| && |magnitude| - point - 1 == 2 &&
    Seconds(magnitude).Some? && Seconds(magnitude).value <= MAX_TURN
  }

  /** What may follow a line's tick count. */
  predicate AllowedTail(tail: seq<string>) {
    || tail in [["forward"], ["back"], ["wait"], ["guard"], ["use"], ["forward", "jump"]]
    || (|tail| == 3 && tail[0] == "look" && tail[1] == "0" && AllowedTurn(tail[2]))
  }

  /** The tick count of an allowed line. */
  function CheckedLine(line: string): Option<nat> {
    var words := Words(line);
    if words == [] then None
    else match Unsigned(words[0], U32_MAX)
      case None => None
      case Some(ticks) => if ticks != 0 && AllowedTail(words[1..]) then Some(ticks) else None
  }

  /** The tick total once `lines` follow `count` lines and `total` ticks. */
  function CheckedLines(lines: seq<string>, count: nat, total: nat): Option<nat> {
    if lines == [] then Some(total)
    else match CheckedLine(lines[0])
      case None => None
      case Some(ticks) =>
        if total + ticks > MAX_TOTAL_TICKS || count + 1 > MAX_LINES then None
        else CheckedLines(lines[1..], count + 1, total + ticks)
  }

  predicate EndsWithLineFeed(text: string) {
    text != "" && text[|text| - 1] == '\n'
  }

  /** The tick total of an admitted text. */
  function Admitted(text: string): Option<nat> {
    if !(Header() <= text) then None
    else
      var lines := Lines(text[|Header()|..]);
      if lines != [] && EndsWithLineFeed(text) then CheckedLines(lines, 0, 0) else None
  }

  method ValidCandidate(bytes: seq<bv8>, decoder: Decoder) returns (ok: bool)
    ensures ok <==> decoder.strict(bytes).Some? && Admitted(decoder.strict(bytes).value).Some?
  {
    hide Lines, Words, Unsigned, AllowedTurn, Header;
    var decoded := decoder.strict(bytes);
    if decoded.None? {
      return false;
    }
    var text := decoded.value;
    if !(Header() <= text) {
      return false;
    }
    var rest := Lines(text[|Header()|..]);
    ghost var whole := CheckedLines(rest, 0, 0);
    var lines: nat, total: nat := 0, 0;
    var i := 0;
    while i < |rest|
      invariant 0 <= i <= |rest| && lines == i <= MAX_LINES && total <= MAX_TOTAL_TICKS
      invariant CheckedLines(rest[i..], lines, total) == whole
    {
      assert rest[i..][1..] == rest[i + 1..];
      var words := Words(rest[i]);
      if words == [] {
        return false;
      }
      var ticks := Unsigned(words[0], U32_MAX);
      if ticks.None? || ticks.value == 0 || total + ticks.value > U32_MAX {
        return false;
      }
      total := total + ticks.value;
      lines := lines + 1;
      if total > MAX_TOTAL_TICKS || lines > MAX_LINES {
        return false;
      }
      if !AllowedTail(words[1..]) {
        return false;
      }
      i := i + 1;
    }
    ok := lines > 0 && EndsWithLineFeed(text);
  }

  // ---- An admitted line reads the same way in the parser ----

  lemma SecondsShape(s: string)
    requires Seconds(s).Some?
    ensures var point := IndexOf(s, '.');
            0 < point < |s| && AllDigits(s[..point]) && AllDigits(s[point + 1..])
    ensures ParseFloat(s) == Some(Finite(Seconds(s).value)) && Seconds(s).value >= 0.0
  {
    hide ParseFloat, DigitsValue;
  }

  function WithoutMinus(yaw: string): string {
    if yaw != "" && yaw[0] == '-' then yaw[1..] else yaw
  }

  lemma TurnIsSolid(yaw: string)
    requires AllowedTurn(yaw)
    ensures Solid(yaw)
  {
    hide Seconds;
    var magnitude := WithoutMinus(yaw);
    SecondsShape(magnitude);
    var point := IndexOf(magnitude, '.');
    forall i | 0 <= i < |magnitude| ensures !IsWhiteSpace(magnitude[i]) {
      assert i < point ==> IsDigit(magnitude[..point][i]);
      assert i > point ==> IsDigit(magnitude[point + 1..][i - point - 1]);
    }
    assert Solid(magnitude);
  }

  lemma TailIsSolid(tail: seq<string>)
    requires AllowedTail(tail)
    ensures forall w | w in tail :: Solid(w)
  {
    hide AllowedTurn;
    if |tail| == 3 {
      TurnIsSolid(tail[2]);
    }
  }

  lemma CheckedLineIsAscii(line: string)
    requires CheckedLine(line).Some?
    ensures AsciiSpacesOnly(line)
  {
    hide AllowedTail;
    var words := Words(line);
    DigitsAreSolid(words[0]);
    TailIsSolid(words[1..]);
    assert words == [words[0]] + words[1..];
    forall i | 0 <= i < |line| && !IsAsciiSpace(line[i]) ensures !IsWhiteSpace(line[i]) {
      CharacterInWord(line, i);
      var w :| w in words && line[i] in w;
      assert Solid(w);
    }
  }

  lemma CheckedFirstWord(line: string)
    requires CheckedLine(line).Some?
    ensures var words := Words(line);
            words != [] && AllDigits(words[0]) && AllowedTail(words[1..]) &&
            ParseUnsigned(words[0], U32_MAX) == CheckedLine(line) && CheckedLine(line).value > 0
  {
    hide AllowedTail, ParseUnsigned;
  }

  /** A line that starts with a number is content, not a comment. */
  lemma CheckedLineIsContent(line: string)
    requires CheckedLine(line).Some?
    ensures IsContent(line) && Words(Trim(line)) == Words(line)
  {
    hide AllowedTail, CheckedLine, IsContent;
    CheckedLineIsAscii(line);
    CheckedFirstWord(line);
    WordsAreContent(line);
  }

  lemma ZeroParses()
    ensures ParseFloat("0") == Some(Finite(0.0))
  {
    var s := "0";
    assert s[1..] == "";
    assert DigitRun(s) == 1;
    assert s[..1] + s[1..][..0] == s && s[..0] == "";
    assert DigitsValue(s) == 0;
  }

  /** A signed turn parses to its magnitude with the sign applied. */
  lemma TurnParses(yaw: string)
    requires AllowedTurn(yaw)
    ensures ParseFloat(yaw).Some? && ParseFloat(yaw).value.Finite?
    ensures -MAX_TURN <= ParseFloat(yaw).value.value <= MAX_TURN
  {
    hide Seconds, ParseNumber, DigitsValue;
    var magnitude := WithoutMinus(yaw);
    SecondsShape(magnitude);
    assert IsDigit(magnitude[..IndexOf(magnitude, '.')][0]);
    assert ParseNumber(magnitude).Some?;
  }

  /** The tokens an allowed tail spells. */
  function TailTokens(tail: seq<string>): seq<Token>
    requires AllowedTail(tail)
  {
    if tail == ["forward"] then [Forward]
    else if tail == ["back"] then [Back]
    else if tail == ["wait"] then [Wait]
    else if tail == ["guard"] then [Guard]
    else if tail == ["use"] then [Use]
    else if tail == ["forward", "jump"] then [Forward, Jump]
    else TurnParses(tail[2]); [Look(0.0, ParseFloat(tail[2]).value.value)]
  }

  lemma TailSpelled(tail: seq<string>)
    requires AllowedTail(tail)
    ensures SpellsAll(TailTokens(tail), tail)
    ensures |TailTokens(tail)| <= 2
    ensures Guard in TailTokens(tail) ==> |TailTokens(tail)| == 1
  {
    hide AllowedTurn, ParseFloat, ParseUnsigned;
    if tail == ["forward", "jump"] {
      SpelledPair(Forward, Jump, tail);
    } else if |tail| == 1 {
      SpelledAlone(TailTokens(tail)[0], tail);
    } else {
      ZeroParses();
      TurnParses(tail[2]);
      SpelledAlone(TailTokens(tail)[0], tail);
    }
  }

  lemma SpelledAlone(t: Token, words: seq<string>)
    requires Spells(t, words)
    ensures SpellsAll([t], words)
  {
    hide Spells;
    WidthOfSpelling(t, words);
    assert [t][1..] == [] && words[..|words|] == words && words[|words|..] == [];
  }

  lemma WidthOfSpelling(t: Token, words: seq<string>)
    requires Spells(t, words)
    ensures |words| == Width(t)
  {
  }

  lemma SpelledPair(t: Token, u: Token, words: seq<string>)
    requires |words| == 2 && Width(t) == Width(u) == 1
    requires Spells(t, words[..1]) && Spells(u, words[1..])
    ensures SpellsAll([t, u], words)
  {
    hide Spells;
    SpelledAlone(u, words[1..]);
    assert [t, u][1..] == [u];
  }

  lemma CheckedLineReads(line: string)
    requires CheckedLine(line).Some?
    ensures IsContent(line)
    ensures ReadLine(Trim(line)).Ok? && ReadLine(Trim(line)).value.ticks == CheckedLine(line).value > 0
    ensures WithinLine(ReadLine(Trim(line)).value)
  {
    hide CheckedLine, AllowedTail, Trim, IsContent, ParseUnsigned, SpellsAll, ReadLine, TailTokens;
    CheckedLineIsContent(line);
    CheckedFirstWord(line);
    var tail := Words(line)[1..];
    TailSpelled(tail);
    ReadLineSpells(Trim(line), Line(CheckedLine(line).value, TailTokens(tail)));
  }

  lemma {:induction false} CheckedLinesRead(lines: seq<string>, count: nat, total: nat)
    requires CheckedLines(lines, count, total).Some?
    ensures ReadScript(Content(lines), count, total).Ok?
    ensures total + TotalTicks(ReadScript(Content(lines), count, total).value)
            == CheckedLines(lines, count, total).value
    ensures lines != [] ==> TotalTicks(ReadScript(Content(lines), count, total).value) > 0
  {
    hide CheckedLine, Trim, IsContent, ReadLine, ReadScript, WithinLine, TotalTicks;
    if lines == [] {
      ReadNothing(count, total);
    } else {
      CheckedLineReads(lines[0]);
      var text, line := Trim(lines[0]), ReadLine(Trim(lines[0])).value;
      CheckedLinesRead(lines[1..], count + 1, total + line.ticks);
      ReadScriptStep(text, Content(lines[1..]), count, total);
    }
  }

  lemma ReadScriptStep(text: string, content: seq<string>, count: nat, total: nat)
    requires ReadLine(text).Ok? && WithinLine(ReadLine(text).value)
    requires count + 1 <= MAX_LINES && total + ReadLine(text).value.ticks <= MAX_TOTAL_TICKS
    requires ReadScript(content, count + 1, total + ReadLine(text).value.ticks).Ok?
    ensures ReadScript([text] + content, count, total).Ok?
    ensures TotalTicks(ReadScript([text] + content, count, total).value) ==
            ReadLine(text).value.ticks
            + TotalTicks(ReadScript(content, count + 1, total + ReadLine(text).value.ticks).value)
  {
    hide ReadLine;
    assert ([text] + content)[1..] == content;
    var line := ReadLine(text).value;
    var rest := ReadScript(content, count + 1, total + line.ticks).value;
    assert ([line] + rest)[1..] == rest;
  }

  lemma ReadNothing(count: nat, total: nat)
    ensures ReadScript([], count, total) == Ok([]) && TotalTicks([]) == 0
  {
  }

  lemma {:induction false} ContentOfComments(comments: seq<string>, lines: seq<string>)
    requires forall c | c in comments :: c == "" || c[0] == '#'
    ensures Content(comments + lines) == Content(lines)
  {
    if comments == [] {
      assert comments + lines == lines;
    } else {
      CommentIsSkipped(comments[0]);
      ContentOfComments(comments[1..], lines);
      assert (comments + lines)[1..] == comments[1..] + lines;
    }
  }

  lemma CommentIsSkipped(c: string)
    requires c == "" || c[0] == '#'
    ensures !IsContent(c)
  {
    TrimEndFirst(c);
  }

  lemma HeaderIsSkipped(body: string)
    ensures Content(Lines(Header() + body)) == Content(Lines(body))
  {
    hide Content, Lines, LineFree;
    forall i | 0 <= i < |HeaderLines()| ensures LineFree(HeaderLines()[i]) {
      HeaderLine(i);
      UnbrokenIsLineFree(HeaderLines()[i]);
    }
    forall c | c in HeaderLines() ensures c == "" || c[0] == '#' {
      var i :| 0 <= i < |HeaderLines()| && HeaderLines()[i] == c;
      HeaderLine(i);
    }
    LinesOfUnlines(HeaderLines(), body, Header() + body);
    ContentOfComments(HeaderLines(), Lines(body));
  }

  lemma UnbrokenIsLineFree(s: string)
    requires Unbroken(s)
    ensures LineFree(s)
  {
  }

  /** Everything the checker admits the parser accepts, with exactly as many
      steps as the checker added up. */
  lemma AdmittedTextParses(text: string)
    requires Admitted(text).Some?
    ensures Parsed(text).Ok? && |Parsed(text).value| == Admitted(text).value
  {
    hide Header, ReadScript, CheckedLines, Content, Lines;
    var body := text[|Header()|..];
    assert text == Header() + body;
    HeaderIsSkipped(body);
    CheckedLinesRead(Lines(body), 0, 0);
  }

  /** The same for the bytes of a file, whichever way each side decodes. */
  lemma AdmittedBytesParse(bytes: seq<bv8>, d: Decoder)
    requires Lawful(d)
    requires d.strict(bytes).Some? && Admitted(d.strict(bytes).value).Some?
    ensures Parsed(d.lossy(bytes)).Ok?
    ensures |Parsed(d.lossy(bytes)).value| == Admitted(d.strict(bytes).value).value
  {
    AdmittedTextParses(d.strict(bytes).value);
  }
}

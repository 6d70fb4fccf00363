/** Scripts as they are written down, and that the parser reads back what was
    written: the grammar, the numbers and the meaning of a line together. */
module WrittenScripts {
  import opened Wrappers
  import opened Text
  import opened Numerals
  import opened PlayScript

  /** A token as it is written, with its arguments as decimal numbers. */
  datatype Wording = Plain(token: Token) | SlotNumber(n: nat) | LookBy(pitch: Numeral, yaw: Numeral)

  /** A line as it is written, with the gaps around its words. */
  datatype WrittenLine = WrittenLine(ticks: nat, wordings: seq<Wording>, gaps: seq<string>)

  function Meaning(w: Wording): Token {
    match w
    case Plain(t) => t
    case SlotNumber(n) => Slot(n)
    case LookBy(pitch, yaw) => Look(Signed(pitch.sign, Magnitude(pitch)), Signed(yaw.sign, Magnitude(yaw)))
  }

  function WordsFor(w: Wording): seq<string> {
    match w
    case Plain(t) => [Keyword(t)]
    case SlotNumber(n) => ["slot", Decimal(n)]
    case LookBy(pitch, yaw) => ["look", Written(pitch), Written(yaw)]
  }

  ghost predicate Sayable(w: Wording) {
    match w
    case Plain(t) => !t.Slot? && !t.Look?
    case SlotNumber(n) => 1 <= n <= 5
    case LookBy(pitch, yaw) =>
      Proper(pitch) && Magnitude(pitch) < F32_OVERFLOW && Proper(yaw) && Magnitude(yaw) < F32_OVERFLOW
  }

  function Meanings(ws: seq<Wording>): seq<Token> {
    if ws == [] then [] else [Meaning(ws[0])] + Meanings(ws[1..])
  }

  function WordsForAll(ws: seq<Wording>): seq<string> {
    if ws == [] then [] else WordsFor(ws[0]) + WordsForAll(ws[1..])
  }

  function LineWords(line: WrittenLine): seq<string> {
    [Decimal(line.ticks)] + WordsForAll(line.wordings)
  }

  ghost predicate Writable(line: WrittenLine) {
    && line.ticks <= U32_MAX && Gaps(LineWords(line), line.gaps)
    && (forall w | w in line.wordings :: Sayable(w))
    && LineFree(Spaced(LineWords(line), line.gaps))
  }

  ghost function LineText(line: WrittenLine): string
    requires Writable(line)
  {
    Spaced(LineWords(line), line.gaps)
  }

  function LineMeaning(line: WrittenLine): Line {
    Line(line.ticks, Meanings(line.wordings))
  }

  function ScriptMeaning(lines: seq<WrittenLine>): (meaning: seq<Line>)
    ensures |meaning| == |lines|
  {
    if lines == [] then [] else [LineMeaning(lines[0])] + ScriptMeaning(lines[1..])
  }

  ghost predicate AllWritable(lines: seq<WrittenLine>) {
    forall line | line in lines :: Writable(line)
  }

  ghost function Texts(lines: seq<WrittenLine>): (texts: seq<string>)
    requires AllWritable(lines)
    ensures |texts| == |lines|
  {
    seq(|lines|, i requires 0 <= i < |lines| => LineText(lines[i]))
  }

  // ---- Words without white space ----

  lemma SolidIsWord(w: string)
    requires Solid(w) && w != ""
    ensures IsWord(w)
  {
  }

  lemma KeywordLetters(t: Token)
    ensures Keyword(t) != "" && Solid(Keyword(t))
  {
  }

  lemma KeywordIsSolid(t: Token)
    ensures Solid(Keyword(t)) && IsWord(Keyword(t))
  {
    hide Keyword, Solid;
    KeywordLetters(t);
    SolidIsWord(Keyword(t));
  }

  lemma DecimalIsSolid(n: nat)
    ensures Solid(Decimal(n)) && IsWord(Decimal(n)) && IsDigit(Decimal(n)[0])
  {
    hide Decimal;
    DecimalRead(n);
    DigitsAreSolid(Decimal(n));
    SolidIsWord(Decimal(n));
  }

  lemma SolidTogether(a: string, b: string)
    requires Solid(a) && Solid(b)
    ensures Solid(a + b)
  {
  }

  lemma WrittenIsSolid(n: Numeral)
    requires Proper(n)
    ensures Solid(Written(n)) && IsWord(Written(n))
  {
    hide Digits, Tens, Solid;
    PartsAreSolid(n);
    SolidTogether(PointWritten(n), ExponentWritten(n.exponent));
    UnsignedIs(n);
    SolidTogether(Digits(n.whole, n.wholePlaces), PointWritten(n) + ExponentWritten(n.exponent));
    SolidTogether(SignWritten(n.sign), UnsignedWritten(n));
    UnsignedStarts(n);
    SolidIsWord(Written(n));
  }

  lemma UnsignedIs(n: Numeral)
    ensures UnsignedWritten(n) ==
            Digits(n.whole, n.wholePlaces) + (PointWritten(n) + ExponentWritten(n.exponent))
  {
    hide Digits, PointWritten, ExponentWritten;
  }

  lemma SignIsSolid(sign: Sign)
    ensures Solid(SignWritten(sign))
  {
  }

  lemma PartsAreSolid(n: Numeral)
    requires Proper(n)
    ensures Solid(SignWritten(n.sign)) && Solid(Digits(n.whole, n.wholePlaces))
    ensures Solid(PointWritten(n)) && Solid(ExponentWritten(n.exponent))
  {
    hide Digits, Tens, SignWritten;
    SignIsSolid(n.sign);
    DigitsRead(n.whole, n.wholePlaces);
    DigitsRead(n.fraction, n.places);
    if n.exponent.Exponent? {
      DigitsRead(n.exponent.value, n.exponent.places);
      SignIsSolid(n.exponent.sign);
      SolidTogether(SignWritten(n.exponent.sign), Digits(n.exponent.value, n.exponent.places));
    }
  }

  lemma WordingIsSolid(w: Wording, word: string)
    requires Sayable(w) && word in WordsFor(w)
    ensures Solid(word) && IsWord(word)
  {
    hide Solid, IsWord, Keyword, Written, Decimal;
    match w
    case Plain(t) => KeywordIsSolid(t);
    case SlotNumber(n) =>
      KeywordIsSolid(Slot(n));
      KeywordOfArguments(Slot(n));
      DecimalIsSolid(n);
    case LookBy(pitch, yaw) =>
      KeywordIsSolid(Look(0.0, 0.0));
      KeywordOfArguments(Look(0.0, 0.0));
      WrittenIsSolid(pitch);
      WrittenIsSolid(yaw);
  }

  lemma {:induction false} WordingsAreSolid(ws: seq<Wording>, word: string)
    requires (forall w | w in ws :: Sayable(w)) && word in WordsForAll(ws)
    ensures Solid(word) && IsWord(word)
  {
    hide Solid, IsWord, WordsFor, Sayable;
    if word in WordsFor(ws[0]) {
      WordingIsSolid(ws[0], word);
    } else {
      WordingsAreSolid(ws[1..], word);
    }
  }

  lemma LineIsSolid(line: WrittenLine, word: string)
    requires Writable(line) && word in LineWords(line)
    ensures Solid(word) && IsWord(word)
  {
    hide Solid, IsWord, Gaps, Spaced, LineFree, Decimal, WordsForAll;
    if word == Decimal(line.ticks) {
      DecimalIsSolid(line.ticks);
    } else {
      WordingsAreSolid(line.wordings, word);
    }
  }

  // ---- A written line is read as what it means ----

  lemma WordingSpells(w: Wording)
    requires Sayable(w)
    ensures Spells(Meaning(w), WordsFor(w))
  {
    hide Written, Decimal, Magnitude, ParseUnsigned, ParseFloat, Proper;
    KeywordOfArguments(Meaning(w));
    match w
    case Plain(t) =>
    case SlotNumber(n) => DecimalReads(n, U8_MAX);
    case LookBy(pitch, yaw) =>
      assert WritesDecimal(Written(pitch), pitch) && WritesDecimal(Written(yaw), yaw);
      DecimalIsRead(Written(pitch), pitch);
      DecimalIsRead(Written(yaw), yaw);
  }

  lemma {:induction false} WordingsSpell(ws: seq<Wording>)
    requires forall w | w in ws :: Sayable(w)
    ensures SpellsAll(Meanings(ws), WordsForAll(ws))
  {
    hide Spells, WordsFor, Meaning, Sayable, Width;
    if ws != [] {
      WordingSpells(ws[0]);
      WordingsSpell(ws[1..]);
      FirstSpelled(Meaning(ws[0]), Meanings(ws[1..]), WordsFor(ws[0]), WordsForAll(ws[1..]));
    }
  }

  lemma FirstSpelled(t: Token, ts: seq<Token>, words: seq<string>, more: seq<string>)
    requires Spells(t, words) && SpellsAll(ts, more)
    ensures SpellsAll([t] + ts, words + more)
  {
    hide Spells;
    assert |words| == Width(t) by { WidthSpelled(t, words); }
    assert ([t] + ts)[1..] == ts;
    assert (words + more)[..|words|] == words && (words + more)[|words|..] == more;
  }

  lemma WidthSpelled(t: Token, words: seq<string>)
    requires Spells(t, words)
    ensures |words| == Width(t)
  {
  }

  lemma WrittenLineReads(line: WrittenLine)
    requires Writable(line)
    ensures var text := LineText(line);
            IsContent(text) && Words(text) == LineWords(line) && SpellsLine(LineMeaning(line), Trim(text))
  {
    hide Solid, IsWord, Gaps, Spaced, Decimal, WordsForAll, IsContent, Words, Trim, SpellsAll, Meanings, LineFree,
         ParseUnsigned, AsciiSpacesOnly, Sayable;
    var words, text := LineWords(line), LineText(line);
    forall w | w in words ensures Solid(w) && IsWord(w) {
      LineIsSolid(line, w);
    }
    WordsOfSpaced(words, line.gaps);
    SpacedIsAscii(words, line.gaps);
    DecimalIsSolid(line.ticks);
    WordsAreContent(text);
    DecimalReads(line.ticks, U32_MAX);
    WordingsSpell(line.wordings);
    assert words[1..] == WordsForAll(line.wordings);
  }

  // ---- A written script is read as what it means ----

  ghost predicate AllWithin(lines: seq<Line>) {
    forall line | line in lines :: WithinLine(line)
  }

  lemma FirstContent(line: WrittenLine, rest: seq<string>)
    requires Writable(line)
    ensures Content([LineText(line)] + rest) == [Trim(LineText(line))] + Content(rest)
  {
    hide LineText, IsContent, Writable;
    WrittenLineReads(line);
    assert ([LineText(line)] + rest)[1..] == rest;
  }

  lemma {:induction false} OnlyItsMeaning(lines: seq<WrittenLine>, read: seq<Line>)
    requires AllWritable(lines)
    ensures SpellsLines(read, Content(Texts(lines))) <==> read == ScriptMeaning(lines) && AllWithin(read)
  {
    hide Writable, LineText, LineMeaning, IsContent, SpellsLine, WithinLine, Trim;
    if lines == [] {
    } else {
      var rest := lines[1..];
      var text := Trim(LineText(lines[0]));
      assert Texts(lines) == [LineText(lines[0])] + Texts(rest);
      FirstContent(lines[0], Texts(rest));
      WrittenLineReads(lines[0]);
      if read != [] {
        assert read == [read[0]] + read[1..];
        OnlyItsMeaning(rest, read[1..]);
        FirstMeaning(text, lines[0], read[0]);
        WithinFirst(read[0], read[1..]);
      }
    }
  }

  lemma FirstMeaning(text: string, line: WrittenLine, read: Line)
    requires SpellsLine(LineMeaning(line), text)
    ensures SpellsLine(read, text) <==> read == LineMeaning(line)
  {
    hide SpellsLine, LineMeaning;
    if SpellsLine(read, text) {
      SpellingIsUnique(text, read, LineMeaning(line));
    }
  }

  lemma WithinFirst(line: Line, rest: seq<Line>)
    ensures AllWithin([line] + rest) <==> WithinLine(line) && AllWithin(rest)
  {
    hide WithinLine;
    assert forall l | l in rest :: l in [line] + rest;
    assert line in [line] + rest;
  }

  /** The limits of a script. */
  ghost predicate Fits(lines: seq<Line>) {
    |lines| <= 4096 && 0 < TotalTicks(lines) <= 100_000 && AllWithin(lines)
  }

  /** A written script parses exactly when it keeps the limits, and then into
      what its lines mean, one after the other. */
  lemma WrittenScriptParses(lines: seq<WrittenLine>, steps: seq<ScriptStep>)
    requires AllWritable(lines)
    ensures Parsed(Unlines(Texts(lines))) == Ok(steps) <==>
            Fits(ScriptMeaning(lines)) && steps == ExpandAll(ScriptMeaning(lines))
  {
    hide Texts, SpellsLines, Content, Lines, ScriptMeaning, ExpandAll, TotalTicks, AllWithin, Parsed;
    var text, meaning := Unlines(Texts(lines)), ScriptMeaning(lines);
    TextsReadBack(lines);
    ParseAcceptsExactlyScripts(text, steps);
    var content := Content(Lines(text));
    if Parsed(text) == Ok(steps) {
      var read: seq<Line> :| IsScript(read, content) && steps == ExpandAll(read);
      OnlyItsMeaning(lines, read);
      assert read != [] by { NoTicksInNothing(read); }
    }
    if Fits(meaning) && steps == ExpandAll(meaning) {
      OnlyItsMeaning(lines, meaning);
      assert IsScript(meaning, content);
    }
  }

  lemma NoTicksInNothing(lines: seq<Line>)
    requires TotalTicks(lines) > 0
    ensures lines != []
  {
  }

  lemma TextsReadBack(lines: seq<WrittenLine>)
    requires AllWritable(lines)
    ensures Lines(Unlines(Texts(lines))) == Texts(lines)
  {
    hide LineFree, Lines;
    var texts := Texts(lines);
    forall i | 0 <= i < |texts| ensures LineFree(texts[i]) {
      assert Writable(lines[i]);
    }
    LinesOfUnlines(texts, "", Unlines(texts));
    assert Unlines(texts) + "" == Unlines(texts);
    assert Lines("") == [] by { NoLines(); }
  }

  lemma NoLines()
    ensures Lines("") == []
  {
  }

  // ---- One script, all the way ----

  lemma TwelveWritten()
    ensures Decimal(12) == "12" && Digits(12, 2) == "12"
  {
    assert DIGITS[1] == '1' && DIGITS[2] == '2';
  }

  /** "12 forward" holds forward for twelve ticks. */
  lemma TwelveForward()
    ensures var parsed := Parsed("12 forward\n");
            parsed.Ok? && |parsed.value| == 12 &&
            forall i | 0 <= i < 12 :: parsed.value[i] == Fixed(NO_INPUT.(forward := 1))
  {
    hide Decimal, Parsed;
    TwelveWritten();
    var line := WrittenLine(12, [Plain(Forward)], ["", " ", ""]);
    TwelveForwardText(line);
    var lines := [line];
    assert AllWritable(lines);
    var text := LineText(line);
    assert Texts(lines) == [text];
    assert Unlines([text]) == "12 forward\n" by { assert [text][1..] == []; }
    var meaning := Line(12, [Forward]);
    assert ScriptMeaning(lines) == [meaning] by { assert lines[1..] == []; }
    TwelveForwardSteps(meaning);
    WrittenScriptParses(lines, ExpandAll([meaning]));
  }

  lemma TwelveForwardText(line: WrittenLine)
    requires line == WrittenLine(12, [Plain(Forward)], ["", " ", ""])
    ensures Writable(line) && LineText(line) == "12 forward" && LineMeaning(line) == Line(12, [Forward])
  {
    hide Decimal;
    TwelveWritten();
    assert line.wordings[1..] == [];
    assert LineWords(line) == ["12", "forward"];
    assert Gaps(LineWords(line), line.gaps);
    TwelveSpaced();
  }

  lemma TwelveSpaced()
    ensures Spaced(["12", "forward"], ["", " ", ""]) == "12 forward" && LineFree("12 forward")
  {
    assert Spaced([], [""]) == "";
    assert ["forward"][1..] == [] && [" ", ""][1..] == [""];
    assert Spaced(["forward"], [" ", ""]) == " forward";
    assert ["12", "forward"][1..] == ["forward"] && ["", " ", ""][1..] == [" ", ""];
  }

  lemma TwelveForwardSteps(line: Line)
    requires line == Line(12, [Forward])
    ensures Fits([line]) && |ExpandAll([line])| == 12
    ensures forall i | 0 <= i < 12 :: ExpandAll([line])[i] == Fixed(NO_INPUT.(forward := 1))
  {
    assert [line][1..] == [] && TotalTicks([line]) == 12;
    assert [Forward][..0] == [];
    assert ExpandAll([line]) == Expand(line) + [] == Expand(line);
    assert forall i: nat | i < 12 :: StepAt(line, i) == Fixed(NO_INPUT.(forward := 1));
  }
}

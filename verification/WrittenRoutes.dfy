/** Routes as they are written down, and that the checker admits exactly
    those: the header, then positive tick counts with one of six fixed
    commands or a turn in hundredths of a degree, within the limits. */
module WrittenRoutes {
  import opened Wrappers
  import opened Text
  import opened Numerals
  import opened PlayScript
  import opened RouteHeader
  import opened RouteCheck

  /** What a line may ask for. A turn is written in whole degrees, perhaps with
      leading zeros, and hundredths. */
  datatype Command =
    | GoForward | GoBack | Stay | WatchOut | UseIt | JumpForward
    | Turn(negative: bool, degrees: nat, places: nat, hundredths: nat)

  datatype RouteLine = RouteLine(ticks: nat, places: nat, command: Command)

  ghost predicate ProperCommand(c: Command) {
    c.Turn? ==>
      0 < c.places && c.degrees < Tens(c.places) && c.hundredths < 100 && 100 * c.degrees + c.hundredths <= 18_000
  }

  function TurnWritten(negative: bool, degrees: nat, places: nat, hundredths: nat): string {
    (if negative then "-" else "") + (Digits(degrees, places) + "." + Digits(hundredths, 2))
  }

  function CommandWords(c: Command): seq<string> {
    match c
    case GoForward => ["forward"]
    case GoBack => ["back"]
    case Stay => ["wait"]
    case WatchOut => ["guard"]
    case UseIt => ["use"]
    case JumpForward => ["forward", "jump"]
    case Turn(negative, degrees, places, hundredths) =>
      ["look", "0", TurnWritten(negative, degrees, places, hundredths)]
  }

  ghost predicate ProperLine(line: RouteLine) {
    0 < line.ticks < Tens(line.places) && ProperCommand(line.command)
  }

  function RouteWords(line: RouteLine): seq<string> {
    [Digits(line.ticks, line.places)] + CommandWords(line.command)
  }

  function Sum(lines: seq<RouteLine>): nat {
    if lines == [] then 0 else lines[0].ticks + Sum(lines[1..])
  }

  // ---- Turns ----

  lemma TwoPlaces()
    ensures Tens(2) == 100
  {
  }

  /** At most 180 degrees. */
  lemma WithinMaxTurn(degrees: nat, hundredths: nat)
    ensures WithFraction(degrees, hundredths, 2) <= MAX_TURN <==> 100 * degrees + hundredths <= 18_000
  {
    TwoPlaces();
    var x := degrees as real + hundredths as real / 100.0;
    assert 100.0 * x == 100.0 * degrees as real + hundredths as real;
    assert (100 * degrees + hundredths) as real == 100.0 * degrees as real + hundredths as real;
  }

  lemma DigitsStart(n: nat, places: nat, rest: string)
    requires 0 < places && n < Tens(places)
    ensures IsDigit((Digits(n, places) + rest)[0])
  {
    hide Digits, Tens;
    DigitsRead(n, places);
    assert (Digits(n, places) + rest)[0] == Digits(n, places)[0];
  }

  lemma TurnIsAllowed(c: Command)
    requires c.Turn? && ProperCommand(c)
    ensures AllowedTurn(TurnWritten(c.negative, c.degrees, c.places, c.hundredths))
  {
    hide Digits, Tens, Seconds, WithFraction;
    TwoPlaces();
    var whole, fraction := Digits(c.degrees, c.places), Digits(c.hundredths, 2);
    var s := whole + "." + fraction;
    DigitsRead(c.degrees, c.places);
    PointFound(whole, fraction);
    DigitsStart(c.degrees, c.places, "." + fraction);
    assert s == whole + ("." + fraction);
    assert WithoutMinus(TurnWritten(c.negative, c.degrees, c.places, c.hundredths)) == s;
    assert WritesSeconds(s, c.degrees, c.places, c.hundredths, 2);
    SecondsIsRead(s, c.degrees, c.places, c.hundredths, 2);
    WithinMaxTurn(c.degrees, c.hundredths);
  }

  lemma AllowedIsTurn(yaw: string) returns (c: Command)
    requires AllowedTurn(yaw)
    ensures c.Turn? && ProperCommand(c) && yaw == TurnWritten(c.negative, c.degrees, c.places, c.hundredths)
  {
    hide Digits, Tens, Seconds, WithFraction;
    var s := WithoutMinus(yaw);
    var degrees, places, hundredths, two := ReadIsSeconds(s);
    DigitsRead(degrees, places);
    PointFound(Digits(degrees, places), Digits(hundredths, two));
    assert two == 2;
    TwoPlaces();
    SecondsIsRead(s, degrees, places, hundredths, 2);
    WithinMaxTurn(degrees, hundredths);
    c := Turn(yaw != "" && yaw[0] == '-', degrees, places, hundredths);
  }

  // ---- Lines ----

  lemma CommandIsAllowed(c: Command)
    requires ProperCommand(c)
    ensures AllowedTail(CommandWords(c))
  {
    hide AllowedTurn, TurnWritten;
    if c.Turn? {
      TurnIsAllowed(c);
    }
  }

  lemma AllowedIsCommand(tail: seq<string>) returns (c: Command)
    requires AllowedTail(tail)
    ensures ProperCommand(c) && CommandWords(c) == tail
  {
    hide AllowedTurn, TurnWritten;
    if tail == ["forward"] {
      c := GoForward;
    } else if tail == ["back"] {
      c := GoBack;
    } else if tail == ["wait"] {
      c := Stay;
    } else if tail == ["guard"] {
      c := WatchOut;
    } else if tail == ["use"] {
      c := UseIt;
    } else if tail == ["forward", "jump"] {
      c := JumpForward;
    } else {
      c := AllowedIsTurn(tail[2]);
    }
  }

  /** The words of a line are those of a written one. */
  ghost predicate Reads(text: string, line: RouteLine) {
    ProperLine(line) && Words(text) == RouteWords(line)
  }

  lemma WrittenIsChecked(text: string, line: RouteLine)
    requires Reads(text, line)
    ensures CheckedLine(text) == if line.ticks <= U32_MAX then Some(line.ticks) else None
  {
    hide Digits, Tens, Unsigned, AllowedTail, CommandWords, Words, ProperCommand;
    var count := Digits(line.ticks, line.places);
    DigitsRead(line.ticks, line.places);
    TicksAreUnsigned(count, line.ticks);
    CommandIsAllowed(line.command);
    assert Words(text)[1..] == CommandWords(line.command);
  }

  lemma TicksAreUnsigned(count: string, ticks: nat)
    requires AllDigits(count) && DigitsValue(count) == ticks && ticks > 0
    ensures Unsigned(count, U32_MAX) == if ticks <= U32_MAX then Some(ticks) else None
  {
    hide DigitsValue;
    assert count != "" by { NoDigits(""); }
    assert IsDigit(count[0]);
  }

  lemma CheckedIsWritten(text: string) returns (line: RouteLine)
    requires CheckedLine(text).Some?
    ensures Reads(text, line) && CheckedLine(text) == Some(line.ticks)
  {
    hide Digits, Tens, AllowedTail, CommandWords, Words, ProperCommand, DigitsValue;
    var words := Words(text);
    var command := AllowedIsCommand(words[1..]);
    DigitsWritten(words[0]);
    line := RouteLine(DigitsValue(words[0]), |words[0]|, command);
    assert words == [words[0]] + words[1..];
  }

  // ---- Routes ----

  ghost predicate ReadsAll(texts: seq<string>, lines: seq<RouteLine>) {
    |texts| == |lines| && forall i | 0 <= i < |lines| :: Reads(texts[i], lines[i])
  }

  lemma ReadsFirst(text: string, texts: seq<string>, line: RouteLine, lines: seq<RouteLine>)
    ensures ReadsAll([text] + texts, [line] + lines) <==> Reads(text, line) && ReadsAll(texts, lines)
  {
    hide Reads;
    var all, those := [text] + texts, [line] + lines;
    if ReadsAll(all, those) {
      assert Reads(all[0], those[0]);
      forall i | 0 <= i < |lines| ensures Reads(texts[i], lines[i]) {
        assert all[i + 1] == texts[i] && those[i + 1] == lines[i] && Reads(all[i + 1], those[i + 1]);
      }
    }
  }

  lemma {:induction false} WrittenAreChecked(texts: seq<string>, lines: seq<RouteLine>, count: nat, total: nat)
    requires ReadsAll(texts, lines)
    ensures CheckedLines(texts, count, total) ==
            if lines == [] || (count + |lines| <= MAX_LINES && total + Sum(lines) <= MAX_TOTAL_TICKS)
            then Some(total + Sum(lines)) else None
  {
    hide Reads, CheckedLine;
    if lines != [] {
      var line, rest := lines[0], lines[1..];
      assert texts == [texts[0]] + texts[1..] && lines == [line] + rest;
      ReadsFirst(texts[0], texts[1..], line, rest);
      WrittenIsChecked(texts[0], line);
      WrittenAreChecked(texts[1..], rest, count + 1, total + line.ticks);
      assert Sum(lines) == line.ticks + Sum(rest);
      if total + line.ticks > MAX_TOTAL_TICKS || count + 1 > MAX_LINES {
        assert CheckedLines(texts, count, total) == None;
      } else {
        assert CheckedLine(texts[0]) == Some(line.ticks);
        assert CheckedLines(texts, count, total) == CheckedLines(texts[1..], count + 1, total + line.ticks);
      }
    }
  }

  lemma {:induction false} CheckedAreWritten(texts: seq<string>, count: nat, total: nat) returns (lines: seq<RouteLine>)
    requires CheckedLines(texts, count, total).Some?
    ensures ReadsAll(texts, lines)
  {
    hide Reads, CheckedLine;
    if texts == [] {
      lines := [];
    } else {
      var line := CheckedIsWritten(texts[0]);
      var rest := CheckedAreWritten(texts[1..], count + 1, total + line.ticks);
      lines := [line] + rest;
      ReadsFirst(texts[0], texts[1..], line, rest);
      assert texts == [texts[0]] + texts[1..];
    }
  }

  ghost predicate IsRoute(texts: seq<string>, lines: seq<RouteLine>, total: nat) {
    && ReadsAll(texts, lines)
    && 0 < |lines| <= 4096
    && total == Sum(lines) <= 100_000
  }

  lemma CheckedExactly(texts: seq<string>, total: nat)
    ensures texts != [] && CheckedLines(texts, 0, 0) == Some(total) <==>
            exists lines: seq<RouteLine> :: IsRoute(texts, lines, total)
  {
    hide ReadsAll, CheckedLines;
    if texts != [] && CheckedLines(texts, 0, 0) == Some(total) {
      var lines := CheckedAreWritten(texts, 0, 0);
      WrittenAreChecked(texts, lines, 0, 0);
      SameLength(texts, lines);
      assert IsRoute(texts, lines, total);
    }
    if lines: seq<RouteLine> :| IsRoute(texts, lines, total) {
      WrittenAreChecked(texts, lines, 0, 0);
      SameLength(texts, lines);
    }
  }

  lemma SameLength(texts: seq<string>, lines: seq<RouteLine>)
    requires ReadsAll(texts, lines)
    ensures |texts| == |lines|
  {
  }

  /** Lines that read as some route of so many ticks. */
  ghost predicate HoldsRoute(texts: seq<string>, total: nat) {
    exists lines: seq<RouteLine> :: IsRoute(texts, lines, total)
  }

  /** A text is admitted with a total exactly when it is the header and lines
      that read as a route of so many ticks, the last one ended. */
  lemma AdmittedExactly(text: string, total: nat)
    ensures Admitted(text) == Some(total) <==>
            && Header() <= text
            && text != "" && text[|text| - 1] == '\n'
            && HoldsRoute(Lines(text[|Header()|..]), total)
  {
    hide Header, Lines, IsRoute, CheckedLines;
    if Header() <= text {
      CheckedExactly(Lines(text[|Header()|..]), total);
    }
  }

  // ---- Writing routes out ----

  ghost predicate WritesLine(line: RouteLine, gaps: seq<string>) {
    ProperLine(line) && Gaps(RouteWords(line), gaps) && LineFree(Spaced(RouteWords(line), gaps))
  }

  ghost predicate WritesRoute(lines: seq<RouteLine>, gaps: seq<seq<string>>) {
    |gaps| == |lines| && forall i | 0 <= i < |lines| :: WritesLine(lines[i], gaps[i])
  }

  ghost function RouteTexts(lines: seq<RouteLine>, gaps: seq<seq<string>>): (texts: seq<string>)
    requires WritesRoute(lines, gaps)
    ensures |texts| == |lines|
  {
    seq(|lines|, i requires 0 <= i < |lines| =>
      assert WritesLine(lines[i], gaps[i]);
      Spaced(RouteWords(lines[i]), gaps[i]))
  }

  lemma DigitsAreAWord(n: nat, places: nat)
    requires 0 < places && n < Tens(places)
    ensures IsWord(Digits(n, places))
  {
    DigitsRead(n, places);
  }

  lemma WordsJoined(a: string, b: string)
    requires IsWord(a) && IsWord(b)
    ensures IsWord(a + b)
  {
  }

  lemma TurnIsAWord(c: Command)
    requires c.Turn? && ProperCommand(c)
    ensures IsWord(TurnWritten(c.negative, c.degrees, c.places, c.hundredths))
  {
    hide Digits, Tens, IsWord;
    TwoPlaces();
    var whole, fraction := Digits(c.degrees, c.places), Digits(c.hundredths, 2);
    DigitsAreAWord(c.degrees, c.places);
    DigitsAreAWord(c.hundredths, 2);
    assert IsWord(".") && IsWord("-") by { PunctuationIsAWord(); }
    WordsJoined(whole, ".");
    WordsJoined(whole + ".", fraction);
    if c.negative {
      WordsJoined("-", whole + "." + fraction);
    } else {
      assert "" + (whole + "." + fraction) == whole + "." + fraction;
    }
  }

  lemma PunctuationIsAWord()
    ensures IsWord(".") && IsWord("-") && IsWord("0")
  {
  }

  lemma CommandIsWords(c: Command, w: string)
    requires ProperCommand(c) && w in CommandWords(c)
    ensures IsWord(w)
  {
    hide TurnWritten, IsWord, ProperCommand;
    FixedWords();
    PunctuationIsAWord();
    if c.Turn? {
      TurnIsAWord(c);
    }
  }

  lemma FixedWords()
    ensures IsWord("forward") && IsWord("back") && IsWord("wait") && IsWord("guard") && IsWord("use")
    ensures IsWord("jump") && IsWord("look")
  {
  }

  lemma WrittenLineIsRead(line: RouteLine, gaps: seq<string>)
    requires WritesLine(line, gaps)
    ensures Reads(Spaced(RouteWords(line), gaps), line) && LineFree(Spaced(RouteWords(line), gaps))
  {
    hide Digits, CommandWords, Words, Spaced, Gaps, LineFree, IsWord, ProperCommand;
    forall w | w in RouteWords(line) ensures IsWord(w) {
      if w == Digits(line.ticks, line.places) {
        DigitsAreAWord(line.ticks, line.places);
      } else {
        CommandIsWords(line.command, w);
      }
    }
    WordsOfSpaced(RouteWords(line), gaps);
  }

  lemma EndsWithItsLast(texts: seq<string>)
    requires texts != []
    ensures Unlines(texts) != "" && Unlines(texts)[|Unlines(texts)| - 1] == '\n'
  {
    if texts[1..] != [] {
      EndsWithItsLast(texts[1..]);
    }
  }

  /** What the planner writes is admitted with the sum of its ticks, whatever
      the gaps between its words, exactly when it keeps the limits. */
  lemma WrittenRouteIsAdmitted(lines: seq<RouteLine>, gaps: seq<seq<string>>)
    requires WritesRoute(lines, gaps)
    ensures Admitted(Header() + Unlines(RouteTexts(lines, gaps))) ==
            if 0 < |lines| <= 4096 && Sum(lines) <= 100_000 then Some(Sum(lines)) else None
  {
    hide Header, Lines, Reads, Unlines, CheckedLines, RouteTexts, Admitted, WritesRoute;
    var texts := RouteTexts(lines, gaps);
    TextsAreRead(lines, gaps);
    AdmittedBody(Unlines(texts));
    WrittenAreChecked(texts, lines, 0, 0);
    if texts != [] {
      EndsWithItsLast(texts);
    }
  }

  lemma AdmittedBody(body: string)
    ensures Admitted(Header() + body) ==
            if Lines(body) != [] && EndsWithLineFeed(body) then CheckedLines(Lines(body), 0, 0) else None
  {
    hide Header, Lines, CheckedLines;
    var text := Header() + body;
    assert text[|Header()|..] == body;
    if body == "" {
      NoLine();
    } else {
      assert text[|text| - 1] == body[|body| - 1];
    }
  }

  lemma TextsAreRead(lines: seq<RouteLine>, gaps: seq<seq<string>>)
    requires WritesRoute(lines, gaps)
    ensures ReadsAll(RouteTexts(lines, gaps), lines)
    ensures Lines(Unlines(RouteTexts(lines, gaps))) == RouteTexts(lines, gaps)
  {
    hide Lines, LineFree, Reads, Unlines, RouteWords, Spaced, WritesLine;
    var texts := RouteTexts(lines, gaps);
    forall i | 0 <= i < |texts| ensures LineFree(texts[i]) && Reads(texts[i], lines[i]) {
      assert WritesLine(lines[i], gaps[i]);
      WrittenLineIsRead(lines[i], gaps[i]);
    }
    LinesOfUnlines(texts, "", Unlines(texts) + "");
    assert Unlines(texts) + "" == Unlines(texts);
    NoLine();
  }

  lemma NoLine()
    ensures Lines("") == []
  {
  }

  // ---- Turns that are refused ----

  lemma SameTurn(negative: bool, whole: string, fraction: string, negative': bool, whole': string, fraction': string)
    requires AllDigits(whole) && AllDigits(whole')
    requires (if negative then "-" else "") + (whole + "." + fraction) ==
             (if negative' then "-" else "") + (whole' + "." + fraction')
    ensures whole == whole' && fraction == fraction'
  {
    var s, s' := whole + "." + fraction, whole' + "." + fraction';
    NoMinus(negative, whole, fraction);
    NoMinus(negative', whole', fraction');
    PointFound(whole, fraction);
    PointFound(whole', fraction');
  }

  lemma NoMinus(negative: bool, whole: string, fraction: string)
    requires AllDigits(whole)
    ensures WithoutMinus((if negative then "-" else "") + (whole + "." + fraction)) == whole + "." + fraction
  {
    var s := whole + "." + fraction;
    assert s[0] == (if whole == "" then '.' else whole[0]) && s[0] != '-';
    if negative {
      assert ("-" + s)[1..] == s;
    } else {
      assert "" + s == s;
    }
  }

  /** A turn with other than two fraction digits, or by more than 180 degrees,
      refuses the whole text wherever it stands. */
  lemma OtherTurnsAreRefused(
      text: string, i: nat, count: string, negative: bool, degrees: nat, places: nat, fraction: nat, digits: nat)
    requires Header() <= text && i < |Lines(text[|Header()|..])|
    requires degrees < Tens(places) && fraction < Tens(digits)
    requires Words(Lines(text[|Header()|..])[i]) ==
             [count, "look", "0",
              (if negative then "-" else "") + (Digits(degrees, places) + "." + Digits(fraction, digits))]
    requires digits != 2 || 100 * degrees + fraction > 18_000
    ensures Admitted(text) == None
  {
    hide Header, Lines, Words, Digits, Tens, IsRoute, Admitted;
    if Admitted(text).Some? {
      var texts := Lines(text[|Header()|..]);
      AdmittedExactly(text, Admitted(text).value);
      var lines: seq<RouteLine> :| IsRoute(texts, lines, Admitted(text).value);
      LineOfRoute(texts, lines, Admitted(text).value, i);
      var c := lines[i].command;
      assert c.Turn? && CommandWords(c) == Words(texts[i])[1..];
      DigitsRead(degrees, places);
      DigitsRead(c.degrees, c.places);
      TwoPlaces();
      SameTurn(negative, Digits(degrees, places), Digits(fraction, digits),
               c.negative, Digits(c.degrees, c.places), Digits(c.hundredths, 2));
      DigitsRead(fraction, digits);
      DigitsRead(c.hundredths, 2);
      assert false;
    }
  }

  lemma LineOfRoute(texts: seq<string>, lines: seq<RouteLine>, total: nat, i: nat)
    requires IsRoute(texts, lines, total) && i < |texts|
    ensures i < |lines| && Reads(texts[i], lines[i])
  {
    hide Reads;
  }

  // ---- What an admitted route does ----

  function CommandTokens(c: Command): seq<Token> {
    match c
    case GoForward => [Forward]
    case GoBack => [Back]
    case Stay => [Wait]
    case WatchOut => [Guard]
    case UseIt => [Use]
    case JumpForward => [Forward, Jump]
    case Turn(negative, degrees, _, hundredths) =>
      var turn := WithFraction(degrees, hundredths, 2);
      [Look(0.0, if negative then -turn else turn)]
  }

  function RouteMeaning(line: RouteLine): Line {
    Line(line.ticks, CommandTokens(line.command))
  }

  function RouteMeanings(lines: seq<RouteLine>): (meanings: seq<Line>)
    ensures |meanings| == |lines|
  {
    if lines == [] then [] else [RouteMeaning(lines[0])] + RouteMeanings(lines[1..])
  }

  lemma TurnReads(c: Command)
    requires c.Turn? && ProperCommand(c)
    ensures var turn := WithFraction(c.degrees, c.hundredths, 2);
            ParseFloat(TurnWritten(c.negative, c.degrees, c.places, c.hundredths)) ==
            Some(Finite(if c.negative then -turn else turn))
  {
    hide Digits, Tens, ParseFloat;
    TwoPlaces();
    var sign := if c.negative then Minus else NoSign;
    var n := Numeral(sign, c.degrees, c.places, true, c.hundredths, 2, NoExponent);
    var s := TurnWritten(c.negative, c.degrees, c.places, c.hundredths);
    assert Written(n) == s;
    WithinMaxTurn(c.degrees, c.hundredths);
    DecimalIsRead(s, n);
  }

  lemma WordSpells(c: Command)
    requires ProperCommand(c) && !c.Turn? && !c.JumpForward?
    ensures Spells(CommandTokens(c)[0], CommandWords(c)) && |CommandTokens(c)| == 1
  {
    hide ParseFloat, ParseUnsigned;
  }

  lemma TurnSpells(c: Command)
    requires ProperCommand(c) && c.Turn?
    ensures Spells(CommandTokens(c)[0], CommandWords(c)) && |CommandTokens(c)| == 1
  {
    hide TurnWritten, ParseFloat, ParseUnsigned, WithFraction;
    TurnReads(c);
    ZeroParses();
  }

  lemma CommandSpells(c: Command)
    requires ProperCommand(c)
    ensures SpellsAll(CommandTokens(c), CommandWords(c))
  {
    hide SpellsAll;
    if c.JumpForward? {
      JumpSpells();
    } else {
      OneTokenSpells(c);
    }
  }

  lemma JumpSpells()
    ensures SpellsAll([Forward, Jump], ["forward", "jump"])
  {
    hide SpellsAll, ParseFloat, ParseUnsigned;
    SpelledPair(Forward, Jump, ["forward", "jump"]);
  }

  lemma OneTokenSpells(c: Command)
    requires ProperCommand(c) && !c.JumpForward?
    ensures SpellsAll(CommandTokens(c), CommandWords(c))
  {
    hide Spells, CommandTokens, CommandWords, ProperCommand, SpellsAll;
    if c.Turn? {
      TurnSpells(c);
    } else {
      WordSpells(c);
    }
    SpelledAlone(CommandTokens(c)[0], CommandWords(c));
    assert CommandTokens(c) == [CommandTokens(c)[0]];
  }

  lemma ReadsAsItsMeaning(text: string, line: RouteLine)
    requires Reads(text, line) && line.ticks <= U32_MAX
    ensures IsContent(text) && SpellsLine(RouteMeaning(line), Trim(text)) && WithinLine(RouteMeaning(line))
  {
    hide Digits, Tens, CommandWords, Words, Trim, IsContent, CheckedLine, ParseUnsigned, SpellsAll, ProperCommand;
    WrittenIsChecked(text, line);
    CheckedLineIsContent(text);
    var count := Digits(line.ticks, line.places);
    assert WritesNumber(count, false, line.ticks, line.places) by { TicksWritten(line.ticks, line.places); }
    WritingIsRead(count, U32_MAX, false, line.ticks, line.places);
    CommandSpells(line.command);
    assert RouteWords(line)[1..] == CommandWords(line.command);
  }

  lemma TicksWritten(ticks: nat, places: nat)
    requires 0 < ticks < Tens(places)
    ensures WritesNumber(Digits(ticks, places), false, ticks, places)
  {
    assert "" + Digits(ticks, places) == Digits(ticks, places);
  }

  lemma {:induction false} RouteSpells(texts: seq<string>, lines: seq<RouteLine>)
    requires ReadsAll(texts, lines) && Sum(lines) <= U32_MAX
    ensures SpellsLines(RouteMeanings(lines), Content(texts))
    ensures TotalTicks(RouteMeanings(lines)) == Sum(lines)
    ensures lines != [] ==> Sum(lines) > 0
  {
    hide Reads, IsContent, SpellsLine, RouteMeaning, WithinLine, Trim;
    if lines == [] {
      SameLength(texts, lines);
    } else {
      var text, line, rest := texts[0], lines[0], lines[1..];
      assert texts == [text] + texts[1..] && lines == [line] + rest;
      ReadsFirst(text, texts[1..], line, rest);
      ReadsAsItsMeaning(text, line);
      RouteSpells(texts[1..], rest);
      TicksOfLine(text, line);
      var meaning, meanings, content := RouteMeaning(line), RouteMeanings(rest), Content(texts[1..]);
      assert Content(texts) == [Trim(text)] + content;
      assert ([meaning] + meanings)[1..] == meanings && ([Trim(text)] + content)[1..] == content;
    }
  }

  lemma TicksOfLine(text: string, line: RouteLine)
    requires Reads(text, line)
    ensures line.ticks > 0 && RouteMeaning(line).ticks == line.ticks
  {
  }

  /** An admitted text does in the game what its lines say, one after the
      other. */
  lemma AdmittedDoesWhatItSays(text: string, lines: seq<RouteLine>, total: nat)
    requires Admitted(text) == Some(total) && IsRoute(Lines(text[|Header()|..]), lines, total)
    ensures Parsed(text) == Ok(ExpandAll(RouteMeanings(lines)))
  {
    hide Header, Lines, Content, ReadsAll, SpellsLines, TotalTicks, ExpandAll, Parsed, CheckedLines;
    var body := text[|Header()|..];
    assert text == Header() + body;
    HeaderIsSkipped(body);
    RouteSpells(Lines(body), lines);
    var meanings := RouteMeanings(lines);
    assert IsScript(meanings, Content(Lines(text)));
    ParseAcceptsExactlyScripts(text, ExpandAll(meanings));
  }
}

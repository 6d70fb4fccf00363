/** A walk's report as it is written down, and that each line is read exactly
    as what it says. */
module WrittenReports {
  import opened Wrappers
  import opened Text
  import opened Numerals
  import opened ChainReport

  /** A depth as the walk prints it. */
  ghost predicate IsDepth(line: string, n: nat) {
    n <= U64_MAX && exists places: nat, number: string ::
      WritesNumber(number, false, n, places) && line == "Chain walk depth: " + (number + ".")
  }

  /** Seconds as the walk prints them. */
  ghost predicate IsSeconds(line: string, value: real) {
    exists whole: nat, wholePlaces: nat, fraction: nat, places: nat, number: string ::
      && WritesSeconds(number, whole, wholePlaces, fraction, places) && value == WithFraction(whole, fraction, places)
      && line == "Chain walk simulated seconds: " + (number + ".")
  }

  /** What only lines about depth, time or ending start with. */
  predicate LooksLikeAField(line: string) {
    || "Chain walk depth" <= line || "Chain walk simulated seconds" <= line
    || line == "The chain walk" || "The chain walk " <= line
  }

  lemma StopIsDropped(value: string, number: string)
    ensures BeforeStop(value) == Some(number) <==> value == number + "."
  {
    if value == number + "." {
      assert value[|value| - 1] == '.' && value[..|value| - 1] == number;
    }
    if BeforeStop(value) == Some(number) {
      assert value == value[..|value| - 1] + ".";
    }
  }

  lemma Prefixed(prefix: string, line: string, value: string)
    ensures prefix <= line && line[|prefix|..] == value <==> line == prefix + value
  {
    if prefix <= line && line[|prefix|..] == value {
      assert line == line[..|prefix|] + line[|prefix|..];
    }
  }

  lemma DepthIsRead(value: string, n: nat)
    ensures DepthOf(value) == Some(n) <==>
            n <= U64_MAX && exists places: nat, number: string ::
              WritesNumber(number, false, n, places) && value == number + "."
  {
    hide Unsigned, BeforeStop, WritesNumber;
    if DepthOf(value) == Some(n) {
      var number := BeforeStop(value).value;
      StopIsDropped(value, number);
      StrictReads(number, U64_MAX, n);
    }
    if places: nat, number: string :|
      n <= U64_MAX && WritesNumber(number, false, n, places) && value == number + "."
    {
      StopIsDropped(value, number);
      StrictReads(number, U64_MAX, n);
    }
  }

  lemma TimeIsRead(value: string, seconds: real)
    ensures SecondsOf(value) == Some(seconds) <==>
            exists whole: nat, wholePlaces: nat, fraction: nat, places: nat, number: string ::
              && WritesSeconds(number, whole, wholePlaces, fraction, places)
              && seconds == WithFraction(whole, fraction, places) && value == number + "."
  {
    hide Seconds, WritesSeconds, WithFraction, BeforeStop;
    if SecondsOf(value) == Some(seconds) {
      var number := BeforeStop(value).value;
      StopIsDropped(value, number);
      SecondsReads(number, seconds);
    }
    if whole: nat, wholePlaces: nat, fraction: nat, places: nat, number: string :|
      && WritesSeconds(number, whole, wholePlaces, fraction, places)
      && seconds == WithFraction(whole, fraction, places) && value == number + "."
    {
      StopIsDropped(value, number);
      SecondsReads(number, seconds);
    }
  }

  // ---- Which line is which ----

  lemma DepthAndTimeDiffer(line: string)
    ensures !(DEPTH_PREFIX <= line && SECONDS_PREFIX <= line)
    ensures DEPTH_PREFIX <= line ==> "Chain walk depth" <= line
    ensures SECONDS_PREFIX <= line ==> "Chain walk simulated seconds" <= line
  {
    assert DEPTH_PREFIX[11] == 'd' && SECONDS_PREFIX[11] == 's';
    assert "Chain walk depth" <= DEPTH_PREFIX && "Chain walk simulated seconds" <= SECONDS_PREFIX;
  }

  lemma EndingsStartAlike(t: Terminal)
    ensures "The chain walk " <= TerminalLineOf(t)
  {
  }

  lemma EndingsDiffer(a: Terminal, b: Terminal)
    requires TerminalLineOf(a) == TerminalLineOf(b)
    ensures a == b
  {
    LengthOfEnding(a);
    LengthOfEnding(b);
  }

  lemma LengthOfEnding(t: Terminal)
    ensures |TerminalLineOf(t)| ==
            match t
            case ArrivedDead => 28
            case ReEntered => 55
            case SectionEnded => 33
            case Stopped => 23
            case NoFurtherRoute => 36
  {
  }

  lemma EndingIsRead(line: string, t: Terminal)
    ensures TerminalOf(line) == Some(t) <==> line == TerminalLineOf(t)
  {
    hide TerminalLineOf;
    if line == TerminalLineOf(t) && TerminalOf(line).Some? {
      EndingsDiffer(TerminalOf(line).value, t);
    }
  }

  lemma FirstLetters(line: string)
    ensures "Chain walk depth" <= line || "Chain walk simulated seconds" <= line ==> line != "" && line[0] == 'C'
    ensures line == "The chain walk" || "The chain walk " <= line ==> line != "" && line[0] == 'T'
    ensures line == "A level change was followed." ==> line != "" && line[0] == 'A'
  {
  }

  /** A line of the report is read as what it says, exactly: its depth, its
      seconds, its ending or a hop. */
  lemma InfoReads(line: string, n: nat, seconds: real, t: Terminal)
    ensures InfoLine(line) == DepthLine(Some(n)) <==> DEPTH_PREFIX <= line && DepthOf(line[|DEPTH_PREFIX|..]) == Some(n)
    ensures InfoLine(line) == SecondsLine(Some(seconds)) <==>
              SECONDS_PREFIX <= line && SecondsOf(line[|SECONDS_PREFIX|..]) == Some(seconds)
    ensures InfoLine(line) == TerminalLine(Some(t)) <==> line == TerminalLineOf(t)
    ensures InfoLine(line) == HopLine <==> line == "A level change was followed."
  {
    hide DepthOf, SecondsOf, TerminalOf, TerminalLineOf;
    DepthAndTimeDiffer(line);
    FirstLetters(line);
    EndingIsRead(line, t);
    EndingsStartAlike(t);
    FirstLetters(TerminalLineOf(t));
  }

  lemma AfterInfo(raw: string, line: string)
    ensures INFO <= raw && raw[|INFO|..] == line <==> raw == INFO + line
  {
    Prefixed(INFO, raw, line);
  }

  /** Every line that counts toward the verdict is exactly as it is printed. */
  lemma ReportReads(raw: string, n: nat, seconds: real, t: Terminal)
    ensures Classified(raw) == DepthLine(Some(n)) <==> exists line :: raw == "[info] " + line && IsDepth(line, n)
    ensures Classified(raw) == SecondsLine(Some(seconds)) <==>
              exists line :: raw == "[info] " + line && IsSeconds(line, seconds)
    ensures Classified(raw) == TerminalLine(Some(t)) <==> raw == "[info] " + TerminalLineOf(t)
    ensures Classified(raw) == HopLine <==> raw == "[info] " + "A level change was followed."
  {
    hide InfoLine, IsDepth, IsSeconds, TerminalLineOf, DepthOf, SecondsOf;
    forall line | raw == INFO + line
      ensures InfoLine(line) == DepthLine(Some(n)) <==> IsDepth(line, n)
      ensures InfoLine(line) == SecondsLine(Some(seconds)) <==> IsSeconds(line, seconds)
    {
      DepthLineReads(line, n);
      SecondsLineReads(line, seconds);
    }
    AfterInfo(raw, TerminalLineOf(t));
    AfterInfo(raw, "A level change was followed.");
    if INFO <= raw {
      var line := raw[|INFO|..];
      AfterInfo(raw, line);
      InfoReads(line, n, seconds, t);
    }
  }

  lemma DepthLineReads(line: string, n: nat)
    ensures InfoLine(line) == DepthLine(Some(n)) <==> IsDepth(line, n)
  {
    hide InfoLine, DepthOf, WritesNumber;
    InfoReads(line, n, 0.0, Stopped);
    if InfoLine(line) == DepthLine(Some(n)) {
      var value := line[|DEPTH_PREFIX|..];
      Prefixed(DEPTH_PREFIX, line, value);
      DepthIsRead(value, n);
    }
    if places: nat, number: string :|
      n <= U64_MAX && WritesNumber(number, false, n, places) && line == "Chain walk depth: " + (number + ".")
    {
      var value := number + ".";
      Prefixed(DEPTH_PREFIX, line, value);
      DepthIsRead(value, n);
    }
  }

  lemma SecondsLineReads(line: string, seconds: real)
    ensures InfoLine(line) == SecondsLine(Some(seconds)) <==> IsSeconds(line, seconds)
  {
    hide InfoLine, SecondsOf, WritesSeconds, WithFraction;
    InfoReads(line, 0, seconds, Stopped);
    if InfoLine(line) == SecondsLine(Some(seconds)) {
      var value := line[|SECONDS_PREFIX|..];
      Prefixed(SECONDS_PREFIX, line, value);
      TimeIsRead(value, seconds);
    }
    if whole: nat, wholePlaces: nat, fraction: nat, places: nat, number: string :|
      && WritesSeconds(number, whole, wholePlaces, fraction, places) && seconds == WithFraction(whole, fraction, places)
      && line == "Chain walk simulated seconds: " + (number + ".")
    {
      var value := number + ".";
      Prefixed(SECONDS_PREFIX, line, value);
      TimeIsRead(value, seconds);
    }
  }

  /** A line spoils the report exactly when it looks like a field of it and is
      not as fields are printed. */
  lemma SpoilsIff(raw: string)
    ensures var line := Classified(raw);
            var proper := (line.DepthLine? && line.depth.Some?) || (line.SecondsLine? && line.seconds.Some?) ||
                          (line.TerminalLine? && line.terminal.Some?);
            Spoils(line) <==> "[info] " <= raw && LooksLikeAField(raw[7..]) && !proper
  {
    hide DepthOf, SecondsOf, TerminalOf;
    assert INFO == "[info] " && |INFO| == 7;
    if INFO <= raw {
      DepthAndTimeDiffer(raw[7..]);
      FirstLetters(raw[7..]);
    }
  }
}

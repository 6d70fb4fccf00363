/** Reading what a chain walk reported, and whether it counts as a pass. */
module ChainReport {
  import opened Wrappers
  import opened Sequences
  import ChainAssembly
  import Text

  const INFO: string := "[info] "
  const DEPTH_PREFIX: string := "Chain walk depth: "
  const SECONDS_PREFIX: string := "Chain walk simulated seconds: "

  /** The five lines a walk may end with. */
  datatype Terminal = ArrivedDead | ReEntered | SectionEnded | Stopped | NoFurtherRoute

  function TerminalLineOf(t: Terminal): string {
    "The chain walk " + match t
                        case ArrivedDead => "arrived dead."
                        case ReEntered => "re-entered a map it had already visited."
                        case SectionEnded => "ended its section."
                        case Stopped => "stopped."
                        case NoFurtherRoute => "has no further route."
  }

  function TerminalOf(line: string): Option<Terminal> {
    if line == TerminalLineOf(ArrivedDead) then Some(ArrivedDead)
    else if line == TerminalLineOf(ReEntered) then Some(ReEntered)
    else if line == TerminalLineOf(SectionEnded) then Some(SectionEnded)
    else if line == TerminalLineOf(Stopped) then Some(Stopped)
    else if line == TerminalLineOf(NoFurtherRoute) then Some(NoFurtherRoute)
    else None
  }

  /** What one line of the report says. */
  datatype Line =
    | DepthLine(depth: Option<nat>)
    | SecondsLine(seconds: Option<real>)
    | Garbled
    | TerminalLine(terminal: Option<Terminal>)
    | HopLine
    | Unrelated

  /** The value of a field that must end in a full stop. */
  function BeforeStop(value: string): Option<string> {
    if value != "" && value[|value| - 1] == '.' then Some(value[..|value| - 1]) else None
  }

  function DepthOf(value: string): Option<nat> {
    match BeforeStop(value) case None => None case Some(digits) => Text.Unsigned(digits, Text.U64_MAX)
  }

  function SecondsOf(value: string): Option<real> {
    match BeforeStop(value) case None => None case Some(number) => Text.Seconds(number)
  }

  function InfoLine(line: string): Line {
    if DEPTH_PREFIX <= line then DepthLine(DepthOf(line[|DEPTH_PREFIX|..]))
    else if SECONDS_PREFIX <= line then SecondsLine(SecondsOf(line[|SECONDS_PREFIX|..]))
    else if "Chain walk depth" <= line || "Chain walk simulated seconds" <= line then Garbled
    else if line == "The chain walk" || "The chain walk " <= line then TerminalLine(TerminalOf(line))
    else if line == "A level change was followed." then HopLine
    else Unrelated
  }

  function Classified(raw: string): Line {
    if INFO <= raw then InfoLine(raw[|INFO|..]) else Unrelated
  }

  // ---- Reading the report ----

  datatype Tally = Tally(
    depth: Option<nat>,
    seconds: Option<real>,
    terminal: Option<Terminal>,
    invalid: bool,
    hops: nat)

  const NOTHING: Tally := Tally(None, None, None, false, 0)

  function Counted(t: Tally, line: Line): Tally {
    match line
    case DepthLine(value) => t.(depth := value, invalid := t.invalid || t.depth.Some? || value.None?)
    case SecondsLine(value) => t.(seconds := value, invalid := t.invalid || t.seconds.Some? || value.None?)
    case Garbled => t.(invalid := true)
    case TerminalLine(value) => t.(terminal := value, invalid := t.invalid || t.terminal.Some? || value.None?)
    case HopLine => t.(hops := t.hops + 1)
    case Unrelated => t
  }

  function Tallied(lines: seq<Line>): Tally {
    if lines == [] then NOTHING else Counted(Tallied(lines[..|lines| - 1]), lines[|lines| - 1])
  }

  datatype Report = Report(
    depth: nat,
    seconds: real,
    stoppedAt: Option<Terminal>,
    reEntered: bool,
    arrivedDead: bool,
    hops: nat)

  function Reported(t: Tally): Report {
    Report(
      if t.depth.Some? then t.depth.value else 0,
      if t.seconds.Some? then t.seconds.value else 0.0,
      if !t.invalid && t.depth.Some? && 1 <= t.depth.value <= ChainAssembly.MAX_CHAIN_ROUTES + 1 && t.seconds.Some?
      then t.terminal
      else None,
      t.terminal == Some(ReEntered),
      t.terminal == Some(ArrivedDead),
      t.hops)
  }

  function LinesOf(text: string): seq<Line> {
    ClassifiedAll(Text.Lines(text))
  }

  function ClassifiedAll(raw: seq<string>): seq<Line> {
    seq(|raw|, i requires 0 <= i < |raw| => Classified(raw[i]))
  }

  method ParseReport(text: string) returns (report: Report)
    ensures report == Reported(Tallied(LinesOf(text)))
  {
    hide InfoLine, Text.Lines;
    var raw := Text.Lines(text);
    var depth: Option<nat>, elapsed: Option<real>, terminal: Option<Terminal> := None, None, None;
    var invalid, hops := false, 0;
    for i := 0 to |raw|
      invariant Tally(depth, elapsed, terminal, invalid, hops) == Tallied(ClassifiedAll(raw)[..i])
    {
      assert ClassifiedAll(raw)[..i + 1][..i] == ClassifiedAll(raw)[..i];
      if !(INFO <= raw[i]) {
        continue;
      }
      match InfoLine(raw[i][|INFO|..]) {
        case DepthLine(value) =>
          invalid := invalid || depth.Some? || value.None?;
          depth := value;
        case SecondsLine(value) =>
          invalid := invalid || elapsed.Some? || value.None?;
          elapsed := value;
        case Garbled => invalid := true;
        case TerminalLine(value) =>
          invalid := invalid || terminal.Some? || value.None?;
          terminal := value;
        case HopLine => hops := hops + 1;
        case Unrelated =>
      }
    }
    assert ClassifiedAll(raw)[..|raw|] == ClassifiedAll(raw);
    report := Reported(Tally(depth, elapsed, terminal, invalid, hops));
  }

  predicate Passed(r: Report, minDepth: nat) {
    && r.depth >= minDepth
    && r.seconds >= 0.0
    && (r.stoppedAt == Some(SectionEnded) || r.stoppedAt == Some(Stopped) || r.stoppedAt == Some(NoFurtherRoute))
    && !r.reEntered
    && !r.arrivedDead
  }

  predicate Passes(lines: seq<Line>, minDepth: nat) {
    Passed(Reported(Tallied(lines)), minDepth)
  }

  // ---- What a pass is ----

  datatype Field = DepthField | SecondsField | TerminalField

  predicate IsOf(field: Field, line: Line) {
    match field
    case DepthField => line.DepthLine?
    case SecondsField => line.SecondsLine?
    case TerminalField => line.TerminalLine?
  }

  /** How many lines give a field. */
  function CountOf(field: Field, lines: seq<Line>): nat {
    if lines == [] then 0
    else CountOf(field, lines[..|lines| - 1]) + if IsOf(field, lines[|lines| - 1]) then 1 else 0
  }

  /** A line that spoils the whole report. */
  predicate Spoils(line: Line) {
    line.Garbled? || (line.DepthLine? && line.depth.None?) || (line.SecondsLine? && line.seconds.None?) ||
    (line.TerminalLine? && line.terminal.None?)
  }

  predicate IsDeepEnough(line: Line, minDepth: nat) {
    line.DepthLine? && line.depth.Some? &&
    1 <= line.depth.value <= ChainAssembly.MAX_CHAIN_ROUTES + 1 && minDepth <= line.depth.value
  }

  predicate IsDuration(line: Line) {
    line.SecondsLine? && line.seconds.Some? && line.seconds.value >= 0.0
  }

  predicate IsBenign(line: Line) {
    line == TerminalLine(Some(SectionEnded)) || line == TerminalLine(Some(Stopped)) ||
    line == TerminalLine(Some(NoFurtherRoute))
  }

  /** One well-formed depth that is deep enough, one well-formed duration, one
      benign ending, and nothing garbled or given twice. */
  predicate IsPass(lines: seq<Line>, minDepth: nat) {
    && (forall line | line in lines :: !Spoils(line))
    && CountOf(DepthField, lines) == 1 && CountOf(SecondsField, lines) == 1 && CountOf(TerminalField, lines) == 1
    && (exists line | line in lines :: IsDeepEnough(line, minDepth))
    && (exists line | line in lines :: IsDuration(line))
    && (exists line | line in lines :: IsBenign(line))
  }

  lemma {:induction false} CountedWhenPresent(field: Field, lines: seq<Line>, line: Line)
    requires line in lines && IsOf(field, line)
    ensures CountOf(field, lines) >= 1
  {
    var n := |lines| - 1;
    if lines[n] != line {
      CountedWhenPresent(field, lines[..n], line);
    }
  }

  lemma {:induction false} NoneWhenZero(field: Field, lines: seq<Line>)
    requires CountOf(field, lines) == 0
    ensures forall line | line in lines :: !IsOf(field, line)
  {
    forall line | line in lines ensures !IsOf(field, line) {
      if IsOf(field, line) {
        CountedWhenPresent(field, lines, line);
      }
    }
  }

  /** What a tally knows of the lines it has seen. */
  ghost predicate TallyTrue(lines: seq<Line>, t: Tally) {
    && (t.invalid <==>
          (exists line | line in lines :: Spoils(line)) || CountOf(DepthField, lines) > 1 ||
          CountOf(SecondsField, lines) > 1 || CountOf(TerminalField, lines) > 1)
    && (!t.invalid ==>
          && (t.depth.Some? <==> CountOf(DepthField, lines) == 1)
          && (t.seconds.Some? <==> CountOf(SecondsField, lines) == 1)
          && (t.terminal.Some? <==> CountOf(TerminalField, lines) == 1)
          && (t.depth.Some? ==> DepthLine(t.depth) in lines)
          && (t.seconds.Some? ==> SecondsLine(t.seconds) in lines)
          && (t.terminal.Some? ==> TerminalLine(t.terminal) in lines))
  }

  lemma OneMoreTallied(lines: seq<Line>, line: Line)
    requires TallyTrue(lines, Tallied(lines))
    ensures TallyTrue(lines + [line], Tallied(lines + [line]))
  {
    var more := lines + [line];
    assert more[..|lines|] == lines;
    assert forall x :: x in more <==> x in lines || x == line;
    if Spoils(line) {
      assert line in more;
    }
    forall x | x in lines && Spoils(x) ensures exists y | y in more :: Spoils(y) {
      assert x in more;
    }
  }

  lemma {:induction false} TallyIsTrue(lines: seq<Line>)
    ensures TallyTrue(lines, Tallied(lines))
  {
    if lines != [] {
      var n := |lines| - 1;
      TallyIsTrue(lines[..n]);
      assert lines == lines[..n] + [lines[n]];
      OneMoreTallied(lines[..n], lines[n]);
    }
  }

  /** A field given once is given by one line only. */
  lemma {:induction false} OnlyOne(field: Field, lines: seq<Line>, a: Line, b: Line)
    requires CountOf(field, lines) == 1 && a in lines && b in lines && IsOf(field, a) && IsOf(field, b)
    ensures a == b
  {
    var n := |lines| - 1;
    assert lines == lines[..n] + [lines[n]];
    if IsOf(field, lines[n]) {
      NoneWhenZero(field, lines[..n]);
    } else {
      OnlyOne(field, lines[..n], a, b);
    }
  }

  /** A walk passes exactly when its report is a pass. */
  lemma PassesIffIsPass(lines: seq<Line>, minDepth: nat)
    ensures Passes(lines, minDepth) <==> IsPass(lines, minDepth)
  {
    hide CountOf, Tallied;
    TallyIsTrue(lines);
    var t := Tallied(lines);
    if IsPass(lines, minDepth) {
      var d :| d in lines && IsDeepEnough(d, minDepth);
      var s :| s in lines && IsDuration(s);
      var b :| b in lines && IsBenign(b);
      assert !t.invalid;
      OnlyOne(DepthField, lines, d, DepthLine(t.depth));
      OnlyOne(SecondsField, lines, s, SecondsLine(t.seconds));
      OnlyOne(TerminalField, lines, b, TerminalLine(t.terminal));
    }
    if Passes(lines, minDepth) {
      assert IsDeepEnough(DepthLine(t.depth), minDepth) && IsDuration(SecondsLine(t.seconds));
      assert IsBenign(TerminalLine(t.terminal));
    }
  }

  // ---- What else the report tells ----

  function Hops(lines: seq<Line>): nat {
    if lines == [] then 0
    else Hops(lines[..|lines| - 1]) + if lines[|lines| - 1] == HopLine then 1 else 0
  }

  lemma {:induction false} HopsAreCounted(lines: seq<Line>)
    ensures Reported(Tallied(lines)).hops == Hops(lines)
  {
    if lines != [] {
      HopsAreCounted(lines[..|lines| - 1]);
    }
  }

  /** Of a walk that ended once the report tells whether it arrived dead, or
      entered a map again. */
  lemma EndingIsTold(lines: seq<Line>)
    requires CountOf(TerminalField, lines) == 1 && forall line | line in lines :: !Spoils(line)
    ensures var report := Reported(Tallied(lines));
            && (report.arrivedDead <==> TerminalLine(Some(ArrivedDead)) in lines)
            && (report.reEntered <==> TerminalLine(Some(ReEntered)) in lines)
  {
    hide CountOf;
    TerminalIsTold(lines, ArrivedDead);
    TerminalIsTold(lines, ReEntered);
  }

  lemma TerminalIsTold(lines: seq<Line>, t: Terminal)
    requires CountOf(TerminalField, lines) == 1 && forall line | line in lines :: !Spoils(line)
    ensures Tallied(lines).terminal == Some(t) <==> TerminalLine(Some(t)) in lines
  {
    hide CountOf;
    LastEnding(lines);
    if TerminalLine(Some(t)) in lines {
      OnlyOne(TerminalField, lines, TerminalLine(Tallied(lines).terminal), TerminalLine(Some(t)));
    }
  }

  lemma {:induction false} LastEnding(lines: seq<Line>)
    requires CountOf(TerminalField, lines) > 0
    ensures TerminalLine(Tallied(lines).terminal) in lines
  {
    var n := |lines| - 1;
    if !IsOf(TerminalField, lines[n]) {
      LastEnding(lines[..n]);
    }
  }

  // ---- What does not matter to the verdict ----

  lemma {:induction false} CountSplits(field: Field, a: seq<Line>, b: seq<Line>)
    ensures CountOf(field, a + b) == CountOf(field, a) + CountOf(field, b)
  {
    if b == [] {
      assert a + b == a;
    } else {
      var n := |b| - 1;
      CountSplits(field, a, b[..n]);
      assert (a + b)[..|a + b| - 1] == a + b[..n];
    }
  }

  lemma {:induction false} CountIgnoresOrder(field: Field, a: seq<Line>, b: seq<Line>)
    requires multiset(a) == multiset(b)
    ensures CountOf(field, a) == CountOf(field, b)
    decreases |a|
  {
    hide CountOf;
    if a == [] {
      assert |multiset(b)| == 0;
    } else {
      var before, after := FindFirst(a, b);
      CountIgnoresOrder(field, a[1..], before + after);
      assert a == [a[0]] + a[1..];
      CountSplits(field, [a[0]], a[1..]);
      CountSplits(field, before + [a[0]], after);
      CountSplits(field, before, [a[0]]);
      CountSplits(field, before, after);
    }
  }

  /** The order of the lines does not matter to the verdict. */
  lemma VerdictIgnoresOrder(a: seq<Line>, b: seq<Line>, minDepth: nat)
    requires multiset(a) == multiset(b)
    ensures Passes(a, minDepth) <==> Passes(b, minDepth)
  {
    hide CountOf, Passes;
    PassesIffIsPass(a, minDepth);
    PassesIffIsPass(b, minDepth);
    SameMembers(a, b);
    CountIgnoresOrder(DepthField, a, b);
    CountIgnoresOrder(SecondsField, a, b);
    CountIgnoresOrder(TerminalField, a, b);
  }

  /** Lines that say nothing of depth, time or ending do not matter to it. */
  lemma VerdictIgnoresUnrelated(a: seq<Line>, line: Line, b: seq<Line>, minDepth: nat)
    requires line.Unrelated? || line.HopLine?
    ensures Passes(a + [line] + b, minDepth) <==> Passes(a + b, minDepth)
  {
    hide CountOf, Passes;
    var more, less := a + [line] + b, a + b;
    PassesIffIsPass(more, minDepth);
    PassesIffIsPass(less, minDepth);
    assert forall x :: x in more <==> x in less || x == line;
    UnrelatedCounts(DepthField, a, line, b);
    UnrelatedCounts(SecondsField, a, line, b);
    UnrelatedCounts(TerminalField, a, line, b);
  }

  lemma UnrelatedCounts(field: Field, a: seq<Line>, line: Line, b: seq<Line>)
    requires !IsOf(field, line)
    ensures CountOf(field, a + [line] + b) == CountOf(field, a + b)
  {
    assert [line][..0] == [];
    CountSplits(field, a + [line], b);
    CountSplits(field, a, [line]);
    CountSplits(field, a, b);
  }

  /** The verdict on a text whose lines come in another order is the same. */
  lemma TextVerdictIgnoresOrder(a: string, b: string, minDepth: nat)
    requires multiset(Text.Lines(a)) == multiset(Text.Lines(b))
    ensures Passes(LinesOf(a), minDepth) <==> Passes(LinesOf(b), minDepth)
  {
    hide Text.Lines, Classified, Passes;
    ClassifyingKeepsMultiset(Text.Lines(a), Text.Lines(b));
    VerdictIgnoresOrder(LinesOf(a), LinesOf(b), minDepth);
  }

  lemma {:induction false} ClassifyingKeepsMultiset(a: seq<string>, b: seq<string>)
    requires multiset(a) == multiset(b)
    ensures multiset(ClassifiedAll(a)) == multiset(ClassifiedAll(b))
    decreases |a|
  {
    hide Classified;
    if a == [] {
      assert |multiset(b)| == 0;
    } else {
      var before, after := FindFirst(a, b);
      ClassifyingKeepsMultiset(a[1..], before + after);
      assert ClassifiedAll(a) == [Classified(a[0])] + ClassifiedAll(a[1..]);
      assert ClassifiedAll(b) == ClassifiedAll(before) + [Classified(a[0])] + ClassifiedAll(after);
      assert ClassifiedAll(before + after) == ClassifiedAll(before) + ClassifiedAll(after);
    }
  }
}

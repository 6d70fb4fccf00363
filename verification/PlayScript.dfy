/** The scripted-input format: its grammar, what a script means, and the
    parser that builds the per-tick inputs while reading. */
module PlayScript {
  import opened Wrappers
  import opened Text

  const MAX_LINES: nat := 4096
  const MAX_TOTAL_TICKS: nat := 100_000
  const MAX_TOKENS_PER_LINE: nat := 8
  const MOUSE_SENSITIVITY: real := 0.15

  datatype ScriptError =
    | TooManyLines | TooManyTicks | TooManyTokensOnLine | InvalidTickCount
    | UnknownToken | InvalidArguments | Empty | GuardNotAlone

  datatype Input = Input(
    forward: int, right: int, up: int,
    jump: bool, duck: bool, usePressed: bool, useHeld: bool,
    attack: bool, attack2: bool, reload: bool,
    selectSlot: Option<nat>, flashlightPressed: bool, mouseDelta: (real, real))

  const NO_INPUT: Input :=
    Input(0, 0, 0, false, false, false, false, false, false, false, None, false, (0.0, 0.0))

  datatype ScriptStep = Fixed(input: Input) | Guarded

  // ---- The grammar ----

  datatype Token =
    | Forward | Back | Left | Right | Up | Down
    | Jump | Duck | Attack | Attack2
    | Use | Reload | Flashlight | Wait | Guard
    | Slot(n: nat) | Look(pitch: real, yaw: real)

  datatype Line = Line(ticks: nat, tokens: seq<Token>)

  function Keyword(t: Token): string {
    match t
    case Forward => "forward"
    case Back => "back"
    case Left => "left"
    case Right => "right"
    case Up => "up"
    case Down => "down"
    case Jump => "jump"
    case Duck => "duck"
    case Attack => "attack"
    case Attack2 => "attack2"
    case Use => "use"
    case Reload => "reload"
    case Flashlight => "flashlight"
    case Wait => "wait"
    case Guard => "guard"
    case Slot(_) => "slot"
    case Look(_, _) => "look"
  }

  /** How many words a token takes, its keyword included. */
  function Width(t: Token): nat {
    match t
    case Slot(_) => 2
    case Look(_, _) => 3
    case _ => 1
  }

  /** `words` is a spelling of `t`. */
  predicate Spells(t: Token, words: seq<string>) {
    |words| == Width(t) && words[0] == Keyword(t) &&
    match t
    case Slot(n) => ParseUnsigned(words[1], U8_MAX) == Some(n) && 1 <= n <= 5
    case Look(pitch, yaw) =>
      ParseFloat(words[1]) == Some(Finite(pitch)) && ParseFloat(words[2]) == Some(Finite(yaw))
    case _ => true
  }

  predicate SpellsAll(tokens: seq<Token>, words: seq<string>) {
    if tokens == [] then words == []
    else
      var w := Width(tokens[0]);
      w <= |words| && Spells(tokens[0], words[..w]) && SpellsAll(tokens[1..], words[w..])
  }

  /** `text`, already trimmed, is a spelling of `line`. */
  predicate SpellsLine(line: Line, text: string) {
    var words := Words(text);
    words != [] && ParseUnsigned(words[0], U32_MAX) == Some(line.ticks) && SpellsAll(line.tokens, words[1..])
  }

  /** What a line must satisfy beyond its spelling. */
  predicate WithinLine(line: Line) {
    |line.tokens| <= MAX_TOKENS_PER_LINE && (Guard in line.tokens ==> |line.tokens| == 1)
  }

  function TotalTicks(lines: seq<Line>): nat {
    if lines == [] then 0 else lines[0].ticks + TotalTicks(lines[1..])
  }

  // ---- What a line means ----

  /** The latest of the two tokens decides an axis. */
  function Axis(tokens: seq<Token>, plus: Token, minus: Token): int {
    if tokens == [] then 0
    else
      var last := tokens[|tokens| - 1];
      if last == plus then 1 else if last == minus then -1
      else Axis(tokens[..|tokens| - 1], plus, minus)
  }

  function LastSlot(tokens: seq<Token>): Option<nat> {
    if tokens == [] then None
    else match tokens[|tokens| - 1]
      case Slot(n) => Some(n)
      case _ => LastSlot(tokens[..|tokens| - 1])
  }

  function LastLook(tokens: seq<Token>): Option<(real, real)> {
    if tokens == [] then None
    else match tokens[|tokens| - 1]
      case Look(pitch, yaw) => Some((pitch, yaw))
      case _ => LastLook(tokens[..|tokens| - 1])
  }

  /** The mouse motion of one tick of a line that turns by `look` in all. */
  function MouseDelta(look: Option<(real, real)>, ticks: nat): (real, real) {
    match look
    case None => (0.0, 0.0)
    case Some((pitch, yaw)) =>
      var divisor := if ticks == 0 then 1.0 else ticks as real;
      (-(yaw / divisor) / MOUSE_SENSITIVITY, pitch / divisor / MOUSE_SENSITIVITY)
  }

  /** The step a line schedules for its tick `i`. */
  function StepAt(line: Line, i: nat): ScriptStep {
    var ts := line.tokens;
    if Guard in ts then Guarded
    else Fixed(Input(
      Axis(ts, Forward, Back), Axis(ts, Right, Left), Axis(ts, Up, Down),
      Jump in ts, Duck in ts, i == 0 && Use in ts, false,
      Attack in ts, Attack2 in ts, i == 0 && Reload in ts,
      if i == 0 then LastSlot(ts) else None, i == 0 && Flashlight in ts,
      MouseDelta(LastLook(ts), line.ticks)))
  }

  function Expand(line: Line): (steps: seq<ScriptStep>)
    ensures |steps| == line.ticks
  {
    seq(line.ticks, i requires 0 <= i < line.ticks => StepAt(line, i))
  }

  function ExpandAll(lines: seq<Line>): (steps: seq<ScriptStep>)
    ensures |steps| == TotalTicks(lines)
  {
    if lines == [] then [] else Expand(lines[0]) + ExpandAll(lines[1..])
  }

  // ---- Reading ----

  function PlainToken(word: string): Option<Token> {
    if word == "forward" then Some(Forward)
    else if word == "back" then Some(Back)
    else if word == "left" then Some(Left)
    else if word == "right" then Some(Right)
    else if word == "up" then Some(Up)
    else if word == "down" then Some(Down)
    else if word == "jump" then Some(Jump)
    else if word == "duck" then Some(Duck)
    else if word == "attack" then Some(Attack)
    else if word == "attack2" then Some(Attack2)
    else if word == "use" then Some(Use)
    else if word == "reload" then Some(Reload)
    else if word == "flashlight" then Some(Flashlight)
    else if word == "wait" then Some(Wait)
    else if word == "guard" then Some(Guard)
    else None
  }

  /** The token at the front of `words`. */
  function ReadToken(words: seq<string>): (r: Result<Token, ScriptError>)
    requires words != []
    ensures r.Ok? ==> Width(r.value) <= |words|
  {
    var word := words[0];
    if PlainToken(word).Some? then
      PlainIsNarrow(word);
      Ok(PlainToken(word).value)
    else if word == "slot" then
      if |words| < 2 then Err(InvalidArguments)
      else match ParseUnsigned(words[1], U8_MAX)
        case None => Err(InvalidArguments)
        case Some(n) => if 1 <= n <= 5 then Ok(Slot(n)) else Err(InvalidArguments)
    else if word == "look" then
      if |words| < 3 then Err(InvalidArguments)
      else match (ParseFloat(words[1]), ParseFloat(words[2]))
        case (Some(Finite(pitch)), Some(Finite(yaw))) => Ok(Look(pitch, yaw))
        case _ => Err(InvalidArguments)
    else Err(UnknownToken)
  }

  lemma PlainIsNarrow(word: string)
    requires PlainToken(word).Some?
    ensures Width(PlainToken(word).value) == 1 && Keyword(PlainToken(word).value) == word
  {
  }

  /** All tokens of a line, with room for `room` of them. */
  function ReadTokens(words: seq<string>, room: nat): Result<seq<Token>, ScriptError>
    decreases |words|
  {
    if words == [] then Ok([])
    else if room == 0 then Err(TooManyTokensOnLine)
    else match ReadToken(words)
      case Err(e) => Err(e)
      case Ok(t) =>
        match ReadTokens(words[Width(t)..], room - 1)
        case Err(e) => Err(e)
        case Ok(ts) => Ok([t] + ts)
  }

  function ReadLine(text: string): Result<Line, ScriptError> {
    var words := Words(text);
    if words == [] then Err(InvalidTickCount)
    else match ParseUnsigned(words[0], U32_MAX)
      case None => Err(InvalidTickCount)
      case Some(ticks) =>
        match ReadTokens(words[1..], MAX_TOKENS_PER_LINE)
        case Err(e) => Err(e)
        case Ok(tokens) => Ok(Line(ticks, tokens))
  }

  predicate IsContent(line: string) {
    Trim(line) != "" && Trim(line)[0] != '#'
  }

  /** The trimmed lines that are neither blank nor comments. */
  function Content(lines: seq<string>): seq<string> {
    if lines == [] then []
    else (if IsContent(lines[0]) then [Trim(lines[0])] else []) + Content(lines[1..])
  }

  /** The lines of a script of which `count` lines and `total` ticks have
      already been read. */
  function ReadScript(content: seq<string>, count: nat, total: nat): Result<seq<Line>, ScriptError>
    decreases |content|
  {
    if content == [] then Ok([])
    else if count + 1 > MAX_LINES then Err(TooManyLines)
    else match ReadLine(content[0])
      case Err(e) => Err(e)
      case Ok(line) =>
        if total + line.ticks > MAX_TOTAL_TICKS then Err(TooManyTicks)
        else if Guard in line.tokens && |line.tokens| > 1 then Err(GuardNotAlone)
        else match ReadScript(content[1..], count + 1, total + line.ticks)
          case Err(e) => Err(e)
          case Ok(lines) => Ok([line] + lines)
  }

  /** What parsing a text gives. */
  function Parsed(text: string): Result<seq<ScriptStep>, ScriptError> {
    match ReadScript(Content(Lines(text)), 0, 0)
    case Err(e) => Err(e)
    case Ok(lines) => if TotalTicks(lines) == 0 then Err(Empty) else Ok(ExpandAll(lines))
  }

  // ---- Reading agrees with the grammar ----

  lemma KeywordIsPlain(t: Token)
    requires !t.Slot? && !t.Look?
    ensures PlainToken(Keyword(t)) == Some(t)
  {
  }

  lemma ArgumentKeywords()
    ensures PlainToken("slot") == PlainToken("look") == None
    ensures "slot" != "look"
  {
    assert "slot"[0] != "look"[0];
  }

  lemma KeywordOfArguments(t: Token)
    ensures t.Slot? ==> Keyword(t) == "slot"
    ensures t.Look? ==> Keyword(t) == "look"
  {
  }

  lemma ReadTokenSpells(words: seq<string>, t: Token)
    requires words != []
    ensures ReadToken(words) == Ok(t) <==> Width(t) <= |words| && Spells(t, words[..Width(t)])
  {
    hide ParseUnsigned, ParseFloat, PlainToken, Keyword;
    ArgumentKeywords();
    KeywordOfArguments(t);
    if PlainToken(words[0]).Some? {
      PlainIsNarrow(words[0]);
    }
    if !t.Slot? && !t.Look? {
      KeywordIsPlain(t);
    }
  }

  lemma {:induction false} ReadTokensSpells(words: seq<string>, room: nat, tokens: seq<Token>)
    ensures ReadTokens(words, room) == Ok(tokens) <==> |tokens| <= room && SpellsAll(tokens, words)
    decreases |words|
  {
    hide ReadToken, Spells;
    if words == [] {
      if tokens != [] {
        assert Width(tokens[0]) > 0;
      }
    } else if tokens != [] && room > 0 {
      ReadTokenSpells(words, tokens[0]);
      if Width(tokens[0]) <= |words| {
        ReadTokensSpells(words[Width(tokens[0])..], room - 1, tokens[1..]);
        assert tokens == [tokens[0]] + tokens[1..];
      }
    }
  }

  lemma ReadLineSpells(text: string, line: Line)
    ensures ReadLine(text) == Ok(line) <==> SpellsLine(line, text) && |line.tokens| <= MAX_TOKENS_PER_LINE
  {
    var words := Words(text);
    if words != [] {
      ReadTokensSpells(words[1..], MAX_TOKENS_PER_LINE, line.tokens);
    }
  }

  /** `lines` is what `content` spells, line by line. */
  predicate SpellsLines(lines: seq<Line>, content: seq<string>) {
    if lines == [] || content == [] then lines == [] && content == []
    else SpellsLine(lines[0], content[0]) && WithinLine(lines[0]) && SpellsLines(lines[1..], content[1..])
  }

  /** The limits on what may still follow `count` lines and `total` ticks. */
  predicate WithinScript(lines: seq<Line>, count: nat, total: nat) {
    lines != [] ==> count + |lines| <= MAX_LINES && total + TotalTicks(lines) <= MAX_TOTAL_TICKS
  }

  lemma ReadScriptLength(content: seq<string>, count: nat, total: nat)
    ensures var r := ReadScript(content, count, total);
            content != [] ==> r.Err? || r.value != []
  {
    hide ReadLine;
  }

  lemma {:induction false} ReadScriptSpells(content: seq<string>, count: nat, total: nat, lines: seq<Line>)
    ensures ReadScript(content, count, total) == Ok(lines) <==>
            SpellsLines(lines, content) && WithinScript(lines, count, total)
    decreases |content|
  {
    hide ReadLine, SpellsLine;
    if content == [] {
    } else if lines == [] {
      ReadScriptLength(content, count, total);
    } else {
      var line, rest := lines[0], lines[1..];
      assert lines == [line] + rest;
      ReadLineSpells(content[0], line);
      ReadScriptSpells(content[1..], count + 1, total + line.ticks, rest);
      WithinScriptStep(line, rest, count, total);
    }
  }

  lemma WithinScriptStep(line: Line, rest: seq<Line>, count: nat, total: nat)
    ensures WithinScript([line] + rest, count, total) <==>
            count + 1 <= MAX_LINES && total + line.ticks <= MAX_TOTAL_TICKS &&
            WithinScript(rest, count + 1, total + line.ticks)
  {
    var lines := [line] + rest;
    assert lines[1..] == rest && lines[0] == line;
    assert TotalTicks(lines) == line.ticks + TotalTicks(rest);
  }

  /** `lines` is a script spelled by `content`. */
  predicate IsScript(lines: seq<Line>, content: seq<string>) {
    SpellsLines(lines, content) && WithinScript(lines, 0, 0) && TotalTicks(lines) > 0
  }

  /** A text parses exactly when its content lines spell a script with ticks
      in it and within the limits, and then the result is that script's
      lines expanded in order. */
  lemma ParseAcceptsExactlyScripts(text: string, steps: seq<ScriptStep>)
    ensures Parsed(text) == Ok(steps) <==>
      exists lines: seq<Line> :: IsScript(lines, Content(Lines(text))) && steps == ExpandAll(lines)
  {
    hide ReadScript, SpellsLines, WithinScript, Content, ExpandAll;
    var content := Content(Lines(text));
    if Parsed(text) == Ok(steps) {
      var lines := ReadScript(content, 0, 0).value;
      ReadScriptSpells(content, 0, 0, lines);
      assert IsScript(lines, content) && steps == ExpandAll(lines);
    }
    if lines: seq<Line> :| IsScript(lines, content) && steps == ExpandAll(lines) {
      ReadScriptSpells(content, 0, 0, lines);
    }
  }

  lemma {:induction false} TokensAreUnique(words: seq<string>, a: seq<Token>, b: seq<Token>)
    requires SpellsAll(a, words) && SpellsAll(b, words)
    ensures a == b
    decreases |words|
  {
    hide Spells;
    if words == [] {
      NothingSpelled(a);
      NothingSpelled(b);
    } else {
      ReadTokenSpells(words, a[0]);
      ReadTokenSpells(words, b[0]);
      TokensAreUnique(words[Width(a[0])..], a[1..], b[1..]);
      assert a == [a[0]] + a[1..] && b == [b[0]] + b[1..];
    }
  }

  lemma NothingSpelled(tokens: seq<Token>)
    requires SpellsAll(tokens, [])
    ensures tokens == []
  {
    assert forall t: Token :: Width(t) > 0;
  }

  /** A line of text spells at most one line, within the limits or not. */
  lemma SpellingIsUnique(text: string, a: Line, b: Line)
    requires SpellsLine(a, text) && SpellsLine(b, text)
    ensures a == b
  {
    TokensAreUnique(Words(text)[1..], a.tokens, b.tokens);
  }

  /** A line that starts with something other than a comment is content, and
      trimming leaves its words. */
  lemma WordsAreContent(line: string)
    requires AsciiSpacesOnly(line) && Words(line) != [] && (Words(line)[0] == "" || Words(line)[0][0] != '#')
    ensures IsContent(line) && Words(Trim(line)) == Words(line)
  {
    hide TrimStart, TrimEnd;
    WordsOfTrim(line);
    var t := Trim(line);
    TrimStartFirst(line);
    TrimEndFirst(TrimStart(line));
    assert t != "" && !IsAsciiSpace(t[0]);
    assert Words(t)[0][0] == t[0];
  }

  // ---- What the expansion keeps ----

  /** Edge inputs appear on a line's first tick only; everything else is held
      for the whole line. */
  lemma EdgesOnFirstTickOnly(line: Line, i: nat)
    requires 0 < i < line.ticks && Guard !in line.tokens
    ensures Expand(line)[0].Fixed? && Expand(line)[i].Fixed?
    ensures var first := Expand(line)[0].input;
            Expand(line)[i].input == first.(usePressed := false, reload := false,
                                            selectSlot := None, flashlightPressed := false)
  {
  }

  /** Adds up one component of the mouse motion of some steps. */
  function Turn(steps: seq<ScriptStep>): (real, real) {
    if steps == [] then (0.0, 0.0)
    else
      var rest := Turn(steps[..|steps| - 1]);
      match steps[|steps| - 1]
      case Guarded => rest
      case Fixed(input) => (rest.0 + input.mouseDelta.0, rest.1 + input.mouseDelta.1)
  }

  lemma OneMoreShare(n: nat, m: nat, x: real)
    requires m == n + 1
    ensures m as real * x == n as real * x + x
  {
    assert m as real == n as real + 1.0;
  }

  lemma {:induction false} TurnOfEqualSteps(steps: seq<ScriptStep>, n: nat, delta: (real, real))
    requires |steps| == n
    requires forall i | 0 <= i < n :: steps[i].Fixed? && steps[i].input.mouseDelta == delta
    ensures Turn(steps) == (n as real * delta.0, n as real * delta.1)
  {
    if n == 0 {
      assert 0.0 * delta.0 == 0.0 && 0.0 * delta.1 == 0.0;
    } else {
      TurnOfEqualSteps(steps[..n - 1], n - 1, delta);
      OneMoreShare(n - 1, n, delta.0);
      OneMoreShare(n - 1, n, delta.1);
      assert Turn(steps).0 == n as real * delta.0;
      assert Turn(steps).1 == n as real * delta.1;
    }
  }

  /** Over a line's ticks the view turns by exactly what the line's last look
      asked for: the camera turns `-delta.0 * sensitivity` in yaw and
      `delta.1 * sensitivity` in pitch. */
  lemma LookTurnsByTheRequest(line: Line, pitch: real, yaw: real)
    requires line.ticks > 0 && Guard !in line.tokens
    requires LastLook(line.tokens) == Some((pitch, yaw))
    ensures -Turn(Expand(line)).0 * MOUSE_SENSITIVITY == yaw
    ensures Turn(Expand(line)).1 * MOUSE_SENSITIVITY == pitch
  {
    var n := line.ticks as real;
    var delta := MouseDelta(Some((pitch, yaw)), line.ticks);
    TurnOfEqualSteps(Expand(line), line.ticks, delta);
    SpreadAddsUp(n, yaw);
    SpreadAddsUp(n, pitch);
  }

  lemma SpreadAddsUp(n: real, x: real)
    requires n > 0.0
    ensures n * (x / n / MOUSE_SENSITIVITY) * MOUSE_SENSITIVITY == x
    ensures n * (-(x / n) / MOUSE_SENSITIVITY) * MOUSE_SENSITIVITY == -x
  {
    var y := x / n;
    assert n * y == x;
  }

  // ---- The parser ----

  /** What a line's tokens add up to so far: what is held for every tick,
      what is applied on the first tick only, and the turn to spread. */
  datatype LineState = LineState(base: Input, firstTickOnly: Input, lookTotal: Option<(real, real)>, guard: bool)

  /** The state after reading `tokens`. */
  function StateOf(tokens: seq<Token>): LineState {
    LineState(
      NO_INPUT.(forward := Axis(tokens, Forward, Back), right := Axis(tokens, Right, Left),
                up := Axis(tokens, Up, Down), jump := Jump in tokens, duck := Duck in tokens,
                attack := Attack in tokens, attack2 := Attack2 in tokens),
      NO_INPUT.(usePressed := Use in tokens, reload := Reload in tokens,
                flashlightPressed := Flashlight in tokens, selectSlot := LastSlot(tokens)),
      LastLook(tokens),
      Guard in tokens)
  }

  /** The state with one more token read into it. */
  function Applied(state: LineState, t: Token): LineState {
    var base, first := state.base, state.firstTickOnly;
    match t
    case Forward => state.(base := base.(forward := 1))
    case Back => state.(base := base.(forward := -1))
    case Left => state.(base := base.(right := -1))
    case Right => state.(base := base.(right := 1))
    case Up => state.(base := base.(up := 1))
    case Down => state.(base := base.(up := -1))
    case Jump => state.(base := base.(jump := true))
    case Duck => state.(base := base.(duck := true))
    case Attack => state.(base := base.(attack := true))
    case Attack2 => state.(base := base.(attack2 := true))
    case Use => state.(firstTickOnly := first.(usePressed := true))
    case Reload => state.(firstTickOnly := first.(reload := true))
    case Flashlight => state.(firstTickOnly := first.(flashlightPressed := true))
    case Wait => state
    case Guard => state.(guard := true)
    case Slot(n) => state.(firstTickOnly := first.(selectSlot := Some(n)))
    case Look(pitch, yaw) => state.(lookTotal := Some((pitch, yaw)))
  }

  lemma AxisOfLonger(before: seq<Token>, t: Token, plus: Token, minus: Token)
    ensures Axis(before + [t], plus, minus) ==
            if t == plus then 1 else if t == minus then -1 else Axis(before, plus, minus)
  {
    assert (before + [t])[..|before|] == before;
  }

  lemma LastOfLonger(before: seq<Token>, t: Token)
    ensures LastSlot(before + [t]) == if t.Slot? then Some(t.n) else LastSlot(before)
    ensures LastLook(before + [t]) == if t.Look? then Some((t.pitch, t.yaw)) else LastLook(before)
  {
    assert (before + [t])[..|before|] == before;
  }

  lemma InLonger(before: seq<Token>, t: Token, u: Token)
    ensures u in before + [t] <==> u in before || u == t
  {
  }

  lemma BaseApplied(before: seq<Token>, t: Token)
    ensures Applied(StateOf(before), t).base == StateOf(before + [t]).base
  {
    hide Axis, LastSlot, LastLook;
    AxisOfLonger(before, t, Forward, Back);
    AxisOfLonger(before, t, Right, Left);
    AxisOfLonger(before, t, Up, Down);
    InLonger(before, t, Jump);
    InLonger(before, t, Duck);
    InLonger(before, t, Attack);
    InLonger(before, t, Attack2);
  }

  lemma FirstTickApplied(before: seq<Token>, t: Token)
    ensures Applied(StateOf(before), t).firstTickOnly == StateOf(before + [t]).firstTickOnly
  {
    hide Axis, LastSlot, LastLook;
    LastOfLonger(before, t);
    InLonger(before, t, Use);
    InLonger(before, t, Reload);
    InLonger(before, t, Flashlight);
  }

  lemma AppliedIsState(before: seq<Token>, t: Token)
    ensures Applied(StateOf(before), t) == StateOf(before + [t])
  {
    hide Axis, LastSlot, LastLook;
    BaseApplied(before, t);
    FirstTickApplied(before, t);
    LastOfLonger(before, t);
    InLonger(before, t, Guard);
  }

  /** Reads one token whose keyword is `word` and whose arguments, if any,
      are taken from the front of `words`. */
  method ApplyToken(word: string, words: seq<string>, state: LineState)
    returns (r: Result<LineState, ScriptError>, left: seq<string>)
    ensures match ReadToken([word] + words)
            case Err(e) => r == Err(e)
            case Ok(t) => r == Ok(Applied(state, t)) && left == words[Width(t) - 1..]
  {
    hide ParseUnsigned, ParseFloat, PlainToken;
    left := words;
    ghost var whole := [word] + words;
    assert whole[0] == word;
    assert words != [] ==> whole[1] == words[0];
    assert |words| > 1 ==> whole[2] == words[1];
    var plain := PlainToken(word);
    if plain.Some? {
      PlainIsNarrow(word);
      r := Ok(Applied(state, plain.value));
    } else if word == "slot" {
      if left == [] {
        return Err(InvalidArguments), left;
      }
      var raw := left[0];
      left := left[1..];
      var slot := ParseUnsigned(raw, U8_MAX);
      if slot.None? || !(1 <= slot.value <= 5) {
        return Err(InvalidArguments), left;
      }
      r := Ok(Applied(state, Slot(slot.value)));
    } else if word == "look" {
      if |left| < 2 {
        return Err(InvalidArguments), left;
      }
      var pitch, yaw := ParseFloat(left[0]), ParseFloat(left[1]);
      left := left[2..];
      if pitch.None? || yaw.None? || !pitch.value.Finite? || !yaw.value.Finite? {
        return Err(InvalidArguments), left;
      }
      r := Ok(Applied(state, Look(pitch.value.value, yaw.value.value)));
    } else {
      r := Err(UnknownToken);
    }
  }

  /** What reading one more line does to the steps and the tick total. */
  function LineOutcome(text: string, steps: seq<ScriptStep>, total: nat): Result<(seq<ScriptStep>, nat), ScriptError> {
    match ReadLine(text)
    case Err(e) => Err(e)
    case Ok(line) =>
      if total + line.ticks > MAX_TOTAL_TICKS then Err(TooManyTicks)
      else if Guard in line.tokens && |line.tokens| > 1 then Err(GuardNotAlone)
      else Ok((steps + Expand(line), total + line.ticks))
  }

  /** The tokens read so far followed by those still to come. */
  function Resumed(done: seq<Token>, rest: Result<seq<Token>, ScriptError>): Result<seq<Token>, ScriptError> {
    match rest
    case Err(e) => Err(e)
    case Ok(ts) => Ok(done + ts)
  }

  /** What one more token, or the lack of one, makes of the reading. */
  lemma TokenRead(done: seq<Token>, rest: seq<string>, room: nat)
    requires rest != [] && room > 0
    ensures match ReadToken(rest)
            case Err(e) => Resumed(done, ReadTokens(rest, room)) == Err(e)
            case Ok(t) =>
              Resumed(done, ReadTokens(rest, room)) == Resumed(done + [t], ReadTokens(rest[Width(t)..], room - 1))
  {
    hide ReadToken, Width;
    if ReadToken(rest).Ok? {
      var t := ReadToken(rest).value;
      OneMoreDone(done, t, ReadTokens(rest[Width(t)..], room - 1));
    }
  }

  lemma ReadingEnds(done: seq<Token>, rest: seq<string>, room: nat)
    ensures rest == [] ==> Resumed(done, ReadTokens(rest, room)) == Ok(done)
    ensures rest != [] && room == 0 ==> Resumed(done, ReadTokens(rest, room)) == Err(TooManyTokensOnLine)
  {
    hide ReadToken;
    assert done + [] == done;
  }

  method ParseTokens(words: seq<string>)
    returns (r: Result<LineState, ScriptError>, count: nat)
    ensures match ReadTokens(words, MAX_TOKENS_PER_LINE)
            case Err(e) => r == Err(e)
            case Ok(ts) => r == Ok(StateOf(ts)) && count == |ts|
  {
    hide ReadToken, ReadTokens, Resumed, StateOf, Applied;
    var state := LineState(NO_INPUT, NO_INPUT, None, false);
    EmptyState();
    NothingDone(ReadTokens(words, MAX_TOKENS_PER_LINE));
    ghost var done: seq<Token> := [];
    var rest := words;
    count := 0;
    while rest != []
      invariant count == |done| <= MAX_TOKENS_PER_LINE
      invariant state == StateOf(done)
      invariant ReadTokens(words, MAX_TOKENS_PER_LINE) == Resumed(done, ReadTokens(rest, MAX_TOKENS_PER_LINE - count))
      decreases |rest|
    {
      var word := rest[0];
      assert [word] + rest[1..] == rest;
      ReadingEnds(done, rest, MAX_TOKENS_PER_LINE - count);
      count := count + 1;
      if count > MAX_TOKENS_PER_LINE {
        return Err(TooManyTokensOnLine), count;
      }
      TokenRead(done, rest, MAX_TOKENS_PER_LINE - count + 1);
      var applied, left := ApplyToken(word, rest[1..], state);
      if applied.Err? {
        return Err(applied.error), count;
      }
      ghost var t := ReadToken(rest).value;
      assert rest[1..][Width(t) - 1..] == rest[Width(t)..];
      AppliedIsState(done, t);
      state := applied.value;
      done := done + [t];
      rest := left;
    }
    ReadingEnds(done, rest, MAX_TOKENS_PER_LINE - count);
    r := Ok(state);
  }

  lemma OneMoreDone(done: seq<Token>, t: Token, rest: Result<seq<Token>, ScriptError>)
    ensures Resumed(done + [t], rest) == Resumed(done, Resumed([t], rest))
  {
    if rest.Ok? {
      assert done + ([t] + rest.value) == done + [t] + rest.value;
    }
  }

  lemma NothingDone(r: Result<seq<Token>, ScriptError>)
    ensures Resumed([], r) == r
  {
    if r.Ok? {
      assert [] + r.value == r.value;
    }
  }

  lemma EmptyState()
    ensures StateOf([]) == LineState(NO_INPUT, NO_INPUT, None, false)
  {
  }

  method ParseLine(text: string, steps: seq<ScriptStep>, total: nat)
    returns (r: Result<(seq<ScriptStep>, nat), ScriptError>)
    ensures r == LineOutcome(text, steps, total)
  {
    hide ReadTokens, Words, ParseUnsigned, StepAt, StateOf;
    var words := Words(text);
    if words == [] {
      return Err(InvalidTickCount);
    }
    var parsed := ParseUnsigned(words[0], U32_MAX);
    if parsed.None? {
      return Err(InvalidTickCount);
    }
    var ticks := parsed.value;
    var read, count := ParseTokens(words[1..]);
    if read.Err? {
      return Err(read.error);
    }
    var state := read.value;
    ghost var line := ReadLine(text).value;
    if total + ticks > MAX_TOTAL_TICKS {
      return Err(TooManyTicks);
    }
    GuardOfState(line.tokens);
    if state.guard && count > 1 {
      return Err(GuardNotAlone);
    }
    var delta := MouseDelta(state.lookTotal, ticks);
    var out := steps;
    for i := 0 to ticks
      invariant out == steps + Expand(line)[..i]
    {
      StepFromState(line, i);
      if state.guard {
        out := out + [Guarded];
      } else {
        var input := state.base;
        if i == 0 {
          input := input.(usePressed := state.firstTickOnly.usePressed,
                          reload := state.firstTickOnly.reload,
                          flashlightPressed := state.firstTickOnly.flashlightPressed,
                          selectSlot := state.firstTickOnly.selectSlot);
        }
        if state.lookTotal.Some? {
          input := input.(mouseDelta := delta);
        }
        out := out + [Fixed(input)];
      }
      assert Expand(line)[..i + 1] == Expand(line)[..i] + [StepAt(line, i)];
    }
    assert Expand(line)[..ticks] == Expand(line);
    r := Ok((out, total + ticks));
  }

  lemma GuardOfState(tokens: seq<Token>)
    ensures StateOf(tokens).guard == (Guard in tokens)
    ensures StateOf(tokens).lookTotal == LastLook(tokens)
  {
  }

  lemma StepFromState(line: Line, i: nat)
    ensures StepAt(line, i) ==
            var s := StateOf(line.tokens);
            var first := s.firstTickOnly;
            var held := if i == 0 then s.base.(usePressed := first.usePressed, reload := first.reload,
                                               flashlightPressed := first.flashlightPressed,
                                               selectSlot := first.selectSlot)
                        else s.base;
            if s.guard then Guarded
            else if s.lookTotal.Some? then Fixed(held.(mouseDelta := MouseDelta(s.lookTotal, line.ticks)))
            else Fixed(held)
  {
  }

  /** The result of a parse that has collected `steps` and still has `content`
      to read. */
  function Remaining(content: seq<string>, count: nat, total: nat, steps: seq<ScriptStep>)
    : Result<seq<ScriptStep>, ScriptError>
  {
    match ReadScript(content, count, total)
    case Err(e) => Err(e)
    case Ok(lines) => Ok(steps + ExpandAll(lines))
  }

  lemma RemainingAfterLine(text: string, rest: seq<string>, count: nat, total: nat, steps: seq<ScriptStep>)
    requires count + 1 <= MAX_LINES
    ensures Remaining([text] + rest, count, total, steps) ==
            match LineOutcome(text, steps, total)
            case Err(e) => Err(e)
            case Ok((steps', total')) => Remaining(rest, count + 1, total', steps')
  {
    hide ReadLine, Expand;
    assert ([text] + rest)[1..] == rest;
    if LineOutcome(text, steps, total).Ok? {
      var line := ReadLine(text).value;
      var r := ReadScript(rest, count + 1, total + line.ticks);
      if r.Ok? {
        assert ([line] + r.value)[1..] == r.value;
        assert steps + (Expand(line) + ExpandAll(r.value)) == steps + Expand(line) + ExpandAll(r.value);
      }
    }
  }

  method Parse(text: string) returns (r: Result<seq<ScriptStep>, ScriptError>)
    ensures r == Parsed(text)
  {
    hide ReadScript, LineOutcome, ExpandAll, Trim;
    var lines := Lines(text);
    var steps: seq<ScriptStep>, total: nat, count: nat := [], 0, 0;
    ghost var whole := Remaining(Content(lines), 0, 0, []);
    var i := 0;
    while i < |lines|
      invariant 0 <= i <= |lines|
      invariant count <= MAX_LINES
      invariant Remaining(Content(lines[i..]), count, total, steps) == whole
    {
      var line := Trim(lines[i]);
      assert Content(lines[i..]) == (if IsContent(lines[i]) then [line] else []) + Content(lines[i + 1..]) by {
        assert lines[i..][0] == lines[i] && lines[i..][1..] == lines[i + 1..];
      }
      if line == "" || line[0] == '#' {
        assert [] + Content(lines[i + 1..]) == Content(lines[i + 1..]);
        i := i + 1;
        continue;
      }
      count := count + 1;
      if count > MAX_LINES {
        TooManyLinesStops([line] + Content(lines[i + 1..]), total);
        return Err(TooManyLines);
      }
      RemainingAfterLine(line, Content(lines[i + 1..]), count - 1, total, steps);
      var outcome := ParseLine(line, steps, total);
      if outcome.Err? {
        return Err(outcome.error);
      }
      steps, total := outcome.value.0, outcome.value.1;
      i := i + 1;
    }
    NothingRemains(count, total, steps);
    assert steps == [] + steps;
    ParsedFromRemaining(text);
    if steps == [] {
      return Err(Empty);
    }
    r := Ok(steps);
  }

  lemma TooManyLinesStops(content: seq<string>, total: nat)
    requires content != []
    ensures ReadScript(content, MAX_LINES, total) == Err(TooManyLines)
  {
  }

  lemma NothingRemains(count: nat, total: nat, steps: seq<ScriptStep>)
    ensures Remaining([], count, total, steps) == Ok(steps)
  {
    assert steps + [] == steps;
  }

  lemma ParsedFromRemaining(text: string)
    ensures Parsed(text) ==
            match Remaining(Content(Lines(text)), 0, 0, [])
            case Err(e) => Err(e)
            case Ok(steps) => if steps == [] then Err(Empty) else Ok(steps)
  {
    hide ReadScript;
    var r := ReadScript(Content(Lines(text)), 0, 0);
    if r.Ok? {
      assert [] + ExpandAll(r.value) == ExpandAll(r.value);
    }
  }
}

/** Scripted possession: the state machine of one scripted sequence. */
module Scripts {
  import opened Steps

  const MOVE_TIMEOUT_SECONDS: real := 30.0
  const MAX_COMPLETIONS: nat := 0xFFFF_FFFF

  datatype MoveTo = Stay | Walk | Run | Instantaneous | TurnToFace

  /** What the map says of a script. */
  datatype Def = Def(moveTo: MoveTo, noInterruptions: bool, repeatable: bool, repeatSeconds: real)

  datatype Phase = Dormant | Moving | Playing | Repeating | Done {
    predicate IsActive() {
      Moving? || Playing?
    }
  }

  datatype Action = NoAction | Idle | Approach(run: bool) | Teleport | Face | Play

  datatype Sense = Sense(dt: real, atMark: bool, facingMark: bool, sequenceFinished: bool, disturbed: bool)

  datatype Step = Step(
    action: Action,
    started: bool,
    released: bool,
    completed: bool,
    interrupted: bool,
    timedOut: bool)

  const NOTHING: Step := Step(NoAction, false, false, false, false, false)

  datatype Script = Script(
    def: Def,
    phase: Phase,
    timer: real,
    completions: nat,
    warped: bool,
    movingElapsed: real)

  function Fresh(def: Def): Script {
    Script(def, Dormant, 0.0, 0, false, 0.0)
  }

  function Begun(s: Script): Script {
    s.(phase := Moving, timer := 0.0, warped := false, movingElapsed := 0.0)
  }

  function LetGo(s: Script): Script {
    s.(phase := Dormant, timer := 0.0, warped := false, movingElapsed := 0.0)
  }

  function ApproachAction(def: Def): Action {
    match def.moveTo
    case Stay => Idle
    case Walk => Approach(false)
    case Run => Approach(true)
    case Instantaneous => Teleport
    case TurnToFace => Face
  }

  /** Whether the monster is where the script wants it. */
  predicate Arrived(s: Script, sense: Sense) {
    match s.def.moveTo
    case Stay => true
    case Walk => sense.atMark
    case Run => sense.atMark
    case Instantaneous => s.warped
    case TurnToFace => sense.facingMark
  }

  function UpdatedMoving(s: Script, sense: Sense): (Script, Step) {
    var placed := if s.def.moveTo.Instantaneous? then s.(warped := true) else s;
    if Arrived(s, sense) then (placed.(phase := Playing), NOTHING.(action := Play))
    else
      var waited := placed.(movingElapsed := s.movingElapsed + AtLeastZero(sense.dt));
      if waited.movingElapsed >= MOVE_TIMEOUT_SECONDS then
        (LetGo(waited), NOTHING.(released := true, timedOut := true))
      else (waited, NOTHING.(action := ApproachAction(s.def)))
  }

  function UpdatedPlaying(s: Script, sense: Sense): (Script, Step) {
    if !sense.sequenceFinished then (s, NOTHING.(action := Play))
    else
      var counted := s.(
        completions := if s.completions < MAX_COMPLETIONS then s.completions + 1 else s.completions, warped := false);
      var next :=
        if s.def.repeatable && s.def.repeatSeconds > 0.0 then
          counted.(phase := Repeating, timer := s.def.repeatSeconds)
        else if s.def.repeatable then counted.(phase := Dormant, timer := 0.0)
        else counted.(phase := Done, timer := 0.0);
      (next, NOTHING.(released := true, completed := true))
  }

  function Updated(s: Script, sense: Sense): (Script, Step) {
    if sense.disturbed && s.phase.IsActive() && !s.def.noInterruptions then
      (LetGo(s), NOTHING.(released := true, interrupted := true))
    else
      match s.phase
      case Dormant => (s, NOTHING)
      case Done => (s, NOTHING)
      case Repeating =>
        var counted := s.(timer := s.timer - AtLeastZero(sense.dt));
        if counted.timer <= 0.0 then (Begun(counted), NOTHING.(action := ApproachAction(s.def), started := true))
        else (counted, NOTHING)
      case Moving => UpdatedMoving(s, sense)
      case Playing => UpdatedPlaying(s, sense)
  }

  function Triggered(s: Script): (Script, bool) {
    if s.phase.Dormant? then (Begun(s), true) else (s, false)
  }

  // ---- The script as the program holds it ----

  class ScriptRunner {
    const def: Def
    var phase: Phase
    var timer: real
    var completions: nat
    var warped: bool
    var movingElapsed: real

    function Value(): Script
      reads this
    {
      Script(def, phase, timer, completions, warped, movingElapsed)
    }

    constructor (def: Def)
      ensures Value() == Fresh(def)
    {
      this.def := def;
      phase, timer, completions, warped, movingElapsed := Dormant, 0.0, 0, false, 0.0;
    }

    method Restore(phase: Phase, timer: real, completions: nat, warped: bool, movingElapsed: real)
      modifies this
      ensures Value() == Script(def, phase, AtLeastZero(timer), completions, warped, AtLeastZero(movingElapsed))
    {
      this.phase, this.completions, this.warped := phase, completions, warped;
      this.timer := if timer > 0.0 then timer else 0.0;
      this.movingElapsed := if movingElapsed > 0.0 then movingElapsed else 0.0;
    }

    method Trigger() returns (began: bool)
      modifies this
      ensures (Value(), began) == Triggered(old(Value()))
    {
      if phase != Dormant {
        return false;
      }
      Begin();
      began := true;
    }

    method Begin()
      modifies this
      ensures Value() == Begun(old(Value()))
    {
      phase, timer, warped, movingElapsed := Moving, 0.0, false, 0.0;
    }

    method Abandon() returns (step: Step)
      modifies this
      ensures Value() == LetGo(old(Value())) && step == NOTHING.(released := true, interrupted := true)
    {
      phase, timer, warped, movingElapsed := Dormant, 0.0, false, 0.0;
      step := NOTHING.(released := true, interrupted := true);
    }

    method GiveUp() returns (step: Step)
      modifies this
      ensures Value() == LetGo(old(Value())) && step == NOTHING.(released := true, timedOut := true)
    {
      phase, timer, warped, movingElapsed := Dormant, 0.0, false, 0.0;
      step := NOTHING.(released := true, timedOut := true);
    }

    method Update(sense: Sense) returns (step: Step)
      modifies this
      ensures (Value(), step) == Updated(old(Value()), sense)
    {
      var dt := if sense.dt > 0.0 then sense.dt else 0.0;
      if sense.disturbed && phase.IsActive() && !def.noInterruptions {
        step := Abandon();
        return;
      }
      match phase {
        case Dormant => step := NOTHING;
        case Done => step := NOTHING;
        case Repeating =>
          timer := timer - dt;
          if timer <= 0.0 {
            Begin();
            step := NOTHING.(action := ApproachAction(def), started := true);
          } else {
            step := NOTHING;
          }
        case Moving => step := TickMoving(sense, dt);
        case Playing => step := TickPlaying(sense);
      }
    }

    method TickMoving(sense: Sense, dt: real) returns (step: Step)
      requires dt == AtLeastZero(sense.dt)
      modifies this
      ensures (Value(), step) == UpdatedMoving(old(Value()), sense)
    {
      var arrived;
      match def.moveTo {
        case Stay => arrived := true;
        case Walk => arrived := sense.atMark;
        case Run => arrived := sense.atMark;
        case Instantaneous =>
          arrived := warped;
          warped := true;
        case TurnToFace => arrived := sense.facingMark;
      }
      if !arrived {
        movingElapsed := movingElapsed + dt;
        if movingElapsed >= MOVE_TIMEOUT_SECONDS {
          step := GiveUp();
          return;
        }
        return NOTHING.(action := ApproachAction(def));
      }
      phase := Playing;
      step := NOTHING.(action := Play);
    }

    method TickPlaying(sense: Sense) returns (step: Step)
      modifies this
      ensures (Value(), step) == UpdatedPlaying(old(Value()), sense)
    {
      if !sense.sequenceFinished {
        return NOTHING.(action := Play);
      }
      if completions < MAX_COMPLETIONS {
        completions := completions + 1;
      }
      if def.repeatable && def.repeatSeconds > 0.0 {
        phase, timer := Repeating, def.repeatSeconds;
      } else if def.repeatable {
        phase, timer := Dormant, 0.0;
      } else {
        phase, timer := Done, 0.0;
      }
      warped := false;
      step := NOTHING.(released := true, completed := true);
    }
  }

  // ---- What one step says ----

  /** In every state, an action is asked for exactly when the script holds its
      monster afterwards; and letting go has exactly one reason. */
  lemma StepTellsTheTruth(s: Script, sense: Sense)
    ensures var (after, step) := Updated(s, sense);
            && (step.action != NoAction <==> after.phase.IsActive())
            && (step.started <==> !s.phase.IsActive() && after.phase.IsActive())
            && (step.released <==> s.phase.IsActive() && !after.phase.IsActive())
            && (step.released <==> step.completed || step.interrupted || step.timedOut)
            && !(step.completed && step.interrupted) && !(step.completed && step.timedOut)
            && !(step.interrupted && step.timedOut)
            && (step.interrupted ==> sense.disturbed && !s.def.noInterruptions)
            && (step.completed ==> s.phase.Playing? && sense.sequenceFinished)
            && (step.timedOut ==> s.phase.Moving? && !Arrived(s, sense) &&
                                  s.movingElapsed + AtLeastZero(sense.dt) >= 30.0)
  {
  }

  /** While it fetches its monster a script asks for what its map says, and
      while it holds it for its sequence; it asks for nothing else. */
  lemma AsksAsItsMapSays(s: Script, sense: Sense)
    ensures var (after, step) := Updated(s, sense);
            var action, fetching := step.action, after.phase.Moving?;
            && (action.Approach? <==> fetching && (s.def.moveTo.Walk? || s.def.moveTo.Run?))
            && (action.Approach? ==> (action.run <==> s.def.moveTo.Run?))
            && (action.Teleport? <==> fetching && s.def.moveTo.Instantaneous?)
            && (action.Face? <==> fetching && s.def.moveTo.TurnToFace?)
            && (action.Idle? <==> fetching && s.def.moveTo.Stay?)
            && (action.Play? <==> after.phase.Playing?)
  {
  }

  // ---- Runs ----

  datatype Move = Trigger | Update(sense: Sense)

  /** How the possession that is going on, or went on last, began. */
  datatype Start = ByTrigger | ByRepeat

  /** A run so far: the script, how often it took its monster and let it go,
      and for the last possession how it began, how many teleports it asked
      for and how long it has waited for its mark. */
  datatype Log = Log(
    script: Script,
    triggers: nat,
    starts: nat,
    releases: nat,
    completed: nat,
    began: Start,
    teleports: nat,
    waited: real)

  function AfterTrigger(log: Log): Log {
    var (script, began) := Triggered(log.script);
    if began then
      log.(script := script, triggers := log.triggers + 1, began := ByTrigger, teleports := 0, waited := 0.0)
    else log.(script := script)
  }

  function Count(holds: bool): nat {
    if holds then 1 else 0
  }

  function AfterUpdate(log: Log, sense: Sense): Log {
    var (script, step) := Updated(log.script, sense);
    var asked := Count(step.action.Teleport?);
    Log(script, log.triggers, log.starts + Count(step.started), log.releases + Count(step.released),
        log.completed + Count(step.completed),
        if step.started then ByRepeat else log.began,
        if step.started then asked else log.teleports + asked,
        if step.started then 0.0
        else if log.script.phase.Moving? && script.phase.Moving? then log.waited + AtLeastZero(sense.dt)
        else log.waited)
  }

  function RunOf(def: Def, moves: seq<Move>): Log {
    if moves == [] then Log(Fresh(def), 0, 0, 0, 0, ByTrigger, 0, 0.0)
    else
      var n := |moves| - 1;
      var before := RunOf(def, moves[..n]);
      match moves[n]
      case Trigger => AfterTrigger(before)
      case Update(sense) => AfterUpdate(before, sense)
  }

  /** How many teleports a possession asks for before it plays. */
  function TeleportsDue(began: Start): nat {
    match began case ByTrigger => 1 case ByRepeat => 2
  }

  ghost predicate HoldsExactlyOnce(log: Log) {
    log.triggers + log.starts == log.releases + Count(log.script.phase.IsActive())
  }

  ghost predicate WaitsInBounds(log: Log) {
    && (log.script.phase.Moving? ==> log.waited == log.script.movingElapsed < MOVE_TIMEOUT_SECONDS)
    && (log.script.phase.Repeating? ==>
          log.script.def.repeatable && 0.0 < log.script.timer <= log.script.def.repeatSeconds)
    && (!log.script.phase.Repeating? ==> log.script.timer == 0.0)
  }

  ghost predicate CompletesInOrder(log: Log) {
    && log.script.completions == (if log.completed < MAX_COMPLETIONS then log.completed else MAX_COMPLETIONS)
    && log.completed <= log.releases
    && (!log.script.def.repeatable ==>
          log.completed == Count(log.script.phase.Done?) && log.starts == 0)
    && (log.script.def.repeatable ==> !log.script.phase.Done?)
  }

  ghost predicate TeleportsInBounds(log: Log) {
    if !log.script.def.moveTo.Instantaneous? then log.teleports == 0
    else
      && log.teleports <= TeleportsDue(log.began)
      && (log.script.phase.Moving? && !log.script.warped ==> log.teleports == TeleportsDue(log.began) - 1)
      && (log.script.phase.Moving? && log.script.warped ==> log.teleports == TeleportsDue(log.began))
      && (log.script.phase.Playing? ==> log.teleports == TeleportsDue(log.began))
  }

  ghost predicate Inv(log: Log) {
    HoldsExactlyOnce(log) && WaitsInBounds(log) && CompletesInOrder(log) && TeleportsInBounds(log)
  }

  lemma UpdateKeepsHold(log: Log, sense: Sense)
    requires HoldsExactlyOnce(log) && WaitsInBounds(log)
    ensures HoldsExactlyOnce(AfterUpdate(log, sense)) && WaitsInBounds(AfterUpdate(log, sense))
  {
  }

  lemma UpdateKeepsCount(log: Log, sense: Sense)
    requires CompletesInOrder(log) && WaitsInBounds(log)
    ensures CompletesInOrder(AfterUpdate(log, sense))
  {
  }

  lemma UpdateKeepsTeleports(log: Log, sense: Sense)
    requires TeleportsInBounds(log)
    ensures TeleportsInBounds(AfterUpdate(log, sense))
  {
  }

  lemma TriggerKeepsInv(log: Log)
    requires Inv(log)
    ensures Inv(AfterTrigger(log))
  {
  }

  lemma DefStays(log: Log, sense: Sense)
    ensures AfterUpdate(log, sense).script.def == log.script.def && AfterTrigger(log).script.def == log.script.def
  {
  }

  /** In every run of triggers and updates from a fresh script: it is held once
      for every taking not yet let go; it never waits for its mark through the
      whole timeout; a script that does not repeat completes at most once; and
      a possession asks for one teleport after a trigger, two after a repeat. */
  lemma {:induction false} EveryRunKeepsInv(def: Def, moves: seq<Move>)
    ensures Inv(RunOf(def, moves)) && RunOf(def, moves).script.def == def
  {
    hide Inv, AfterUpdate, AfterTrigger;
    if moves == [] {
      FreshInv(def);
    } else {
      var n := |moves| - 1;
      var before := RunOf(def, moves[..n]);
      EveryRunKeepsInv(def, moves[..n]);
      match moves[n]
      case Trigger =>
        TriggerKeepsInv(before);
        DefStays(before, Sense(0.0, false, false, false, false));
      case Update(sense) =>
        UpdateKeepsWholeInv(before, sense);
        DefStays(before, sense);
    }
  }

  lemma FreshInv(def: Def)
    ensures Inv(Log(Fresh(def), 0, 0, 0, 0, ByTrigger, 0, 0.0))
  {
  }

  lemma UpdateKeepsWholeInv(log: Log, sense: Sense)
    requires Inv(log)
    ensures Inv(AfterUpdate(log, sense))
  {
    hide AfterUpdate, HoldsExactlyOnce, WaitsInBounds, CompletesInOrder, TeleportsInBounds;
    UpdateKeepsHold(log, sense);
    UpdateKeepsCount(log, sense);
    UpdateKeepsTeleports(log, sense);
  }

  /** A script that has finished for good never touches its monster again. */
  lemma {:induction false} DoneStaysDone(def: Def, moves: seq<Move>, later: seq<Move>)
    requires RunOf(def, moves).script.phase.Done?
    ensures RunOf(def, moves + later).script.phase.Done?
    ensures RunOf(def, moves + later).triggers == RunOf(def, moves).triggers
    ensures RunOf(def, moves + later).releases == RunOf(def, moves).releases
  {
    if later == [] {
      assert moves + later == moves;
    } else {
      var n := |later| - 1;
      DoneStaysDone(def, moves, later[..n]);
      assert (moves + later)[..|moves + later| - 1] == moves + later[..n];
    }
  }

  /** The second teleport after a repeat is real: a run that asks for it. */
  lemma RepeatTeleportsTwice()
    ensures exists def: Def, moves: seq<Move> ::
              RunOf(def, moves).began.ByRepeat? && RunOf(def, moves).teleports == 2
  {
    hide RunOf;
    var def := Def(Instantaneous, false, true, 1.0);
    var sense := Sense(1.0, true, true, true, false);
    var tick := Update(sense);
    var moves: seq<Move> := [];
    var log := OneMoreMove(def, moves, Trigger);
    moves := moves + [Trigger];
    log := OneMoreMove(def, moves, tick);
    assert log.script.phase.Moving? && log.script.warped;
    moves := moves + [tick];
    log := OneMoreMove(def, moves, tick);
    assert log.script.phase.Playing?;
    moves := moves + [tick];
    log := OneMoreMove(def, moves, tick);
    assert log.script.phase.Repeating? && log.script.timer == 1.0;
    moves := moves + [tick];
    log := OneMoreMove(def, moves, tick);
    assert log.began.ByRepeat? && log.teleports == 1;
    moves := moves + [tick];
    log := OneMoreMove(def, moves, tick);
  }

  lemma OneMoreMove(def: Def, moves: seq<Move>, move: Move) returns (log: Log)
    ensures log == RunOf(def, moves + [move])
    ensures log == match move
                   case Trigger => AfterTrigger(RunOf(def, moves))
                   case Update(sense) => AfterUpdate(RunOf(def, moves), sense)
    ensures moves == [] ==> RunOf(def, moves) == Log(Fresh(def), 0, 0, 0, 0, ByTrigger, 0, 0.0)
  {
    assert (moves + [move])[..|moves|] == moves;
    log := RunOf(def, moves + [move]);
  }
}

/** What the prisoner flag promises: in every tick of every run a prisoner
    fights nobody, and nobody but its own victims fights it. */
module Prisoners {
  import opened Wrappers
  import opened Geometry
  import opened MonsterStates
  import opened Schedules
  import opened Senses
  import opened AiTick
  import Brains
  import Pcg32
  import Squads

  // ---- One monster's events ----

  /** What a monster added to the events is its own and no attack. */
  ghost predicate Quiet(entity: Entity, before: seq<AiEvent>, after: seq<AiEvent>) {
    before <= after &&
    forall i | |before| <= i < |after| :: after[i].entity == entity && !after[i].kind.Attack?
  }

  lemma QuietThenQuiet(entity: Entity, a: seq<AiEvent>, b: seq<AiEvent>, c: seq<AiEvent>)
    requires Quiet(entity, a, b) && Quiet(entity, b, c)
    ensures Quiet(entity, a, c)
  {
    forall i | |a| <= i < |c| ensures c[i].entity == entity && !c[i].kind.Attack? {
      if i < |b| {
        assert c[i] == b[i];
      }
    }
  }

  lemma OneMoreIsQuiet(entity: Entity, events: seq<AiEvent>, kind: EventKind)
    requires !kind.Attack?
    ensures Quiet(entity, events, events + [AiEvent(entity, kind)])
    ensures Quiet(entity, events, events)
  {
  }

  // ---- Tasks that are no attack ----

  /** What such a task may do to a monster, besides setting its state. */
  ghost predicate Calm(entity: Entity, b: Body, after: Body) {
    && (after.ai.memory == b.ai.memory || after.ai.memory == None)
    && after.ai.runner == b.ai.runner && after.ai.pending == b.ai.pending && after.ai.brain == b.ai.brain
    && Quiet(entity, b.events, after.events)
  }

  lemma EmitIsCalm(entity: Entity, b: Body, changed: Body, kind: EventKind)
    requires Calm(entity, b, changed) && changed.events == b.events && !kind.Attack?
    ensures Calm(entity, b, Emit(entity, changed, kind)) && Emit(entity, changed, kind).ai == changed.ai
  {
    OneMoreIsQuiet(entity, b.events, kind);
  }

  lemma FacingIsCalm(stage: Stage, b: Body, target: Option<Vec3>)
    ensures Calm(stage.entity, b, StartFacing(stage, b, target).0) && Calm(stage.entity, b, Turn(stage, b).0)
    ensures StartFacing(stage, b, target).0.ai.state == Turn(stage, b).0.ai.state == b.ai.state
  {
  }

  lemma MovingIsCalm(stage: Stage, b: Body, goal: Option<Vec3>, x: real)
    ensures Calm(stage.entity, b, StartRoute(stage, b, goal, x).0)
    ensures Calm(stage.entity, b, FindCoverFrom(stage, b, goal).0)
    ensures Calm(stage.entity, b, WanderOff(stage, b, x).0)
    ensures Calm(stage.entity, b, SetPathSpeed(b, x).0)
    ensures StartRoute(stage, b, goal, x).0.ai.state == FindCoverFrom(stage, b, goal).0.ai.state == b.ai.state
    ensures WanderOff(stage, b, x).0.ai.state == SetPathSpeed(b, x).0.ai.state == b.ai.state
  {
    hide WanderYaw;
  }

  lemma SoundIsCalm(stage: Stage, b: Body, kind: SoundKind, radius: real)
    ensures var after := BeginTask(stage, b, EmitSound(kind, radius)).0;
            Calm(stage.entity, b, after) && after.ai.state == b.ai.state
  {
    hide Pushed, Emit;
    var sound := SoundEvent(kind, b.actor.origin, radius, Some(stage.entity), 0.1);
    EmitIsCalm(stage.entity, b, b.(sounds := Pushed(b.sounds, sound)), SoundEmitted(kind));
  }

  lemma NothingIsCalm(entity: Entity, b: Body)
    ensures Calm(entity, b, b)
  {
  }

  predicate Reports(task: Task) {
    task.PlaySequence? || task.SetActivity? || task.Reload? || task.SetState? || task.Die? || task.ClearEnemy?
  }

  /** The state a task leaves a monster in. */
  function StateAfter(task: Task, state: MonsterState): MonsterState {
    if task.SetState? then task.state else state
  }

  /** The tasks that only report, or change a monster's own state. */
  lemma ReportIsCalm(stage: Stage, b: Body, task: Task)
    requires Reports(task)
    ensures var after := BeginTask(stage, b, task).0;
            Calm(stage.entity, b, after) && after.ai.state == StateAfter(task, b.ai.state)
  {
    hide Emit;
    NothingIsCalm(stage.entity, b);
    match task
    case PlaySequence(name) => EmitIsCalm(stage.entity, b, b, SequencePlayed(name));
    case SetActivity(activity) =>
      EmitIsCalm(stage.entity, b, b.(ai := b.ai.(activity := activity)), ActivityChanged(activity));
    case Reload => EmitIsCalm(stage.entity, b, b, Reloaded);
    case SetState(state) =>
      EmitIsCalm(stage.entity, b, b.(ai := b.ai.(state := state)), StateChanged(b.ai.state, state));
    case Die =>
      var dead := b.(actor := b.actor.(alive := false, health := 0.0), ai := b.ai.(moveSpeed := 0.0));
      EmitIsCalm(stage.entity, b, dead, Died);
    case ClearEnemy => EmitIsCalm(stage.entity, b, b.(ai := b.ai.(memory := None)), EnemyLost);
  }

  /** No task but an attack reports an attack; none gives an enemy; and none but
      the setting of a state changes the state. */
  lemma BeginIsCalm(stage: Stage, b: Body, task: Task)
    requires !task.Attacks()
    ensures var after := BeginTask(stage, b, task).0;
            Calm(stage.entity, b, after) && after.ai.state == StateAfter(task, b.ai.state)
  {
    hide StartFacing, Turn, StartRoute, FindCoverFrom, WanderOff, SetPathSpeed, Emit, Pushed, Quiet;
    NothingIsCalm(stage.entity, b);
    match task
    case FaceEnemy => FacingIsCalm(stage, b, Or(stage.enemyPosition, stage.lastKnown));
    case FaceTarget => FacingIsCalm(stage, b, b.ai.moveTarget);
    case FaceLastKnownPosition => FacingIsCalm(stage, b, Or(stage.lastKnown, b.ai.moveTarget));
    case MoveToEnemy(within) => MovingIsCalm(stage, b, Or(stage.enemyPosition, stage.lastKnown), within);
    case MoveToTarget(within) => MovingIsCalm(stage, b, b.ai.moveTarget, within);
    case MoveToLastKnownPosition => MovingIsCalm(stage, b, stage.lastKnown, 0.0);
    case RunPath => MovingIsCalm(stage, b, None, stage.brain.runSpeed);
    case WalkPath => MovingIsCalm(stage, b, None, stage.brain.walkSpeed);
    case FindCover => MovingIsCalm(stage, b, Or(Or(stage.enemyPosition, stage.lastKnown), b.ai.moveTarget), 0.0);
    case TakeCover => MovingIsCalm(stage, b, b.ai.cover, 0.0);
    case EmitSound(kind, radius) => SoundIsCalm(stage, b, kind, radius);
    case Wander(distance) => MovingIsCalm(stage, b, None, distance);
    case _ =>
      if Reports(task) {
        ReportIsCalm(stage, b, task);
      }
  }

  lemma ResumeIsCalm(stage: Stage, b: Body, task: Task)
    ensures var after := ResumeTask(stage, b, task).0;
            Calm(stage.entity, b, after) && after.ai.state == b.ai.state
  {
    hide Turn;
    NothingIsCalm(stage.entity, b);
    FacingIsCalm(stage, b, None);
  }

  // ---- Runners of published schedules ----

  ghost predicate PublishedRunner(r: Runner) {
    r.schedule.Some? ==> Brains.IsPublished(r.schedule.value)
  }

  predicate AttackingRunner(r: Runner) {
    r.schedule.Some? && Brains.Attacking(r.schedule.value)
  }

  /** The runner's current task is about to be begun, and is of a kind. */
  predicate StrikesNow(r: Runner) {
    r.schedule.Some? && r.taskIndex < |r.schedule.value.tasks| && !r.started && Current(r).Attacks()
  }

  predicate SetsStateNow(r: Runner) {
    r.schedule.Some? && r.taskIndex < |r.schedule.value.tasks| && !r.started && Current(r).SetState?
  }

  lemma PeacefulNeverStrikes(r: Runner)
    requires !AttackingRunner(r)
    ensures !StrikesNow(r)
  {
    if r.schedule.Some? && r.taskIndex < |r.schedule.value.tasks| {
      assert Current(r) in r.schedule.value.tasks;
    }
  }

  /** A published schedule begins neither with an attack nor by setting a state. */
  lemma FirstTaskIsHarmless(which: Brains.Listed)
    ensures !StrikesNow(Begun(Brains.Published(which))) && !SetsStateNow(Begun(Brains.Published(which)))
  {
    hide Brains.NameOf, Brains.MaskOf;
  }

  /** Only one published schedule sets a state: death, uninterrupted; and it
      attacks nobody. */
  lemma SettingIsDying(r: Runner)
    requires PublishedRunner(r) && SetsStateNow(r)
    ensures Current(r).state.Dead? && !AttackingRunner(r)
    ensures forall conditions: Conditions :: !Interrupts(r.schedule.value, conditions)
  {
    hide Brains.Published, Brains.Attacking;
    var which: Brains.Listed :| r.schedule.value == Brains.Published(which);
    SetterIsDieDown(which, r.taskIndex);
    NothingInterruptsDying();
    Brains.ListedAttack(which);
  }

  lemma SetterIsDieDown(which: Brains.Listed, i: nat)
    requires i < |Brains.Published(which).tasks| && Brains.Published(which).tasks[i].SetState?
    ensures which.DieDown? && Brains.Published(which).tasks[i].state.Dead?
  {
    hide Brains.NameOf, Brains.MaskOf;
  }

  lemma NothingInterruptsDying()
    ensures Brains.Published(Brains.DieDown).interruptMask == {}
  {
    hide Brains.NameOf, Brains.TasksOf;
  }

  // ---- What a prisoner senses ----

  lemma {:induction false} InReachIsVisible(brain: Brains.Brain, origin: Vec3, visible: seq<Sighting>, s: Sighting)
    requires s in InReach(brain, origin, visible)
    ensures s in visible
  {
    var n := |visible| - 1;
    assert visible == visible[..n] + [visible[n]];
    if s in InReach(brain, origin, visible[..n]) {
      InReachIsVisible(brain, origin, visible[..n], s);
    }
  }

  /** The enemy a monster chooses is one that it sees. */
  lemma ChosenIsVisible(brain: Brains.Brain, origin: Vec3, look: LookResult)
    requires look.enemy == SelectEnemy(look.visible)
    ensures var enemy := ChosenEnemy(brain, origin, look);
            enemy.Some? ==> enemy.value in look.visible && IsPossibleEnemy(enemy.value)
  {
    var near := SelectEnemy(InReach(brain, origin, look.visible));
    if near.Some? {
      InReachIsVisible(brain, origin, look.visible, near.value);
    }
  }

  lemma PrisonerChoosesNobody(
      space: Space, viewer: Viewer, brain: Brains.Brain, table: RelationshipTable, candidates: seq<Seeable>,
      origin: Vec3)
    requires viewer.prisoner
    ensures var look := Looked(space, viewer, brain.senses, table, candidates);
            ChosenEnemy(brain, origin, look) == None && SeeEnemy !in look.conditions
  {
    hide Visible, Noticed, ChosenEnemy, IsPossibleEnemy;
    var look := Looked(space, viewer, brain.senses, table, candidates);
    ChosenIsVisible(brain, origin, look);
    SeeEnemyIffChosen(space, viewer, brain.senses, table, candidates);
    forall s | s in look.visible ensures !IsPossibleEnemy(s) {
      if IsPossibleEnemy(s) {
        SightSparesPrisoners(space, viewer, brain.senses, table, candidates, s);
      }
    }
  }

  /** A prisoner's mind once it has sensed: no enemy, and no attack under way. */
  ghost predicate Harmless(entity: Entity, brain: nat, before: seq<AiEvent>, m: Mind) {
    && m.ai.brain == brain && m.ai.memory == None && m.ai.pending == {}
    && PublishedRunner(m.ai.runner) && !AttackingRunner(m.ai.runner) && Quiet(entity, before, m.events)
  }

  lemma WakesHarmless(entity: Entity, actor: Actor, ai: MonsterAi, events: seq<AiEvent>)
    requires PublishedRunner(ai.runner)
    ensures var m := Disarmed(entity, true, Woken(entity, actor, ai, events));
            && Harmless(entity, ai.brain, events, m) && m.conditions == ai.pending
            && m.ai.state == (if actor.alive && actor.health > 0.0 then ai.state else Dead)
            && m.ai.runner == if AttackingRunner(ai.runner) then CLEARED else ai.runner
  {
    hide Brains.Attacking, Brains.IsPublished;
    var woken := Woken(entity, actor, ai, events);
    assert Quiet(entity, events, woken.events);
    var disarmed := Disarmed(entity, true, woken);
    assert Quiet(entity, woken.events, disarmed.events);
    QuietThenQuiet(entity, events, woken.events, disarmed.events);
  }

  /** The conditions that only an enemy, or something from outside, gives. */
  const FROM_OUTSIDE: Conditions := {SeeEnemy, NoAmmoLoaded, CanMeleeAttack1, CanRangeAttack1}

  lemma SensesHarmless(
      space: Space, sim: Sim, entity: Entity, slots: Slots, brain: Brains.Brain, candidates: seq<Seeable>,
      known: map<Entity, Seeable>, events: seq<AiEvent>, dt: real)
    requires slots.Thinks() && slots.prisoner && PublishedRunner(slots.ai.value.runner)
    ensures var (m, squads) := Sensed(space, sim, entity, slots, brain, candidates, known, events, dt);
            && squads == sim.squads && Harmless(entity, slots.ai.value.brain, events, m)
            && m.ai.state == (if slots.actor.value.alive && slots.actor.value.health > 0.0 then slots.ai.value.state
                              else Dead)
            && m.ai.runner == (if AttackingRunner(slots.ai.value.runner) then CLEARED else slots.ai.value.runner)
  {
    hide Looked, Listened, ChosenEnemy, Woken, Disarmed, PublishedRunner, AttackingRunner, Quiet, SeesEnemyNow;
    WakesHarmless(entity, slots.actor.value, slots.ai.value, events);
    var m := Disarmed(entity, true, Woken(entity, slots.actor.value, slots.ai.value, events));
    var viewer := ViewerOf(space, entity, m.actor, true);
    PrisonerChoosesNobody(space, viewer, brain, sim.relationships, candidates, m.actor.origin);
  }

  /** What a prisoner knows of an enemy, of ammunition and of reach is exactly
      what its pending conditions said. */
  lemma PrisonerConditions(
      space: Space, sim: Sim, entity: Entity, slots: Slots, brain: Brains.Brain, candidates: seq<Seeable>,
      known: map<Entity, Seeable>, events: seq<AiEvent>, dt: real)
    requires slots.Thinks() && slots.prisoner && PublishedRunner(slots.ai.value.runner)
    ensures Sensed(space, sim, entity, slots, brain, candidates, known, events, dt).0.conditions * FROM_OUTSIDE
            == slots.ai.value.pending * FROM_OUTSIDE
  {
    hide Looked, Listened, ChosenEnemy, Woken, Disarmed, PublishedRunner, AttackingRunner, Quiet, SeesEnemyNow;
    WakesHarmless(entity, slots.actor.value, slots.ai.value, events);
    var m := Disarmed(entity, true, Woken(entity, slots.actor.value, slots.ai.value, events));
    var viewer := ViewerOf(space, entity, m.actor, true);
    PrisonerChoosesNobody(space, viewer, brain, sim.relationships, candidates, m.actor.origin);
    LookOnlySees(space, viewer, brain.senses, sim.relationships, candidates);
    BestIsHeard(space, viewer.Eye(), brain.senses, sim.sounds);
  }

  lemma LookOnlySees(
      space: Space, viewer: Viewer, senses: Senses, table: RelationshipTable, candidates: seq<Seeable>)
    ensures Looked(space, viewer, senses, table, candidates).conditions <= ALL_SIGHT
  {
    hide Visible, SelectEnemy;
    OnlySightConditions(space, viewer, senses, table, candidates);
  }

  // ---- A prisoner's tick ----

  lemma MovedKeeps(space: Space, actor: Actor, ai: MonsterAi, dt: real)
    ensures var after := Moved(space, actor, ai, dt).1;
            && after.memory == ai.memory && after.state == ai.state && after.runner == ai.runner
            && after.conditions == ai.conditions && after.pending <= ai.pending + {Blocked} && after.brain == ai.brain
  {
    hide Recorded;
  }

  /** A prisoner's mind once it has a schedule to run. */
  ghost predicate Scheduling(
      entity: Entity, brain: nat, before: seq<AiEvent>, hasRange: bool, m: Mind, next: Mind)
  {
    && next.ai.brain == brain && next.ai.memory == None && next.ai.pending == {}
    && next.conditions == m.conditions && next.ai.state == Brains.DefaultNextState(m.ai.state, m.conditions)
    && PublishedRunner(next.ai.runner) && !StrikesNow(next.ai.runner) && Quiet(entity, before, next.events)
    && (if m.ai.runner.schedule.Some? then next.ai.runner == m.ai.runner
        else
          && next.ai.runner == Begun(Brains.SelectSchedule(hasRange, next.ai.state, m.conditions))
          && !SetsStateNow(next.ai.runner))
  }

  lemma DecidesPeace(
      entity: Entity, id: nat, before: seq<AiEvent>, senses: Senses, hasRange: bool, m: Mind)
    requires Harmless(entity, id, before, m)
    ensures var brain := Brains.DefaultBrain(senses, hasRange);
            && Scheduling(entity, id, before, hasRange, m, Scheduled(entity, brain, Decided(entity, brain, m)))
            && Decided(entity, brain, m).ai.memory == None
  {
    hide Brains.DefaultNextState, Brains.Published, StrikesNow, SetsStateNow, AttackingRunner;
    var brain := Brains.DefaultBrain(senses, hasRange);
    var decided := Decided(entity, brain, m);
    QuietThenQuiet(entity, before, m.events, decided.events);
    PeacefulNeverStrikes(m.ai.runner);
    FirstTaskIsHarmless(Brains.Select(hasRange, decided.ai.state, decided.conditions));
    var scheduled := Scheduled(entity, brain, decided);
    QuietThenQuiet(entity, before, decided.events, scheduled.events);
  }

  /** Whatever its task does short of striking, the task's tick stays calm; and
      it sets a state only when it says so. */
  lemma AnswersCalmly(stage: Stage, runner: Runner, conditions: Conditions, b: Body)
    requires !StrikesNow(runner)
    ensures var after := Answered(runner, stage.dt, conditions, ExecutorOf(stage), b).0;
            && Calm(stage.entity, b, after)
            && after.ai.state == if SetsStateNow(runner) && !Interrupts(runner.schedule.value, conditions)
                                 then Current(runner).state else b.ai.state
  {
    hide BeginTask, ResumeTask, Calm, Interrupts;
    NothingIsCalm(stage.entity, b);
    if Runs(runner, conditions) {
      ResumeIsCalm(stage, b, Current(runner));
      if !runner.started {
        BeginIsCalm(stage, b, Current(runner));
      }
    }
  }

  lemma TickKeepsSchedule(r: Runner, dt: real, conditions: Conditions, g: Pcg32.Generator, answer: TaskStatus)
    requires r.schedule.Some?
    ensures var t := Tick(r, dt, conditions, g, answer);
            (t.outcome.NeedsNewSchedule() ==> t.runner == CLEARED) &&
            (!t.outcome.NeedsNewSchedule() ==> t.runner.schedule == r.schedule)
  {
    hide Counted;
  }

  lemma ReplacesPeacefully(
      entity: Entity, senses: Senses, hasRange: bool, name: string, outcome: RunOutcome,
      conditions: Conditions, b: Body)
    ensures var after := Replaced(entity, Brains.DefaultBrain(senses, hasRange), name, outcome, conditions, b);
            && after.ai == (if outcome.NeedsNewSchedule()
                            then b.ai.(runner := Begun(Brains.SelectSchedule(hasRange, b.ai.state,
                                                                             conditions + outcome.Adds())))
                            else b.ai)
            && Quiet(entity, b.events, after.events)
  {
    hide Brains.SelectSchedule;
  }

  /** How the tick of the runner ends that a mind brings to it. */
  function OutcomeOf(stage: Stage, m: Mind, sounds: seq<SoundEvent>, rng: Pcg32.Generator): RunOutcome {
    var b := Body(m.actor, m.ai, sounds, m.events);
    var answer := Answered(m.ai.runner, stage.dt, m.conditions, ExecutorOf(stage), b).1;
    Tick(m.ai.runner, stage.dt, m.conditions, rng, answer).outcome
  }

  /** What a prisoner has become when its schedule has been run. */
  ghost predicate HasActed(
      entity: Entity, id: nat, before: seq<AiEvent>, hasRange: bool, m: Mind, outcome: RunOutcome, after: Body)
  {
    && after.ai.brain == id && after.ai.memory == None && after.ai.pending == {}
    && PublishedRunner(after.ai.runner) && Quiet(entity, before, after.events)
    && after.ai.state == (if SetsStateNow(m.ai.runner) then Dead else m.ai.state)
    && (if outcome.NeedsNewSchedule()
        then after.ai.runner
             == Begun(Brains.SelectSchedule(hasRange, after.ai.state, m.conditions + outcome.Adds()))
        else after.ai.runner.schedule == m.ai.runner.schedule)
  }

  lemma ActsPeacefully(
      stage: Stage, senses: Senses, hasRange: bool, m: Mind, sounds: seq<SoundEvent>, rng: Pcg32.Generator,
      id: nat, before: seq<AiEvent>)
    requires stage.brain == Brains.DefaultBrain(senses, hasRange)
    requires m.ai.brain == id && m.ai.memory == None && m.ai.pending == {} && m.ai.runner.schedule.Some?
    requires PublishedRunner(m.ai.runner) && !StrikesNow(m.ai.runner) && Quiet(stage.entity, before, m.events)
    ensures HasActed(stage.entity, id, before, hasRange, m, OutcomeOf(stage, m, sounds, rng),
                     Acted(stage, m, sounds, rng).0)
  {
    hide Answered, Tick, Replaced, Brains.DefaultBrain, Brains.Published, ExecutorOf, Quiet, StrikesNow, SetsStateNow;
    var runner, b := m.ai.runner, Body(m.actor, m.ai, sounds, m.events);
    AnswersCalmly(stage, runner, m.conditions, b);
    var (body, answer) := Answered(runner, stage.dt, m.conditions, ExecutorOf(stage), b);
    if SetsStateNow(runner) {
      SettingIsDying(runner);
    }
    TickKeepsSchedule(runner, stage.dt, m.conditions, rng, answer);
    var ticked := Tick(runner, stage.dt, m.conditions, rng, answer);
    var between := body.(ai := body.ai.(runner := ticked.runner));
    ReplacesPeacefully(
      stage.entity, senses, hasRange, runner.schedule.value.name, ticked.outcome, m.conditions, between);
    QuietThenQuiet(stage.entity, before, m.events, between.events);
    QuietThenQuiet(stage.entity, before, between.events, Acted(stage, m, sounds, rng).0.events);
  }

  /** What a prisoner keeps in every tick, whatever it was restored with. */
  ghost predicate Disarms(slots: Slots, after: Slots) {
    && after.Thinks() && after.prisoner && after.held == slots.held && slots.ai.Some?
    && after.ai.value.brain == slots.ai.value.brain && after.ai.value.memory == None
    && after.ai.value.pending <= {Blocked} && PublishedRunner(after.ai.value.runner)
  }

  /** The conditions under which the default brain chooses an attack. */
  predicate WantsAttack(hasRange: bool, conditions: Conditions) {
    && HearDanger !in conditions && SeeFear !in conditions && NoAmmoLoaded !in conditions
    && (CanMeleeAttack1 in conditions || (hasRange && CanRangeAttack1 in conditions))
  }

  /** What of that a prisoner can only be told from outside. */
  predicate ToldToAttack(hasRange: bool, pending: Conditions) {
    NoAmmoLoaded !in pending && (CanMeleeAttack1 in pending || (hasRange && CanRangeAttack1 in pending))
  }

  /** Whether a prisoner that no script holds fights, and whether it is left
      with an attacking schedule, told exactly from what it brings to the tick:
      its health, state and pending conditions, what it senses, and whether it
      needs a new schedule. */
  ghost predicate FightsExactlyWhenTold(
      slots: Slots, hasRange: bool, sensed: Conditions, outcome: RunOutcome, after: Slots)
    requires slots.Thinks() && after.Thinks()
  {
    var actor, ai := slots.actor.value, slots.ai.value;
    && (after.ai.value.state.Combat? <==>
          SeeEnemy in ai.pending && actor.alive && actor.health > 0.0 &&
          !ai.state.Dead? && !ai.state.Script? && !ai.state.PlayDead? && !SetsStateNow(ai.runner))
    && (AttackingRunner(after.ai.value.runner) <==>
          after.ai.value.state.Combat? && ToldToAttack(hasRange, ai.pending) &&
          HearDanger !in sensed && SeeFear !in sensed &&
          (ai.runner.schedule.None? || AttackingRunner(ai.runner) || outcome.NeedsNewSchedule()))
  }

  lemma SelectsAttackIff(hasRange: bool, state: MonsterState, conditions: Conditions, more: Conditions)
    requires more <= {ScheduleDone, TaskFailed}
    ensures AttackingRunner(Begun(Brains.SelectSchedule(hasRange, state, conditions + more)))
            <==> state.Combat? && WantsAttack(hasRange, conditions)
  {
    hide Brains.SelectSchedule, Brains.Attacking;
    Brains.AttackingIffChosen(hasRange, state, conditions + more);
  }

  /** Once it has sensed, how a prisoner's tick ends. */
  lemma ThinksInPeace(
      space: Space, sim: Sim, entity: Entity, slots: Slots, senses: Senses, hasRange: bool,
      known: map<Entity, Seeable>, m: Mind, id: nat, events: seq<AiEvent>, dt: real)
    returns (outcome: RunOutcome)
    requires Harmless(entity, id, events, m) && slots.prisoner && slots.ai.Some? && slots.ai.value.brain == id
    ensures var brain := Brains.DefaultBrain(senses, hasRange);
            var stage := StageOf(space, entity, brain, known, Decided(entity, brain, m), dt, sim.tickCount);
            var scheduled := Scheduled(entity, brain, Decided(entity, brain, m));
            var after := Thought(space, sim, entity, slots, brain, known, m, dt);
            && outcome == OutcomeOf(stage, scheduled, sim.sounds, sim.rng)
            && Disarms(slots, after.slots) && Quiet(entity, events, after.events) && after.sim.squads == sim.squads
            && (after.slots.ai.value.state.Combat? <==>
                  Brains.DefaultNextState(m.ai.state, m.conditions).Combat? && !SetsStateNow(m.ai.runner))
            && (AttackingRunner(after.slots.ai.value.runner) <==>
                  after.slots.ai.value.state.Combat? && WantsAttack(hasRange, m.conditions) &&
                  (m.ai.runner.schedule.None? || outcome.NeedsNewSchedule()))
  {
    hide Decided, Scheduled, Acted, Moved, Quiet, StageOf, Brains.DefaultBrain, Brains.DefaultNextState, OutcomeOf;
    hide Brains.SelectSchedule, AttackingRunner, PublishedRunner, WantsAttack, SetsStateNow, StrikesNow;
    var brain := Brains.DefaultBrain(senses, hasRange);
    DecidesPeace(entity, id, events, senses, hasRange, m);
    var decided := Decided(entity, brain, m);
    var stage := StageOf(space, entity, brain, known, decided, dt, sim.tickCount);
    StageIs(space, entity, brain, known, decided, dt, sim.tickCount);
    var scheduled := Scheduled(entity, brain, decided);
    ActsPeacefully(stage, senses, hasRange, scheduled, sim.sounds, sim.rng, id, events);
    outcome := OutcomeOf(stage, scheduled, sim.sounds, sim.rng);
    var body := Acted(stage, scheduled, sim.sounds, sim.rng).0;
    MovedKeeps(space, body.actor, body.ai, dt);
    NoScheduleSetsNothing(m.ai.runner);
    SelectsAttackIff(hasRange, body.ai.state, m.conditions, outcome.Adds());
    SelectsAttackIff(hasRange, scheduled.ai.state, m.conditions, {});
    assert m.conditions + {} == m.conditions;
    SameScheduleAttacks(scheduled.ai.runner, body.ai.runner);
  }

  lemma NoScheduleSetsNothing(r: Runner)
    ensures r.schedule.None? ==> !SetsStateNow(r) && !AttackingRunner(r)
  {
  }

  lemma SameScheduleAttacks(r: Runner, other: Runner)
    ensures r.schedule == other.schedule ==> (AttackingRunner(r) <==> AttackingRunner(other))
  {
  }

  lemma HeldInPeace(
      space: Space, sim: Sim, entity: Entity, slots: Slots, m: Mind, id: nat, events: seq<AiEvent>, dt: real)
    requires Harmless(entity, id, events, m) && slots.held && slots.prisoner && slots.ai.Some?
    requires slots.ai.value.brain == id
    ensures var after := HeldStill(space, sim, slots, m, dt);
            && Disarms(slots, after.slots) && Quiet(entity, events, after.events) && after.sim.squads == sim.squads
            && after.slots.ai.value.runner == CLEARED && after.slots.ai.value.state == m.ai.state
  {
    hide Moved, Quiet, Brains.IsPublished;
    MovedKeeps(space, m.actor, m.ai.(runner := CLEARED), dt);
  }

  lemma TickIsThoughtOrHold(
      space: Space, sim: Sim, entity: Entity, slots: Slots, candidates: seq<Seeable>, known: map<Entity, Seeable>,
      events: seq<AiEvent>, dt: real)
    requires slots.Thinks() && slots.ai.value.brain < |sim.brains|
    ensures var brain := sim.brains[slots.ai.value.brain];
            var (m, squads) := Sensed(space, sim, entity, slots, brain, candidates, known, events, dt);
            TickedOne(space, sim, entity, slots, candidates, known, events, dt) ==
            if slots.held then HeldStill(space, sim.(squads := squads), slots, m, dt)
            else Thought(space, sim.(squads := squads), entity, slots, brain, known, m, dt)
  {
    hide Sensed, Thought, HeldStill;
  }

  /** In its tick a prisoner with a default brain and a published schedule or
      none, whatever its pending conditions and its memory, ends without an
      enemy and reports no attack. */
  lemma PrisonerTick(
      space: Space, sim: Sim, entity: Entity, slots: Slots, candidates: seq<Seeable>, known: map<Entity, Seeable>,
      events: seq<AiEvent>, dt: real)
    requires slots.Thinks() && slots.prisoner && PublishedRunner(slots.ai.value.runner)
    requires slots.ai.value.brain < |sim.brains| && Brains.IsDefault(sim.brains[slots.ai.value.brain])
    ensures var after := TickedOne(space, sim, entity, slots, candidates, known, events, dt);
            Disarms(slots, after.slots) && Quiet(entity, events, after.events) && after.sim.squads == sim.squads
  {
    hide Sensed, Thought, HeldStill, TickedOne, Quiet, Harmless, Brains.DefaultBrain, Disarms;
    var brain := sim.brains[slots.ai.value.brain];
    var senses: Senses, hasRange: bool :| brain == Brains.DefaultBrain(senses, hasRange);
    var sensed := Sensed(space, sim, entity, slots, brain, candidates, known, events, dt);
    SensesHarmless(space, sim, entity, slots, brain, candidates, known, events, dt);
    TickIsThoughtOrHold(space, sim, entity, slots, candidates, known, events, dt);
    if slots.held {
      HeldInPeace(space, sim, entity, slots, sensed.0, slots.ai.value.brain, events, dt);
    } else {
      var outcome := ThinksInPeace(
        space, sim, entity, slots, senses, hasRange, known, sensed.0, slots.ai.value.brain, events, dt);
    }
  }

  /** What the runner of a monster that is not held makes of its tick. */
  function RunnerOutcome(
      space: Space, sim: Sim, entity: Entity, slots: Slots, brain: Brains.Brain, candidates: seq<Seeable>,
      known: map<Entity, Seeable>, events: seq<AiEvent>, dt: real): RunOutcome
    requires slots.Thinks()
  {
    var m := Sensed(space, sim, entity, slots, brain, candidates, known, events, dt).0;
    var decided := Decided(entity, brain, m);
    OutcomeOf(StageOf(space, entity, brain, known, decided, dt, sim.tickCount), Scheduled(entity, brain, decided),
              sim.sounds, sim.rng)
  }

  /** A prisoner that no script holds ends in combat, and with an attacking
      schedule, exactly when it was told to from outside. */
  lemma PrisonerFightsIffTold(
      space: Space, sim: Sim, entity: Entity, slots: Slots, senses: Senses, hasRange: bool, candidates: seq<Seeable>,
      known: map<Entity, Seeable>, events: seq<AiEvent>, dt: real)
    requires slots.Thinks() && slots.prisoner && !slots.held && PublishedRunner(slots.ai.value.runner)
    requires slots.ai.value.brain < |sim.brains|
    requires sim.brains[slots.ai.value.brain] == Brains.DefaultBrain(senses, hasRange)
    ensures var brain := sim.brains[slots.ai.value.brain];
            var after := TickedOne(space, sim, entity, slots, candidates, known, events, dt);
            && after.slots.Thinks()
            && FightsExactlyWhenTold(
                 slots, hasRange, Sensed(space, sim, entity, slots, brain, candidates, known, events, dt).0.conditions,
                 RunnerOutcome(space, sim, entity, slots, brain, candidates, known, events, dt), after.slots)
  {
    hide Sensed, Thought, HeldStill, TickedOne, Quiet, Harmless, Brains.DefaultBrain, OutcomeOf, StageOf;
    hide Brains.DefaultNextState, SetsStateNow, AttackingRunner, WantsAttack, ToldToAttack, PublishedRunner;
    hide Decided, Scheduled;
    var brain, ai := sim.brains[slots.ai.value.brain], slots.ai.value;
    var (m, squads) := Sensed(space, sim, entity, slots, brain, candidates, known, events, dt);
    SensesHarmless(space, sim, entity, slots, brain, candidates, known, events, dt);
    PrisonerConditions(space, sim, entity, slots, brain, candidates, known, events, dt);
    TickIsThoughtOrHold(space, sim, entity, slots, candidates, known, events, dt);
    var outcome := ThinksInPeace(
      space, sim.(squads := squads), entity, slots, senses, hasRange, known, m, ai.brain, events, dt);
    Brains.CombatNeedsASighting(m.ai.state, m.conditions);
    ToldFromOutside(hasRange, m.conditions, ai.pending);
    AttackersSetNothing(ai.runner);
    NoScheduleSetsNothing(ai.runner);
  }

  lemma ToldFromOutside(hasRange: bool, sensed: Conditions, pending: Conditions)
    requires sensed * FROM_OUTSIDE == pending * FROM_OUTSIDE
    ensures SeeEnemy in sensed <==> SeeEnemy in pending
    ensures WantsAttack(hasRange, sensed) <==>
              ToldToAttack(hasRange, pending) && HearDanger !in sensed && SeeFear !in sensed
  {
    forall c | c in FROM_OUTSIDE ensures c in sensed <==> c in pending {
      assert c in sensed * FROM_OUTSIDE <==> c in pending * FROM_OUTSIDE;
    }
  }

  lemma AttackersSetNothing(r: Runner)
    requires PublishedRunner(r)
    ensures AttackingRunner(r) ==> !SetsStateNow(r)
    ensures AttackingRunner(r) ==> CLEARED.schedule.None? && !SetsStateNow(CLEARED)
  {
    hide Brains.Attacking, Brains.IsPublished;
    if SetsStateNow(r) {
      SettingIsDying(r);
    }
  }

  /** One that a script holds keeps its state, unless it is dead, and loses its
      schedule. */
  lemma HeldPrisonerTick(
      space: Space, sim: Sim, entity: Entity, slots: Slots, candidates: seq<Seeable>, known: map<Entity, Seeable>,
      events: seq<AiEvent>, dt: real)
    requires slots.Thinks() && slots.prisoner && slots.held && PublishedRunner(slots.ai.value.runner)
    requires slots.ai.value.brain < |sim.brains|
    ensures var after := TickedOne(space, sim, entity, slots, candidates, known, events, dt).slots;
            && after.Thinks() && after.ai.value.runner == CLEARED
            && after.ai.value.state
               == if slots.actor.value.alive && slots.actor.value.health > 0.0 then slots.ai.value.state else Dead
  {
    hide Sensed, Thought, HeldStill, TickedOne, Quiet, Harmless, PublishedRunner;
    var brain := sim.brains[slots.ai.value.brain];
    var m := Sensed(space, sim, entity, slots, brain, candidates, known, events, dt).0;
    SensesHarmless(space, sim, entity, slots, brain, candidates, known, events, dt);
    TickIsThoughtOrHold(space, sim, entity, slots, candidates, known, events, dt);
    HeldInPeace(space, sim, entity, slots, m, slots.ai.value.brain, events, dt);
  }

  lemma StageIs(
      space: Space, entity: Entity, brain: Brains.Brain, known: map<Entity, Seeable>, m: Mind, dt: real,
      tickCount: nat)
    ensures StageOf(space, entity, brain, known, m, dt, tickCount).entity == entity
    ensures StageOf(space, entity, brain, known, m, dt, tickCount).brain == brain
  {
  }
}

/** What a tick's senses make of an enemy, and what death leaves running. */
module Perceptions {
  import opened Wrappers
  import opened Geometry
  import opened MonsterStates
  import opened Schedules
  import opened Senses
  import opened AiTick
  import opened Prisoners
  import Brains
  import Pcg32
  import Squads
  import Steps
  import Turning

  // ---- Reach ----

  /** What justifies an attack: the enemy now remembered is one just seen, and
      within the reach the attack has. */
  ghost predicate SeenWithin(m: Mind, visible: seq<Sighting>, inReach: Sighting -> bool) {
    exists s | s in visible :: IsPossibleEnemy(s) && inReach(s) && m.ai.memory == Some(SeenMemory(s))
  }

  lemma LosingSightAddsNoAttack(
      space: Space, entity: Entity, brain: Brains.Brain, known: map<Entity, Seeable>, m: Mind, dt: real)
    requires m.ai.memory.Some?
    ensures LosesSight(space, entity, brain, known, m, dt).conditions
            <= m.conditions + {EnemyDead, EnemyOccluded, EnemyTooFar}
  {
  }

  /** An attack condition is raised only by an enemy that is seen now, and
      within reach of that attack. */
  lemma AcquiredAttackIsInReach(
      space: Space, entity: Entity, prisoner: bool, brain: Brains.Brain, known: map<Entity, Seeable>,
      squads: Squads.Roster, look: LookResult, m: Mind, dt: real)
    requires look.enemy == SelectEnemy(look.visible)
    ensures var after := Acquired(space, entity, prisoner, brain, known, squads,
                                  ChosenEnemy(brain, m.actor.origin, look), m, dt).0;
            && (CanMeleeAttack1 in after.conditions && CanMeleeAttack1 !in m.conditions ==>
                  brain.hasMelee &&
                  SeenWithin(after, look.visible,
                             (s: Sighting) => brain.meleeInReach(m.actor.origin, s.origin, s.distance)))
            && (CanRangeAttack1 in after.conditions && CanRangeAttack1 !in m.conditions ==>
                  brain.hasRange &&
                  SeenWithin(after, look.visible, (s: Sighting) => s.distance <= brain.rangeAttackRange))
  {
    hide ChosenEnemy, Squads.Shared, Squads.SharedEnemy, LosesSight;
    ChosenIsVisible(brain, m.actor.origin, look);
    if m.ai.memory.Some? {
      LosingSightAddsNoAttack(space, entity, brain, known, m, dt);
    }
  }

  /** A possible enemy in the reach of a blow. */
  predicate IsNear(brain: Brains.Brain, origin: Vec3, visible: seq<Sighting>, s: Sighting) {
    s in visible && IsPossibleEnemy(s) && brain.meleeInReach(origin, s.origin, s.distance)
  }

  /** A monster that attacks only one place takes the worst regarded of those
      that are there ahead of what sight prefers; any other takes what sight
      prefers. */
  lemma InReachComesFirst(brain: Brains.Brain, origin: Vec3, look: LookResult)
    requires look.enemy == SelectEnemy(look.visible)
    ensures var enemy := ChosenEnemy(brain, origin, look);
            if brain.hasMelee && brain.choosesEnemyInReach && exists s :: IsNear(brain, origin, look.visible, s) then
              && enemy.Some? && IsNear(brain, origin, look.visible, enemy.value)
              && forall s | IsNear(brain, origin, look.visible, s) ::
                   s.relationship.Rank() <= enemy.value.relationship.Rank()
            else
              enemy == look.enemy
  {
    hide IsPossibleEnemy;
    var near := InReach(brain, origin, look.visible);
    forall s ensures s in near && IsPossibleEnemy(s) <==> IsNear(brain, origin, look.visible, s) {
      InReachIff(brain, origin, look.visible, s);
    }
    forall s | IsNear(brain, origin, look.visible, s)
      ensures SelectEnemy(near).Some? && s.relationship.Rank() <= SelectEnemy(near).value.relationship.Rank()
    {
      ChoiceIsWorstRegarded(near, s);
    }
  }

  lemma {:induction false} InReachIff(brain: Brains.Brain, origin: Vec3, visible: seq<Sighting>, s: Sighting)
    ensures s in InReach(brain, origin, visible) <==>
              s in visible && brain.meleeInReach(origin, s.origin, s.distance)
  {
    if visible != [] {
      var n := |visible| - 1;
      assert visible == visible[..n] + [visible[n]];
      InReachIff(brain, origin, visible[..n], s);
    }
  }

  // ---- Memory ----

  /** An enemy out of sight is kept exactly while it lives and is near, and the
      memory of where it was last seen is not touched. */
  lemma OccludedIsKeptIffNear(
      space: Space, entity: Entity, prisoner: bool, brain: Brains.Brain, known: map<Entity, Seeable>,
      squads: Squads.Roster, m: Mind, dt: real)
    requires m.ai.memory.Some?
    ensures var enemy := m.ai.memory.value.entity;
            var after := Acquired(space, entity, prisoner, brain, known, squads, None, m, dt).0.ai.memory;
            && (after.Some? <==>
                  enemy in known && known[enemy].alive &&
                  space.length(known[enemy].origin.Minus(m.actor.origin)) <= OCCLUDED_MEMORY_DISTANCE)
            && (after.Some? ==>
                  after.value.entity == enemy && after.value.occluded &&
                  after.value.lastKnownPosition == m.ai.memory.value.lastKnownPosition)
  {
  }

  /** A seen enemy is what the whole squad is told of, and nobody else. */
  lemma SquadIsTold(
      space: Space, entity: Entity, prisoner: bool, brain: Brains.Brain, known: map<Entity, Seeable>,
      squads: Squads.Roster, seen: Sighting, m: Mind, dt: real, other: Entity)
    ensures var after := Acquired(space, entity, prisoner, brain, known, squads, Some(seen), m, dt);
            && after.0.ai.memory == Some(SeenMemory(seen))
            && Squads.SharedEnemy(after.1.squads, other)
               == if Squads.InSomeSquad(squads.squads, entity) &&
                     Squads.SquadIndex(squads.squads, other) == Squads.SquadIndex(squads.squads, entity)
                  then Some((seen.entity, seen.origin))
                  else Squads.SharedEnemy(squads.squads, other)
  {
    hide Squads.Shared, Squads.SharedEnemy, Squads.InSomeSquad;
    Squads.SharingReachesTheSquad(squads.squads, entity, seen.entity, seen.origin, other);
  }

  // ---- Death ----

  /** A dead monster is given the schedule of doing nothing exactly when it
      neither hears danger nor sees what it fears. */
  lemma DeadIsInertIff(hasRange: bool, conditions: Conditions)
    ensures Brains.SelectSchedule(hasRange, Dead, conditions) == Brains.Published(Brains.Inert)
            <==> HearDanger !in conditions && SeeFear !in conditions
  {
    hide Brains.NameOf, Brains.TasksOf, Brains.MaskOf;
    if Brains.SelectSchedule(hasRange, Dead, conditions) == Brains.Published(Brains.Inert) {
      Brains.NamesDiffer(Brains.Select(hasRange, Dead, conditions), Brains.Inert);
    }
  }

  // ---- Attacks ----

  /** Whether something has reported an attack since. */
  ghost predicate AddsAttack(before: seq<AiEvent>, after: seq<AiEvent>) {
    exists i | |before| <= i < |after| :: after[i].kind.Attack?
  }

  lemma AttackBetween(entity: Entity, a: seq<AiEvent>, b: seq<AiEvent>, blow: AiEvent, c: seq<AiEvent>)
    requires a <= b && b + [blow] <= c && blow.kind.Attack?
    ensures AddsAttack(a, c)
  {
    assert c[|b|] == blow;
  }

  lemma SensesQuietly(
      space: Space, sim: Sim, entity: Entity, slots: Slots, brain: Brains.Brain, candidates: seq<Seeable>,
      known: map<Entity, Seeable>, events: seq<AiEvent>, dt: real)
    requires slots.Thinks()
    ensures var m, actor, ai := Sensed(space, sim, entity, slots, brain, candidates, known, events, dt).0,
                                slots.actor.value, slots.ai.value;
            && Quiet(entity, events, m.events)
            && m.ai.state == (if actor.alive && actor.health > 0.0 then ai.state else Dead)
            && m.ai.runner == if slots.prisoner && AttackingRunner(ai.runner) then CLEARED else ai.runner
  {
    hide Looked, Listened, ChosenEnemy, Woken, Disarmed, Acquired, Struck, Concluded, Quiet, AttackingRunner;
    var actor, ai, prisoner := slots.actor.value, slots.ai.value, slots.prisoner;
    WakesQuietly(entity, prisoner, actor, ai, events);
    var m := Disarmed(entity, prisoner, Woken(entity, actor, ai, events));
    var viewer := ViewerOf(space, entity, m.actor, prisoner);
    var look := Looked(space, viewer, brain.senses, sim.relationships, candidates);
    var heard := Heard(m, look, Listened(space, viewer.Eye(), brain.senses, sim.sounds));
    var enemy := ChosenEnemy(brain, heard.actor.origin, look);
    AcquiresQuietly(space, entity, prisoner, brain, known, sim.squads, enemy, heard, dt);
    var acquired := Acquired(space, entity, prisoner, brain, known, sim.squads, enemy, heard, dt).0;
    StruckQuietly(space, entity, prisoner, brain, HurtOf(sim.damage, entity), acquired);
    QuietThenQuiet(entity, events, m.events, acquired.events);
    QuietThenQuiet(entity, events, acquired.events,
                   Concluded(Struck(space, entity, prisoner, brain, HurtOf(sim.damage, entity), acquired)).events);
  }

  lemma WakesQuietly(entity: Entity, prisoner: bool, actor: Actor, ai: MonsterAi, events: seq<AiEvent>)
    ensures var m := Disarmed(entity, prisoner, Woken(entity, actor, ai, events));
            && Quiet(entity, events, m.events)
            && m.ai.state == (if actor.alive && actor.health > 0.0 then ai.state else Dead)
            && m.ai.runner == if prisoner && AttackingRunner(ai.runner) then CLEARED else ai.runner
  {
    hide Brains.Attacking;
    var woken := Woken(entity, actor, ai, events);
    QuietThenQuiet(entity, events, woken.events, Disarmed(entity, prisoner, woken).events);
  }

  lemma AcquiresQuietly(
      space: Space, entity: Entity, prisoner: bool, brain: Brains.Brain, known: map<Entity, Seeable>,
      squads: Squads.Roster, enemy: Option<Sighting>, m: Mind, dt: real)
    ensures var after := Acquired(space, entity, prisoner, brain, known, squads, enemy, m, dt).0;
            Quiet(entity, m.events, after.events) && after.ai.state == m.ai.state && after.ai.runner == m.ai.runner
  {
    hide Squads.Shared, Squads.SharedEnemy;
  }

  lemma StruckQuietly(
      space: Space, entity: Entity, prisoner: bool, brain: Brains.Brain, hurt: Option<Hurt>, m: Mind)
    ensures var after := Concluded(Struck(space, entity, prisoner, brain, hurt, m));
            Quiet(entity, m.events, after.events) && after.ai.state == m.ai.state && after.ai.runner == m.ai.runner
  {
  }

  lemma AnswersWithABlow(stage: Stage, r: Runner, conditions: Conditions, b: Body)
    requires StrikesNow(r)
    ensures var after := Answered(r, stage.dt, conditions, ExecutorOf(stage), b).0;
            && after.ai == b.ai
            && if Interrupts(r.schedule.value, conditions) || |b.events| >= MAX_EVENTS_PER_TICK
               then after.events == b.events
               else exists kind :: after.events == b.events + [AiEvent(stage.entity, Attack(kind, stage.enemy))]
  {
    hide Interrupts;
  }

  lemma DecidesQuietly(entity: Entity, senses: Senses, hasRange: bool, m: Mind)
    ensures var brain := Brains.DefaultBrain(senses, hasRange);
            var decided := Decided(entity, brain, m);
            var scheduled := Scheduled(entity, brain, decided);
            && Quiet(entity, m.events, scheduled.events) && scheduled.conditions == m.conditions
            && scheduled.ai.state == decided.ai.state == Brains.DefaultNextState(m.ai.state, m.conditions)
            && (m.ai.runner.schedule.Some? ==> scheduled == decided && decided.ai.runner == m.ai.runner)
            && (m.ai.runner.schedule.None? ==> !StrikesNow(scheduled.ai.runner) && !SetsStateNow(scheduled.ai.runner))
  {
    hide Brains.DefaultNextState, Brains.Published, StrikesNow, SetsStateNow;
    var brain := Brains.DefaultBrain(senses, hasRange);
    var decided := Decided(entity, brain, m);
    FirstTaskIsHarmless(Brains.Select(hasRange, decided.ai.state, decided.conditions));
    QuietThenQuiet(entity, m.events, decided.events, Scheduled(entity, brain, decided).events);
  }

  /** What running its schedule makes of a monster. */
  lemma ActsWithABlowIff(
      stage: Stage, senses: Senses, hasRange: bool, m: Mind, sounds: seq<SoundEvent>, rng: Pcg32.Generator)
    requires stage.brain == Brains.DefaultBrain(senses, hasRange) && m.ai.runner.schedule.Some?
    requires PublishedRunner(m.ai.runner)
    ensures var after := Acted(stage, m, sounds, rng).0;
            && (AddsAttack(m.events, after.events) <==>
                  StrikesNow(m.ai.runner) && !Interrupts(m.ai.runner.schedule.value, m.conditions) &&
                  |m.events| < MAX_EVENTS_PER_TICK)
            && m.events <= after.events
            && (after.ai.state == m.ai.state || after.ai.state.Dead?)
  {
    hide Answered, Tick, Replaced, Brains.DefaultBrain, ExecutorOf, StrikesNow, SetsStateNow, Interrupts;
    var r, b := m.ai.runner, Body(m.actor, m.ai, sounds, m.events);
    var (body, answer) := Answered(r, stage.dt, m.conditions, ExecutorOf(stage), b);
    var ticked := Tick(r, stage.dt, m.conditions, rng, answer);
    var between := body.(ai := body.ai.(runner := ticked.runner));
    ReplacesPeacefully(
      stage.entity, senses, hasRange, r.schedule.value.name, ticked.outcome, m.conditions, between);
    var after := Acted(stage, m, sounds, rng).0;
    assert Quiet(stage.entity, body.events, after.events);
    if StrikesNow(r) {
      AnswersWithABlow(stage, r, m.conditions, b);
      if !Interrupts(r.schedule.value, m.conditions) && |m.events| < MAX_EVENTS_PER_TICK {
        var kind :| body.events == m.events + [AiEvent(stage.entity, Attack(kind, stage.enemy))];
        AttackBetween(stage.entity, m.events, m.events, AiEvent(stage.entity, Attack(kind, stage.enemy)), after.events);
      }
    } else {
      AnswersCalmly(stage, r, m.conditions, b);
      if SetsStateNow(r) {
        SettingIsDying(r);
      }
      QuietThenQuiet(stage.entity, m.events, body.events, after.events);
    }
  }

  /** A monster with a default brain and a published schedule or none reports
      an attack in its tick exactly when no script holds it, it is no prisoner,
      and the task that it is about to begin attacks and gets to: neither what
      it senses nor the cap on reports stops it. Being dead does not; a dead
      monster stays so. */
  lemma AttacksIff(
      space: Space, sim: Sim, entity: Entity, slots: Slots, senses: Senses, hasRange: bool, candidates: seq<Seeable>,
      known: map<Entity, Seeable>, events: seq<AiEvent>, dt: real)
    requires slots.Thinks() && PublishedRunner(slots.ai.value.runner) && slots.ai.value.brain < |sim.brains|
    requires sim.brains[slots.ai.value.brain] == Brains.DefaultBrain(senses, hasRange)
    ensures var brain, runner := sim.brains[slots.ai.value.brain], slots.ai.value.runner;
            var m := Sensed(space, sim, entity, slots, brain, candidates, known, events, dt).0;
            var after := TickedOne(space, sim, entity, slots, candidates, known, events, dt);
            && (AddsAttack(events, after.events) <==>
                  !slots.held && !slots.prisoner && StrikesNow(runner) &&
                  !Interrupts(runner.schedule.value, m.conditions) &&
                  |Decided(entity, brain, m).events| < MAX_EVENTS_PER_TICK)
            && (!slots.actor.value.alive || slots.actor.value.health <= 0.0 ==>
                  after.slots.Thinks() && after.slots.ai.value.state.Dead? && Decided(entity, brain, m) == m)
  {
    hide Sensed, Decided, Scheduled, Acted, Moved, HeldStill, StageOf, Brains.DefaultBrain, Brains.DefaultNextState;
    hide AddsAttack, Quiet, StrikesNow, PublishedRunner, AttackingRunner, SetsStateNow, Interrupts;
    var brain, runner := sim.brains[slots.ai.value.brain], slots.ai.value.runner;
    var (m, squads) := Sensed(space, sim, entity, slots, brain, candidates, known, events, dt);
    SensesQuietly(space, sim, entity, slots, brain, candidates, known, events, dt);
    TickIsThoughtOrHold(space, sim, entity, slots, candidates, known, events, dt);
    DisarmedNeverStrike(runner);
    if slots.held {
      HoldsWithoutABlow(space, sim.(squads := squads), entity, slots, events, m, dt);
    } else {
      ThinksWithABlowIff(space, sim.(squads := squads), entity, slots, senses, hasRange, known, events, m, dt);
    }
    if m.ai.state.Dead? {
      DeadDecideNothing(entity, senses, hasRange, m);
    }
  }

  lemma DeadDecideNothing(entity: Entity, senses: Senses, hasRange: bool, m: Mind)
    requires m.ai.state.Dead?
    ensures Decided(entity, Brains.DefaultBrain(senses, hasRange), m) == m
  {
  }

  lemma DisarmedNeverStrike(r: Runner)
    ensures StrikesNow(r) ==> AttackingRunner(r)
    ensures !StrikesNow(CLEARED) && PublishedRunner(CLEARED)
  {
    if StrikesNow(r) {
      assert Current(r) in r.schedule.value.tasks;
    }
  }

  lemma HoldsWithoutABlow(
      space: Space, sim: Sim, entity: Entity, slots: Slots, events: seq<AiEvent>, m: Mind, dt: real)
    requires Quiet(entity, events, m.events)
    ensures var after := HeldStill(space, sim, slots, m, dt);
            !AddsAttack(events, after.events) && after.slots.Thinks() && after.slots.ai.value.state == m.ai.state
  {
    hide Moved;
    MovedKeeps(space, m.actor, m.ai.(runner := CLEARED), dt);
  }

  lemma ThinksWithABlowIff(
      space: Space, sim: Sim, entity: Entity, slots: Slots, senses: Senses, hasRange: bool,
      known: map<Entity, Seeable>, events: seq<AiEvent>, m: Mind, dt: real)
    requires PublishedRunner(m.ai.runner) && Quiet(entity, events, m.events)
    ensures var brain := Brains.DefaultBrain(senses, hasRange);
            var after := Thought(space, sim, entity, slots, brain, known, m, dt);
            && (AddsAttack(events, after.events) <==>
                  StrikesNow(m.ai.runner) && !Interrupts(m.ai.runner.schedule.value, m.conditions) &&
                  |Decided(entity, brain, m).events| < MAX_EVENTS_PER_TICK)
            && (m.ai.state.Dead? ==> after.slots.Thinks() && after.slots.ai.value.state.Dead?)
  {
    hide Decided, Scheduled, Acted, Moved, StageOf, Brains.DefaultBrain, Brains.DefaultNextState, Interrupts;
    hide Brains.IsPublished, StrikesNow, SetsStateNow;
    var brain := Brains.DefaultBrain(senses, hasRange);
    DecidesQuietly(entity, senses, hasRange, m);
    DecidesPublished(entity, senses, hasRange, m);
    var decided := Decided(entity, brain, m);
    var stage := StageOf(space, entity, brain, known, decided, dt, sim.tickCount);
    StageIs(space, entity, brain, known, decided, dt, sim.tickCount);
    var scheduled := Scheduled(entity, brain, decided);
    ActsWithABlowIff(stage, senses, hasRange, scheduled, sim.sounds, sim.rng);
    var body := Acted(stage, scheduled, sim.sounds, sim.rng).0;
    MovedKeeps(space, body.actor, body.ai, dt);
    QuietThenQuiet(entity, events, m.events, scheduled.events);
    AttackAfterQuiet(entity, events, scheduled.events, body.events);
    Brains.CombatNeedsASighting(m.ai.state, m.conditions);
    DeadStaysDead(m.conditions);
    StrikesOnlyScheduled(m.ai.runner);
  }

  lemma AttackAfterQuiet(entity: Entity, a: seq<AiEvent>, b: seq<AiEvent>, c: seq<AiEvent>)
    requires Quiet(entity, a, b) && b <= c
    ensures AddsAttack(a, c) <==> AddsAttack(b, c)
  {
    assert forall i | |a| <= i < |b| :: c[i] == b[i];
  }

  lemma DeadStaysDead(conditions: Conditions)
    ensures Brains.DefaultNextState(Dead, conditions).Dead?
  {
  }

  lemma StrikesOnlyScheduled(r: Runner)
    ensures StrikesNow(r) ==> r.schedule.Some?
  {
  }

  lemma DecidesPublished(entity: Entity, senses: Senses, hasRange: bool, m: Mind)
    requires PublishedRunner(m.ai.runner)
    ensures var brain := Brains.DefaultBrain(senses, hasRange);
            PublishedRunner(Scheduled(entity, brain, Decided(entity, brain, m)).ai.runner)
  {
    hide Brains.DefaultNextState, Brains.Published;
  }

  // ---- Facing ----

  predicate IsFacing(task: Task) {
    task.FaceEnemy? || task.FaceTarget? || task.FaceLastKnownPosition?
  }

  /** One more tick of a facing task that has begun: the task resumed, then the
      movement at the end of the tick. */
  function FacingTick(stage: Stage, b: Body, task: Task): Body {
    var after := ResumeTask(stage, b, task).0;
    var (actor, ai) := Moved(stage.space, after.actor, after.ai, stage.dt);
    after.(actor := actor, ai := ai)
  }

  function FacingTicks(stage: Stage, b: Body, task: Task, n: nat): Body {
    if n == 0 then b else FacingTick(stage, FacingTicks(stage, b, task, n - 1), task)
  }

  lemma FacingTickTurns(stage: Stage, b: Body, task: Task)
    requires IsFacing(task) && b.ai.moveSpeed <= 0.0
    ensures var step := TURN_RATE * stage.dt;
            var after := FacingTick(stage, b, task);
            && after.actor.yaw == Turning.TurnToward(b.actor.yaw, b.ai.idealYaw, step).0
            && after.ai.idealYaw == b.ai.idealYaw && after.ai.moveSpeed == b.ai.moveSpeed
            && (ResumeTask(stage, b, task).1 == if Turning.Faced(b.actor.yaw, b.ai.idealYaw, step) then Complete
                                                else Ongoing)
  {
    hide Turning.TurnToward, Turning.Normalized;
  }

  /** A standing monster does nothing but turn while it faces. */
  lemma {:induction false} FacingTicksTurn(stage: Stage, b: Body, task: Task, n: nat)
    requires IsFacing(task) && b.ai.moveSpeed <= 0.0
    ensures var after := FacingTicks(stage, b, task, n);
            && after.actor.yaw == Turning.Turned(b.actor.yaw, b.ai.idealYaw, TURN_RATE * stage.dt, n)
            && after.ai.idealYaw == b.ai.idealYaw && after.ai.moveSpeed == b.ai.moveSpeed
  {
    hide FacingTick, Turning.TurnToward;
    if n > 0 {
      FacingTicksTurn(stage, b, task, n - 1);
      FacingTickTurns(stage, FacingTicks(stage, b, task, n - 1), task);
    }
  }

  lemma {:induction false} StandsStillWithoutTime(yaw: real, ideal: real, n: nat)
    requires Turning.Apart(yaw, ideal) > Turning.FACING_TOLERANCE
    ensures Turning.Apart(Turning.Turned(yaw, ideal, 0.0, n), ideal) == Turning.Apart(yaw, ideal)
  {
    hide Turning.TurnToward, Turning.Apart;
    if n > 0 {
      StandsStillWithoutTime(yaw, ideal, n - 1);
      Turning.FacingNeedsTime(Turning.Turned(yaw, ideal, 0.0, n - 1), ideal);
    }
  }

  lemma FacedWithoutTime(yaw: real, ideal: real, n: nat)
    ensures Turning.Faced(Turning.Turned(yaw, ideal, 0.0, n), ideal, 0.0) ==>
              Turning.Apart(yaw, ideal) <= Turning.FACING_TOLERANCE
    ensures Turning.Apart(yaw, ideal) <= Turning.FACING_TOLERANCE ==>
              Turning.Faced(Turning.Turned(yaw, ideal, 0.0, 0), ideal, 0.0)
  {
    hide Turning.TurnToward, Turning.Apart, Turning.Faced;
    Turning.FacingNeedsTime(yaw, ideal);
    if Turning.Apart(yaw, ideal) > Turning.FACING_TOLERANCE {
      StandsStillWithoutTime(yaw, ideal, n);
      Turning.FacingNeedsTime(Turning.Turned(yaw, ideal, 0.0, n), ideal);
    }
  }

  /** Whether it faces what it turns to already. */
  predicate OnTarget(b: Body) {
    Turning.Apart(b.actor.yaw, b.ai.idealYaw) <= Turning.FACING_TOLERANCE
  }

  ghost predicate FacesAfter(stage: Stage, b: Body, task: Task, n: nat) {
    ResumeTask(stage, FacingTicks(stage, b, task, n), task).1 == Complete
  }

  /** A standing monster that is turning to face something has done so within
      the ticks the turn takes, when ticks take time; when they do not, it
      turns forever unless it faces it already. */
  lemma FacingEndsIff(stage: Stage, b: Body, task: Task)
    requires IsFacing(task) && b.ai.moveSpeed <= 0.0 && stage.dt >= 0.0
    ensures (exists n: nat :: FacesAfter(stage, b, task, n)) <==>
              stage.dt > 0.0 || OnTarget(b)
    ensures stage.dt > 0.0 ==>
              exists n: nat :: FacesAfter(stage, b, task, n) &&
                n < Steps.StepsToCover(Turning.Apart(b.actor.yaw, b.ai.idealYaw), TURN_RATE * stage.dt)
  {
    hide ResumeTask, FacingTicks, Turning.Faced, Turning.Turned, Turning.Apart;
    var yaw, ideal, step := b.actor.yaw, b.ai.idealYaw, TURN_RATE * stage.dt;
    forall n: nat
      ensures FacesAfter(stage, b, task, n) <==> Turning.Faced(Turning.Turned(yaw, ideal, step, n), ideal, step)
    {
      FacingTicksTurn(stage, b, task, n);
      FacingTickTurns(stage, FacingTicks(stage, b, task, n), task);
    }
    if stage.dt > 0.0 {
      Turning.FacingFinishes(yaw, ideal, step);
      var n: nat :| n < Steps.StepsToCover(Turning.Apart(yaw, ideal), step) &&
                    Turning.Faced(Turning.Turned(yaw, ideal, step, n), ideal, step);
      assert FacesAfter(stage, b, task, n);
    } else {
      forall n: nat ensures Turning.Faced(Turning.Turned(yaw, ideal, step, n), ideal, step) ==> OnTarget(b) {
        FacedWithoutTime(yaw, ideal, n);
      }
      FacedWithoutTime(yaw, ideal, 0);
      assert FacesAfter(stage, b, task, 0) <==> OnTarget(b);
    }
  }
}

/** Where a monster's enemies come from, and the two promises about prisoners
    over the whole world and over every run. */
module Enmity {
  import opened Wrappers
  import opened Geometry
  import opened MonsterStates
  import opened Schedules
  import opened Senses
  import opened AiTick
  import opened Prisoners
  import Brains
  import Ordering
  import Pcg32
  import Squads

  // ---- A monster reports only for itself ----

  ghost predicate Own(entity: Entity, before: seq<AiEvent>, after: seq<AiEvent>) {
    before <= after && forall i | |before| <= i < |after| :: after[i].entity == entity
  }

  lemma OwnThenOwn(entity: Entity, a: seq<AiEvent>, b: seq<AiEvent>, c: seq<AiEvent>)
    requires Own(entity, a, b) && Own(entity, b, c)
    ensures Own(entity, a, c)
  {
    forall i | |a| <= i < |c| ensures c[i].entity == entity {
      if i < |b| {
        assert c[i] == b[i];
      }
    }
  }

  /** What carrying out a task may do to a memory and to the events. */
  ghost predicate Tidy(entity: Entity, b: Body, after: Body) {
    (after.ai.memory == b.ai.memory || after.ai.memory == None) && Own(entity, b.events, after.events)
  }

  lemma CalmIsTidy(entity: Entity, b: Body, after: Body)
    requires Calm(entity, b, after)
    ensures Tidy(entity, b, after)
  {
  }

  lemma StrikesTidily(stage: Stage, b: Body, kind: AttackKind)
    ensures Tidy(stage.entity, b, Strike(stage, b, kind).0)
  {
  }

  lemma BeginIsTidy(stage: Stage, b: Body, task: Task)
    ensures Tidy(stage.entity, b, BeginTask(stage, b, task).0)
  {
    hide Tidy, Calm, Strike;
    match task
    case MeleeAttack1 => StrikesTidily(stage, b, Melee1);
    case MeleeAttack2 => StrikesTidily(stage, b, Melee2);
    case RangeAttack1 => StrikesTidily(stage, b, Range1);
    case RangeAttack2 => StrikesTidily(stage, b, Range2);
    case _ =>
      BeginIsCalm(stage, b, task);
      CalmIsTidy(stage.entity, b, BeginTask(stage, b, task).0);
  }

  lemma AnswersTidily(stage: Stage, runner: Runner, conditions: Conditions, b: Body)
    ensures Tidy(stage.entity, b, Answered(runner, stage.dt, conditions, ExecutorOf(stage), b).0)
  {
    hide BeginTask, ResumeTask, Tidy, Calm;
    NothingIsCalm(stage.entity, b);
    CalmIsTidy(stage.entity, b, b);
    if Runs(runner, conditions) {
      BeginIsTidy(stage, b, Current(runner));
      ResumeIsCalm(stage, b, Current(runner));
      CalmIsTidy(stage.entity, b, ResumeTask(stage, b, Current(runner)).0);
    }
  }

  lemma ReplacesTidily(
      entity: Entity, brain: Brains.Brain, name: string, outcome: RunOutcome, conditions: Conditions, b: Body)
    ensures Tidy(entity, b, Replaced(entity, brain, name, outcome, conditions, b))
  {
  }

  lemma ActsTidily(stage: Stage, m: Mind, sounds: seq<SoundEvent>, rng: Pcg32.Generator)
    requires m.ai.runner.schedule.Some?
    ensures Tidy(stage.entity, Body(m.actor, m.ai, sounds, m.events), Acted(stage, m, sounds, rng).0)
  {
    hide Answered, Tick, Replaced, ExecutorOf, Own;
    var runner, b := m.ai.runner, Body(m.actor, m.ai, sounds, m.events);
    AnswersTidily(stage, runner, m.conditions, b);
    var (body, answer) := Answered(runner, stage.dt, m.conditions, ExecutorOf(stage), b);
    var ticked := Tick(runner, stage.dt, m.conditions, rng, answer);
    var between := body.(ai := body.ai.(runner := ticked.runner));
    ReplacesTidily(
      stage.entity, stage.brain, runner.schedule.value.name, ticked.outcome, m.conditions, between);
    OwnThenOwn(stage.entity, m.events, between.events, Acted(stage, m, sounds, rng).0.events);
  }

  // ---- Where a remembered enemy comes from ----

  /** A remembered prisoner was remembered before, or did the damage. */
  ghost predicate Traced(
      prisoners: iset<Entity>, before: Option<EnemyMemory>, hurt: Option<Hurt>, after: Option<EnemyMemory>)
  {
    after.Some? && after.value.entity in prisoners ==>
      || (before.Some? && before.value.entity == after.value.entity)
      || (hurt.Some? && hurt.value.attacker == Some(after.value.entity))
  }

  ghost predicate NoneShared(squads: seq<Squads.Squad>, prisoners: iset<Entity>) {
    forall s | s in squads && s.enemy.Some? :: s.enemy.value !in prisoners
  }

  /** The flags of what can be seen are the flags of the entities. */
  ghost predicate Flagged(candidates: seq<Seeable>, prisoners: iset<Entity>) {
    forall c | c in candidates :: c.prisoner <==> c.entity in prisoners
  }

  lemma SeenIsNoPrisoner(
      space: Space, viewer: Viewer, brain: Brains.Brain, table: RelationshipTable, candidates: seq<Seeable>,
      origin: Vec3, prisoners: iset<Entity>)
    requires Flagged(candidates, prisoners)
    ensures var enemy := ChosenEnemy(brain, origin, Looked(space, viewer, brain.senses, table, candidates));
            enemy.Some? ==> enemy.value.entity !in prisoners
  {
    hide Visible, Noticed, ChosenEnemy, IsPossibleEnemy;
    var look := Looked(space, viewer, brain.senses, table, candidates);
    ChosenIsVisible(brain, origin, look);
    var enemy := ChosenEnemy(brain, origin, look);
    if enemy.Some? {
      SightSparesPrisoners(space, viewer, brain.senses, table, candidates, enemy.value);
    }
  }

  lemma SharingKeepsNoneShared(
      squads: seq<Squads.Squad>, entity: Entity, enemy: Entity, position: Vec3, prisoners: iset<Entity>)
    requires NoneShared(squads, prisoners) && enemy !in prisoners
    ensures NoneShared(Squads.Shared(squads, entity, enemy, position), prisoners)
  {
  }

  lemma SharedIsNoPrisoner(squads: seq<Squads.Squad>, entity: Entity, prisoners: iset<Entity>)
    requires NoneShared(squads, prisoners)
    ensures var shared := Squads.SharedEnemy(squads, entity);
            shared.Some? ==> shared.value.0 !in prisoners
  {
    var i := Squads.SquadIndex(squads, entity);
    if i < |squads| {
      assert squads[i] in squads;
    }
  }

  lemma AcquiresTraced(
      space: Space, entity: Entity, prisoner: bool, brain: Brains.Brain, known: map<Entity, Seeable>,
      squads: Squads.Roster, enemy: Option<Sighting>, m: Mind, dt: real, prisoners: iset<Entity>, hurt: Option<Hurt>)
    requires NoneShared(squads.squads, prisoners) && (enemy.Some? ==> enemy.value.entity !in prisoners)
    ensures var (after, left) := Acquired(space, entity, prisoner, brain, known, squads, enemy, m, dt);
            && NoneShared(left.squads, prisoners) && Traced(prisoners, m.ai.memory, hurt, after.ai.memory)
            && Own(entity, m.events, after.events)
  {
    hide NoneShared, Squads.Shared, Squads.SharedEnemy;
    SharedIsNoPrisoner(squads.squads, entity, prisoners);
    if enemy.Some? {
      SharingKeepsNoneShared(squads.squads, entity, enemy.value.entity, enemy.value.origin, prisoners);
    }
  }

  lemma StruckTraced(
      space: Space, entity: Entity, prisoner: bool, brain: Brains.Brain, hurt: Option<Hurt>, m: Mind,
      prisoners: iset<Entity>, before: Option<EnemyMemory>)
    requires Traced(prisoners, before, hurt, m.ai.memory)
    ensures var after := Concluded(Struck(space, entity, prisoner, brain, hurt, m));
            Traced(prisoners, before, hurt, after.ai.memory) && Own(entity, m.events, after.events)
  {
  }

  lemma WakesTraced(entity: Entity, prisoner: bool, actor: Actor, ai: MonsterAi, events: seq<AiEvent>)
    ensures var m := Disarmed(entity, prisoner, Woken(entity, actor, ai, events));
            (m.ai.memory == ai.memory || m.ai.memory == None) && Own(entity, events, m.events)
  {
    hide Brains.Attacking;
    var woken := Woken(entity, actor, ai, events);
    OwnThenOwn(entity, events, woken.events, Disarmed(entity, prisoner, woken).events);
  }

  lemma SensesTraced(
      space: Space, sim: Sim, entity: Entity, slots: Slots, brain: Brains.Brain, candidates: seq<Seeable>,
      known: map<Entity, Seeable>, events: seq<AiEvent>, dt: real, prisoners: iset<Entity>)
    requires slots.Thinks() && Flagged(candidates, prisoners) && NoneShared(sim.squads.squads, prisoners)
    ensures var (m, squads) := Sensed(space, sim, entity, slots, brain, candidates, known, events, dt);
            && Traced(prisoners, slots.ai.value.memory, HurtOf(sim.damage, entity), m.ai.memory)
            && NoneShared(squads.squads, prisoners) && Own(entity, events, m.events)
  {
    hide Looked, Listened, ChosenEnemy, Woken, Disarmed, Acquired, Struck, Concluded, Own, NoneShared, Flagged;
    var prisoner, hurt := slots.prisoner, HurtOf(sim.damage, entity);
    WakesTraced(entity, prisoner, slots.actor.value, slots.ai.value, events);
    var m := Disarmed(entity, prisoner, Woken(entity, slots.actor.value, slots.ai.value, events));
    var viewer := ViewerOf(space, entity, m.actor, prisoner);
    var look := Looked(space, viewer, brain.senses, sim.relationships, candidates);
    var heard := Heard(m, look, Listened(space, viewer.Eye(), brain.senses, sim.sounds));
    SeenIsNoPrisoner(space, viewer, brain, sim.relationships, candidates, heard.actor.origin, prisoners);
    var enemy := ChosenEnemy(brain, heard.actor.origin, look);
    AcquiresTraced(space, entity, prisoner, brain, known, sim.squads, enemy, heard, dt, prisoners, hurt);
    var acquired := Acquired(space, entity, prisoner, brain, known, sim.squads, enemy, heard, dt).0;
    StruckTraced(space, entity, prisoner, brain, hurt, acquired, prisoners, slots.ai.value.memory);
    OwnThenOwn(entity, events, m.events, acquired.events);
    OwnThenOwn(entity, events, acquired.events,
               Concluded(Struck(space, entity, prisoner, brain, hurt, acquired)).events);
  }

  lemma ThinksTraced(
      space: Space, sim: Sim, entity: Entity, slots: Slots, brain: Brains.Brain, known: map<Entity, Seeable>, m: Mind,
      dt: real)
    ensures var after := Thought(space, sim, entity, slots, brain, known, m, dt);
            && after.slots.Thinks() && after.sim.squads == sim.squads && Own(entity, m.events, after.events)
            && after.slots == slots.(actor := after.slots.actor, ai := after.slots.ai)
            && (after.slots.ai.value.memory == m.ai.memory || after.slots.ai.value.memory == None)
  {
    hide Acted, Moved, Own, StageOf;
    var decided := Decided(entity, brain, m);
    var stage := StageOf(space, entity, brain, known, decided, dt, sim.tickCount);
    StageIs(space, entity, brain, known, decided, dt, sim.tickCount);
    var scheduled := Scheduled(entity, brain, decided);
    DecidesOwn(entity, brain, m);
    ActsTidily(stage, scheduled, sim.sounds, sim.rng);
    var body := Acted(stage, scheduled, sim.sounds, sim.rng).0;
    OwnThenOwn(entity, m.events, scheduled.events, body.events);
    MovedKeeps(space, body.actor, body.ai, dt);
  }

  lemma DecidesOwn(entity: Entity, brain: Brains.Brain, m: Mind)
    ensures Own(entity, m.events, Scheduled(entity, brain, Decided(entity, brain, m)).events)
  {
    var decided := Decided(entity, brain, m);
    OwnThenOwn(entity, m.events, decided.events, Scheduled(entity, brain, decided).events);
  }

  /** What any monster's tick does, whatever its brain: it reports only for
      itself, changes nothing about itself but its actor and its mind, and
      takes no prisoner for an enemy by sight or from its squad. */
  lemma EnemiesAreTraced(
      space: Space, sim: Sim, entity: Entity, slots: Slots, candidates: seq<Seeable>, known: map<Entity, Seeable>,
      events: seq<AiEvent>, dt: real, prisoners: iset<Entity>)
    requires slots.Thinks() && Flagged(candidates, prisoners) && NoneShared(sim.squads.squads, prisoners)
    ensures var after := TickedOne(space, sim, entity, slots, candidates, known, events, dt);
            && after.slots.Thinks() && Own(entity, events, after.events)
            && after.slots == slots.(actor := after.slots.actor, ai := after.slots.ai)
            && NoneShared(after.sim.squads.squads, prisoners)
            && Traced(prisoners, slots.ai.value.memory, HurtOf(sim.damage, entity), after.slots.ai.value.memory)
            && after.sim.damage == sim.damage && after.sim.brains == sim.brains
  {
    hide Sensed, Thought, HeldStill, Own, NoneShared, Flagged;
    if slots.ai.value.brain < |sim.brains| {
      var brain := sim.brains[slots.ai.value.brain];
      SensesTraced(space, sim, entity, slots, brain, candidates, known, events, dt, prisoners);
      var (m, squads) := Sensed(space, sim, entity, slots, brain, candidates, known, events, dt);
      var shared := sim.(squads := squads);
      if slots.held {
        HeldTraced(space, shared, slots, m, dt);
      } else {
        ThinksTraced(space, shared, entity, slots, brain, known, m, dt);
        OwnThenOwn(entity, events, m.events, Thought(space, shared, entity, slots, brain, known, m, dt).events);
        ThoughtKeepsWorld(space, shared, entity, slots, brain, known, m, dt);
      }
    } else {
      NothingIsOwn(entity, events);
    }
  }

  lemma NothingIsOwn(entity: Entity, events: seq<AiEvent>)
    ensures Own(entity, events, events)
  {
  }

  lemma HeldTraced(space: Space, sim: Sim, slots: Slots, m: Mind, dt: real)
    ensures var after := HeldStill(space, sim, slots, m, dt);
            && after.slots.Thinks() && after.sim == sim && after.events == m.events
            && after.slots == slots.(actor := after.slots.actor, ai := after.slots.ai)
            && after.slots.ai.value.memory == m.ai.memory
  {
    hide Moved;
    MovedKeeps(space, m.actor, m.ai.(runner := CLEARED), dt);
  }

  lemma ThoughtKeepsWorld(
      space: Space, sim: Sim, entity: Entity, slots: Slots, brain: Brains.Brain, known: map<Entity, Seeable>, m: Mind,
      dt: real)
    ensures var after := Thought(space, sim, entity, slots, brain, known, m, dt);
            after.sim == sim.(sounds := after.sim.sounds, rng := after.sim.rng)
  {
    hide Acted, Moved, Decided, Scheduled;
  }
}

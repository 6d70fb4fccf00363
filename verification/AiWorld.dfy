/** The fixed-tick world: every monster senses, remembers, decides, runs its
    schedule and moves, over a snapshot taken before the first one moves. */
module AiTick {
  import opened Wrappers
  import opened Geometry
  import opened MonsterStates
  import opened Schedules
  import opened Senses
  import opened Sequences
  import opened Steps
  import Brains
  import Ordering
  import Pcg32
  import Squads
  import Turning

  const TURN_RATE: real := 300.0
  const COVER_DISTANCE: real := 320.0
  const WAYPOINT_TOLERANCE: real := 8.0
  const MIN_WANDER_LEG: real := 16.0
  const STUCK_TICKS: nat := 25
  const STUCK_EPSILON: real := 0.5
  const STUCK_PROGRESS_FRACTION: real := 0.4
  const MAX_STUCK: nat := 0xFFFF_FFFF
  const MAX_EVENTS_PER_TICK: nat := 4096

  // ---- What is in the world ----

  datatype Actor = Actor(
    classification: Classification,
    origin: Vec3,
    viewOfs: Vec3,
    yaw: real,
    health: real,
    alive: bool,
    isClient: bool,
    hull: nat)

  datatype Route = Route(waypoints: seq<Vec3>, current: nat, goal: Vec3) {
    predicate IsFinished() {
      current >= |waypoints|
    }
  }

  const NO_ROUTE: Route := Route([], 0, ZERO)

  datatype MonsterAi = MonsterAi(
    brain: nat,
    state: MonsterState,
    conditions: Conditions,
    runner: Runner,
    memory: Option<EnemyMemory>,
    route: Route,
    moveTarget: Option<Vec3>,
    cover: Option<Vec3>,
    activity: Activity,
    moveSpeed: real,
    idealYaw: real,
    stuck: nat,
    pending: Conditions)
  {
    predicate IsStuck() {
      stuck >= STUCK_TICKS
    }
  }

  datatype SquadTag = SquadTag(name: string, leader: bool)

  /** The components of one entity. */
  datatype Slots = Slots(
    actor: Option<Actor>,
    ai: Option<MonsterAi>,
    prisoner: bool,
    impervious: bool,
    tag: Option<SquadTag>,
    held: bool)
  {
    predicate Thinks() {
      actor.Some? && ai.Some?
    }
  }

  type World = map<Entity, Slots>

  datatype AttackKind = Melee1 | Melee2 | Range1 | Range2

  datatype EventKind =
    | StateChanged(from: MonsterState, to: MonsterState)
    | ScheduleStarted(name: string)
    | ScheduleEnded(ended: string, outcome: RunOutcome)
    | EnemyAcquired(enemy: Entity)
    | EnemyLost
    | Attack(attack: AttackKind, target: Option<Entity>)
    | Reloaded
    | SequencePlayed(sequence: string)
    | ActivityChanged(activity: Activity)
    | SoundEmitted(sound: SoundKind)
    | Died

  datatype AiEvent = AiEvent(entity: Entity, kind: EventKind)

  /** What a tick's damage to one monster comes to. */
  datatype Hurt = Hurt(total: real, attacker: Option<Entity>, position: Vec3, provokes: bool)

  /** The damage done since the last tick, summed up for each monster hurt. */
  type Damage = map<Entity, Hurt>

  function HurtOf(damage: Damage, entity: Entity): Option<Hurt> {
    if entity in damage then Some(damage[entity]) else None
  }

  /** Everything that is not per entity. */
  datatype Sim = Sim(
    brains: seq<Brains.Brain>,
    relationships: RelationshipTable,
    sounds: seq<SoundEvent>,
    damage: Damage,
    squads: Squads.Roster,
    rng: Pcg32.Generator,
    tickCount: nat)

  // ---- Carrying out tasks ----

  /** What stays fixed while a monster carries out its task. */
  datatype Stage = Stage(
    entity: Entity,
    brain: Brains.Brain,
    space: Space,
    enemy: Option<Entity>,
    enemyPosition: Option<Vec3>,
    lastKnown: Option<Vec3>,
    dt: real,
    tickCount: nat)

  /** What it may change. */
  datatype Body = Body(actor: Actor, ai: MonsterAi, sounds: seq<SoundEvent>, events: seq<AiEvent>)

  function Or<T>(a: Option<T>, b: Option<T>): Option<T> {
    if a.Some? then a else b
  }

  /** An event reported while tasks are carried out; it is dropped when the
      tick has reported too many. */
  function Emit(entity: Entity, b: Body, kind: EventKind): Body {
    if |b.events| < MAX_EVENTS_PER_TICK then b.(events := b.events + [AiEvent(entity, kind)]) else b
  }

  function Turn(stage: Stage, b: Body): (Body, TaskStatus) {
    var (yaw, arrived) := Turning.TurnToward(b.actor.yaw, b.ai.idealYaw, TURN_RATE * stage.dt);
    var close := Turning.Abs(Turning.Normalized(b.ai.idealYaw - yaw)) <= Turning.FACING_TOLERANCE;
    (b.(actor := b.actor.(yaw := yaw)), if arrived || close then Complete else Ongoing)
  }

  function StartFacing(stage: Stage, b: Body, target: Option<Vec3>): (Body, TaskStatus) {
    match target
    case None => (b, Failed)
    case Some(position) =>
      match stage.space.yawToward(b.actor.origin, position)
      case None => (b, Complete)
      case Some(yaw) => Turn(stage, b.(ai := b.ai.(idealYaw := yaw)))
  }

  function StartRoute(stage: Stage, b: Body, goal: Option<Vec3>, within: real): (Body, TaskStatus) {
    match goal
    case None => (b, Failed)
    case Some(end) =>
      var delta := end.Minus(b.actor.origin).Flat();
      var length := stage.space.length(delta);
      var stop := if within > 0.0 && length > within then end.Minus(delta.Times(within / length)) else end;
      (b.(ai := b.ai.(moveTarget := Some(stop), route := Route([stop], 0, stop), stuck := 0)), Complete)
  }

  function FindCoverFrom(stage: Stage, b: Body, threat: Option<Vec3>): (Body, TaskStatus) {
    match threat
    case None => (b, Failed)
    case Some(position) =>
      var away := b.actor.origin.Minus(position).Flat();
      var length := stage.space.length(away);
      var direction := if length > EPSILON then away.Times(1.0 / length) else stage.space.forward(b.actor.yaw);
      var goal := b.actor.origin.Plus(direction.Times(COVER_DISTANCE));
      (b.(ai := b.ai.(cover := Some(stage.space.reach(b.actor.hull, b.actor.origin, goal)))), Complete)
  }

  /** A direction drawn for this monster and this tick, from a generator of its
      own rather than from the world's. */
  function WanderYaw(stage: Stage): real {
    Pcg32.Range(Pcg32.Seeded(stage.tickCount % Pcg32.M64, stage.entity.id % Pcg32.M64), -180.0, 180.0).0
  }

  function WanderOff(stage: Stage, b: Body, distance: real): (Body, TaskStatus) {
    if distance <= 0.0 then (b, Failed)
    else
      var origin := b.actor.origin;
      var drawn := origin.Plus(stage.space.forward(WanderYaw(stage)).Times(distance));
      var goal := stage.space.walkable(b.actor.hull, origin, drawn);
      if stage.space.length(goal.Minus(origin).Flat()) < MIN_WANDER_LEG then (b, Failed)
      else StartRoute(stage, b.(ai := b.ai.(moveTarget := Some(goal))), Some(goal), 0.0)
  }

  function SetPathSpeed(b: Body, speed: real): (Body, TaskStatus) {
    if b.ai.route.IsFinished() then (b, Failed)
    else (b.(ai := b.ai.(moveSpeed := speed, stuck := 0)), Complete)
  }

  function AwaitMovement(b: Body): (Body, TaskStatus) {
    (b, if b.ai.route.IsFinished() then Complete else if b.ai.IsStuck() then Failed else Ongoing)
  }

  function Strike(stage: Stage, b: Body, kind: AttackKind): (Body, TaskStatus) {
    (Emit(stage.entity, b, Attack(kind, stage.enemy)), Complete)
  }

  function BeginTask(stage: Stage, b: Body, task: Task): (Body, TaskStatus) {
    match task
    case Wait(_) => (b, Complete)
    case WaitRandom(_, _) => (b, Complete)
    case WaitForMovement => AwaitMovement(b)
    case FaceEnemy => StartFacing(stage, b, Or(stage.enemyPosition, stage.lastKnown))
    case FaceTarget => StartFacing(stage, b, b.ai.moveTarget)
    case FaceLastKnownPosition => StartFacing(stage, b, Or(stage.lastKnown, b.ai.moveTarget))
    case MoveToEnemy(within) => StartRoute(stage, b, Or(stage.enemyPosition, stage.lastKnown), within)
    case MoveToTarget(within) => StartRoute(stage, b, b.ai.moveTarget, within)
    case MoveToLastKnownPosition => StartRoute(stage, b, stage.lastKnown, 0.0)
    case MoveToNode(_) => (b, Failed)
    case RunPath => SetPathSpeed(b, stage.brain.runSpeed)
    case WalkPath => SetPathSpeed(b, stage.brain.walkSpeed)
    case StopMoving => (b.(ai := b.ai.(moveSpeed := 0.0, route := NO_ROUTE, stuck := 0)), Complete)
    case PlaySequence(name) => (Emit(stage.entity, b, SequencePlayed(name)), Complete)
    case SetActivity(activity) =>
      if b.ai.activity == activity then (b, Complete)
      else (Emit(stage.entity, b.(ai := b.ai.(activity := activity)), ActivityChanged(activity)), Complete)
    case FindCover => FindCoverFrom(stage, b, Or(Or(stage.enemyPosition, stage.lastKnown), b.ai.moveTarget))
    case TakeCover => StartRoute(stage, b, b.ai.cover, 0.0)
    case MeleeAttack1 => Strike(stage, b, Melee1)
    case MeleeAttack2 => Strike(stage, b, Melee2)
    case RangeAttack1 => Strike(stage, b, Range1)
    case RangeAttack2 => Strike(stage, b, Range2)
    case Reload => (Emit(stage.entity, b, Reloaded), Complete)
    case EmitSound(kind, radius) =>
      var sound := SoundEvent(kind, b.actor.origin, radius, Some(stage.entity), 0.1);
      (Emit(stage.entity, b.(sounds := Pushed(b.sounds, sound)), SoundEmitted(kind)), Complete)
    case SetState(state) =>
      if b.ai.state == state then (b, Complete)
      else (Emit(stage.entity, b.(ai := b.ai.(state := state)), StateChanged(b.ai.state, state)), Complete)
    case ClearEnemy =>
      if b.ai.memory.None? then (b, Complete)
      else (Emit(stage.entity, b.(ai := b.ai.(memory := None)), EnemyLost), Complete)
    case Die =>
      var dead := b.(actor := b.actor.(alive := false, health := 0.0), ai := b.ai.(moveSpeed := 0.0));
      (Emit(stage.entity, dead, Died), Complete)
    case Fail => (b, Failed)
    case Wander(distance) => WanderOff(stage, b, distance)
  }

  function ResumeTask(stage: Stage, b: Body, task: Task): (Body, TaskStatus) {
    match task
    case WaitForMovement => AwaitMovement(b)
    case FaceEnemy => Turn(stage, b)
    case FaceTarget => Turn(stage, b)
    case FaceLastKnownPosition => Turn(stage, b)
    case _ => (b, Complete)
  }

  function ExecutorOf(stage: Stage): Executor<Body> {
    Executor((b, task) => BeginTask(stage, b, task), (b, task, dt) => ResumeTask(stage, b, task))
  }

  // ---- Following a route ----

  function Advanced(space: Space, actor: Actor, ai: MonsterAi, dt: real): (Actor, MonsterAi, real) {
    if ai.moveSpeed <= 0.0 || ai.route.IsFinished() then (actor, ai, 0.0)
    else
      var waypoint := ai.route.waypoints[ai.route.current];
      var (position, distance) := space.step(actor.hull, actor.origin, waypoint, ai.moveSpeed, dt);
      var yaw := match space.yawToward(position, waypoint)
        case None => actor.yaw
        case Some(toward) => Turning.TurnToward(actor.yaw, toward, TURN_RATE * dt).0;
      var reached := space.length(waypoint.Minus(position).Flat()) <= WAYPOINT_TOLERANCE;
      var route := if reached then ai.route.(current := ai.route.current + 1) else ai.route;
      (actor.(origin := position, yaw := yaw),
       ai.(route := route, moveSpeed := if route.IsFinished() then 0.0 else ai.moveSpeed),
       distance)
  }

  function Recorded(stuck: nat, distance: real, step: real): nat {
    var threshold :=
      if step > 0.0 && STUCK_PROGRESS_FRACTION * step < STUCK_EPSILON then STUCK_PROGRESS_FRACTION * step
      else STUCK_EPSILON;
    if distance >= threshold then 0 else Min(stuck + 1, MAX_STUCK)
  }

  /** How far a monster gets in a tick with nothing in its way. */
  function StepSize(speed: real, dt: real): real {
    speed * dt
  }

  /** The movement at the end of a monster's tick. */
  function Moved(space: Space, actor: Actor, ai: MonsterAi, dt: real): (Actor, MonsterAi) {
    var step := StepSize(ai.moveSpeed, dt);
    var (there, after, distance) := Advanced(space, actor, ai, dt);
    if after.moveSpeed > 0.0 then
      var stuck := Recorded(after.stuck, distance, step);
      var counted := after.(stuck := stuck);
      (there, if counted.IsStuck() then counted.(pending := counted.pending + {Blocked}) else counted)
    else (there, after.(stuck := 0))
  }

  // ---- One monster's tick, step by step ----

  /** A monster in the middle of its tick. */
  datatype Mind = Mind(actor: Actor, ai: MonsterAi, conditions: Conditions, events: seq<AiEvent>)

  function Reported(entity: Entity, m: Mind, kind: EventKind): Mind {
    m.(events := m.events + [AiEvent(entity, kind)])
  }

  /** The conditions carried over, and the death of a monster without health. */
  function Woken(entity: Entity, actor: Actor, ai: MonsterAi, events: seq<AiEvent>): Mind {
    var m := Mind(actor, ai.(pending := {}), ai.pending, events);
    if actor.alive && actor.health > 0.0 then m
    else
      var dead := m.(actor := actor.(alive := false));
      if ai.state.Dead? then dead
      else Reported(entity, dead.(ai := dead.ai.(state := Dead)), StateChanged(ai.state, Dead))
  }

  /** A prisoner drops an enemy and an attack it came with. */
  function Disarmed(entity: Entity, prisoner: bool, m: Mind): Mind {
    if !prisoner then m
    else
      var calm := if m.ai.memory.None? then m else Reported(entity, m.(ai := m.ai.(memory := None)), EnemyLost);
      if calm.ai.runner.schedule.Some? && Brains.Attacking(calm.ai.runner.schedule.value)
      then calm.(ai := calm.ai.(runner := CLEARED)) else calm
  }

  function ViewerOf(space: Space, entity: Entity, actor: Actor, prisoner: bool): Viewer {
    Viewer(entity, actor.origin, actor.viewOfs, space.forward(actor.yaw), actor.classification, prisoner)
  }

  function Heard(m: Mind, look: LookResult, heard: ListenResult): Mind {
    var ai := if heard.best.Some? then m.ai.(moveTarget := Some(heard.best.value.position)) else m.ai;
    m.(ai := ai, conditions := m.conditions + look.conditions + heard.conditions)
  }

  function InReach(brain: Brains.Brain, origin: Vec3, visible: seq<Sighting>): seq<Sighting> {
    if visible == [] then []
    else
      var n := |visible| - 1;
      InReach(brain, origin, visible[..n])
      + if brain.meleeInReach(origin, visible[n].origin, visible[n].distance) then [visible[n]] else []
  }

  /** The enemy that sight chooses, or for a monster that attacks only one
      place the one that is there. */
  function ChosenEnemy(brain: Brains.Brain, origin: Vec3, look: LookResult): Option<Sighting> {
    if brain.hasMelee && brain.choosesEnemyInReach then
      Or(SelectEnemy(InReach(brain, origin, look.visible)), look.enemy)
    else look.enemy
  }

  function SeesEnemyNow(entity: Entity, brain: Brains.Brain, m: Mind, seen: Sighting): Mind {
    var isNew := m.ai.memory.None? || m.ai.memory.value.entity != seen.entity;
    var told := if isNew then Reported(entity, m, EnemyAcquired(seen.entity)) else m;
    var conditions :=
      m.conditions
      + (if isNew then {NewEnemy} else {})
      + (if seen.facingViewer then {EnemyFacingMe} else {})
      + (if brain.hasMelee && brain.meleeInReach(m.actor.origin, seen.origin, seen.distance)
         then {CanMeleeAttack1} else {})
      + (if brain.hasRange && seen.distance <= brain.rangeAttackRange then {CanRangeAttack1} else {});
    told.(ai := m.ai.(memory := Some(SeenMemory(seen))), conditions := conditions)
  }

  function Forgets(entity: Entity, m: Mind, why: Conditions): Mind {
    Reported(entity, m.(ai := m.ai.(memory := None), conditions := m.conditions + why), EnemyLost)
  }

  function LosesSight(
      space: Space, entity: Entity, brain: Brains.Brain, known: map<Entity, Seeable>, m: Mind, dt: real): Mind
    requires m.ai.memory.Some?
  {
    var memory := m.ai.memory.value;
    if memory.entity !in known || !known[memory.entity].alive then Forgets(entity, m, {EnemyDead})
    else
      var distance := space.length(known[memory.entity].origin.Minus(m.actor.origin));
      var occluded := Occluded(memory, dt, Some(distance));
      var why := {EnemyOccluded} + if distance > brain.senses.lookDistance then {EnemyTooFar} else {};
      if occluded.lastKnownDistance <= OCCLUDED_MEMORY_DISTANCE then
        m.(ai := m.ai.(memory := Some(occluded)), conditions := m.conditions + why)
      else Forgets(entity, m, why)
  }

  function ToldOf(space: Space, m: Mind, enemy: Entity, position: Vec3): Mind {
    m.(ai := m.ai.(memory :=
         Some(EnemyMemory(enemy, position, 0.0, true, space.length(position.Minus(m.actor.origin))))))
  }

  function JoinsSquad(
      space: Space, entity: Entity, known: map<Entity, Seeable>, m: Mind, shared: Option<(Entity, Vec3)>): Mind
  {
    if shared.None? || shared.value.0 == entity || shared.value.0 !in known || !known[shared.value.0].alive then m
    else
      var told := ToldOf(space, m, shared.value.0, shared.value.1);
      Reported(entity, told.(conditions := m.conditions + {NewEnemy, EnemyOccluded}), EnemyAcquired(shared.value.0))
  }

  /** Enemy acquisition and memory. */
  function Acquired(
      space: Space, entity: Entity, prisoner: bool, brain: Brains.Brain, known: map<Entity, Seeable>,
      squads: Squads.Roster, enemy: Option<Sighting>, m: Mind, dt: real)
    : (Mind, Squads.Roster)
  {
    if enemy.Some? then
      (SeesEnemyNow(entity, brain, m, enemy.value),
       squads.(squads := Squads.Shared(squads.squads, entity, enemy.value.entity, enemy.value.origin)))
    else if m.ai.memory.Some? then (LosesSight(space, entity, brain, known, m, dt), squads)
    else
      (JoinsSquad(space, entity, known, m, if prisoner then None else Squads.SharedEnemy(squads.squads, entity)),
       squads)
  }

  /** The damage of the tick. */
  function Struck(
      space: Space, entity: Entity, prisoner: bool, brain: Brains.Brain, hurt: Option<Hurt>, m: Mind): Mind
  {
    match hurt
    case None => m
    case Some(h) =>
      var felt := m.(conditions :=
        m.conditions + (if h.total >= brain.heavyDamageThreshold then {HeavyDamage} else {LightDamage})
        + if h.provokes then {Provoked} else {});
      if m.ai.memory.None? && !prisoner && h.attacker.Some? && h.attacker.value != entity then
        Reported(entity, ToldOf(space, felt, h.attacker.value, h.position), EnemyAcquired(h.attacker.value))
      else felt
  }

  /** The conditions of the tick, all together. */
  function Concluded(m: Mind): Mind {
    var conditions := m.conditions + if m.ai.IsStuck() then {Blocked} else {};
    m.(conditions := conditions, ai := m.ai.(conditions := conditions))
  }

  function Decided(entity: Entity, brain: Brains.Brain, m: Mind): Mind {
    var next := brain.nextState(m.ai.state, m.conditions);
    if next == m.ai.state then m
    else Reported(entity, m.(ai := m.ai.(state := next)), StateChanged(m.ai.state, next))
  }

  function PositionOf(known: map<Entity, Seeable>, memory: Option<EnemyMemory>): Option<Vec3> {
    if memory.Some? && memory.value.entity in known then Some(known[memory.value.entity].origin) else None
  }

  function StageOf(
      space: Space, entity: Entity, brain: Brains.Brain, known: map<Entity, Seeable>, m: Mind, dt: real,
      tickCount: nat): Stage
  {
    Stage(entity, brain, space,
          if m.ai.memory.Some? then Some(m.ai.memory.value.entity) else None,
          PositionOf(known, m.ai.memory),
          if m.ai.memory.Some? then Some(m.ai.memory.value.lastKnownPosition) else None,
          dt, tickCount)
  }

  /** A runner that has no schedule is given one. */
  function Scheduled(entity: Entity, brain: Brains.Brain, m: Mind): (after: Mind)
    ensures after.ai.runner.schedule.Some?
  {
    if m.ai.runner.schedule.Some? then m
    else
      var schedule := brain.selectSchedule(m.ai.state, m.conditions);
      Reported(entity, m.(ai := m.ai.(runner := Begun(schedule))), ScheduleStarted(schedule.name))
  }

  /** A schedule that has stopped is reported and replaced at once. */
  function Replaced(
      entity: Entity, brain: Brains.Brain, name: string, outcome: RunOutcome, conditions: Conditions, b: Body): Body
  {
    if !outcome.NeedsNewSchedule() then b
    else
      var ended := if outcome.Nothing? then b.events else b.events + [AiEvent(entity, ScheduleEnded(name, outcome))];
      var schedule := brain.selectSchedule(b.ai.state, conditions + outcome.Adds());
      b.(ai := b.ai.(runner := Begun(schedule)), events := ended + [AiEvent(entity, ScheduleStarted(schedule.name))])
  }

  /** The schedule's tick. */
  function Acted(
      stage: Stage, m: Mind, sounds: seq<SoundEvent>, rng: Pcg32.Generator): (Body, Pcg32.Generator)
    requires m.ai.runner.schedule.Some?
  {
    var runner := m.ai.runner;
    var (body, answer) :=
      Answered(runner, stage.dt, m.conditions, ExecutorOf(stage), Body(m.actor, m.ai, sounds, m.events));
    var ticked := Tick(runner, stage.dt, m.conditions, rng, answer);
    (Replaced(stage.entity, stage.brain, runner.schedule.value.name, ticked.outcome, m.conditions,
              body.(ai := body.ai.(runner := ticked.runner))),
     ticked.generator)
  }

  // ---- One monster's tick ----

  /** Everything up to the decision: what it is, what it notices and what it
      remembers. */
  function Sensed(
      space: Space, sim: Sim, entity: Entity, slots: Slots, brain: Brains.Brain, candidates: seq<Seeable>,
      known: map<Entity, Seeable>, events: seq<AiEvent>, dt: real): (Mind, Squads.Roster)
    requires slots.Thinks()
  {
    var prisoner := slots.prisoner;
    var m := Disarmed(entity, prisoner, Woken(entity, slots.actor.value, slots.ai.value, events));
    var viewer := ViewerOf(space, entity, m.actor, prisoner);
    var look := Looked(space, viewer, brain.senses, sim.relationships, candidates);
    var heard := Heard(m, look, Listened(space, viewer.Eye(), brain.senses, sim.sounds));
    var enemy := ChosenEnemy(brain, heard.actor.origin, look);
    var (acquired, squads) := Acquired(space, entity, prisoner, brain, known, sim.squads, enemy, heard, dt);
    (Concluded(Struck(space, entity, prisoner, brain, HurtOf(sim.damage, entity), acquired)), squads)
  }

  datatype Outcome = Outcome(sim: Sim, slots: Slots, events: seq<AiEvent>)

  /** A monster a script holds keeps its schedule cleared and only moves. */
  function HeldStill(space: Space, sim: Sim, slots: Slots, m: Mind, dt: real): Outcome {
    var (actor, ai) := Moved(space, m.actor, m.ai.(runner := CLEARED), dt);
    Outcome(sim, slots.(actor := Some(actor), ai := Some(ai)), m.events)
  }

  function Thought(
      space: Space, sim: Sim, entity: Entity, slots: Slots, brain: Brains.Brain, known: map<Entity, Seeable>,
      m: Mind, dt: real): Outcome
  {
    var decided := Decided(entity, brain, m);
    var stage := StageOf(space, entity, brain, known, decided, dt, sim.tickCount);
    var scheduled := Scheduled(entity, brain, decided);
    var (body, rng) := Acted(stage, scheduled, sim.sounds, sim.rng);
    var (actor, ai) := Moved(space, body.actor, body.ai, dt);
    Outcome(sim.(sounds := body.sounds, rng := rng), slots.(actor := Some(actor), ai := Some(ai)), body.events)
  }

  /** One monster's whole tick; without a registered brain it is left alone. */
  function TickedOne(
      space: Space, sim: Sim, entity: Entity, slots: Slots, candidates: seq<Seeable>, known: map<Entity, Seeable>,
      events: seq<AiEvent>, dt: real): Outcome
    requires slots.Thinks()
  {
    if slots.ai.value.brain >= |sim.brains| then Outcome(sim, slots, events)
    else
      var brain := sim.brains[slots.ai.value.brain];
      var (m, squads) := Sensed(space, sim, entity, slots, brain, candidates, known, events, dt);
      var shared := sim.(squads := squads);
      if slots.held then HeldStill(space, shared, slots, m, dt)
      else Thought(space, shared, entity, slots, brain, known, m, dt)
  }

  // ---- The whole tick ----

  /** The answers of the entity store to a tick's three queries: everything
      that can be seen, every monster with a squad tag, and everything that
      thinks. Each comes in an order of the store's own. */
  datatype Queries = Queries(seen: seq<Entity>, tagged: seq<Entity>, thinking: seq<Entity>)

  /** Live entities have distinct slots. */
  ghost predicate DistinctSlots(world: World) {
    forall e, f | e in world && f in world && e.id == f.id :: e == f
  }

  ghost predicate Lists(listing: seq<Entity>, what: iset<Entity>) {
    Distinct(listing) && forall e :: e in listing <==> e in what
  }

  predicate IsTagged(slots: Slots) {
    slots.ai.Some? && slots.tag.Some?
  }

  ghost predicate Answers(world: World, q: Queries) {
    && Lists(q.seen, iset e | e in world && world[e].actor.Some?)
    && Lists(q.tagged, iset e | e in world && IsTagged(world[e]))
    && Lists(q.thinking, iset e | e in world && world[e].Thinks())
  }

  function SeeableOf(space: Space, entity: Entity, slots: Slots): Seeable
    requires slots.actor.Some?
  {
    var actor := slots.actor.value;
    Seeable(entity, actor.classification, actor.origin, actor.viewOfs, space.forward(actor.yaw), actor.alive,
            actor.isClient, slots.prisoner, slots.impervious)
  }

  function Values<T>(rows: seq<Ordering.Row<T>>): seq<T> {
    seq(|rows|, i requires 0 <= i < |rows| => rows[i].value)
  }

  function SeenRows(space: Space, world: World, listing: seq<Entity>): seq<Ordering.Row<Seeable>>
    requires forall e | e in listing :: e in world && world[e].actor.Some?
  {
    seq(|listing|, i requires 0 <= i < |listing| =>
      Ordering.Row(listing[i].id, SeeableOf(space, listing[i], world[listing[i]])))
  }

  function Snapshot(space: Space, world: World, listing: seq<Entity>): seq<Seeable>
    requires forall e | e in listing :: e in world && world[e].actor.Some?
  {
    Values(Ordering.Sorted(SeenRows(space, world, listing)))
  }

  function Known(candidates: seq<Seeable>): map<Entity, Seeable> {
    if candidates == [] then map[]
    else
      var n := |candidates| - 1;
      Known(candidates[..n])[candidates[n].entity := candidates[n]]
  }

  function OfferOf(entity: Entity, slots: Slots): Squads.Candidate
    requires IsTagged(slots)
  {
    Squads.Candidate(entity, slots.tag.value.name, slots.tag.value.leader)
  }

  function OfferRows(world: World, listing: seq<Entity>): seq<Ordering.Row<Squads.Candidate>>
    requires forall e | e in listing :: e in world && IsTagged(world[e])
  {
    if listing == [] then []
    else
      var n := |listing| - 1;
      assert listing[n] in listing;
      var offer := OfferOf(listing[n], world[listing[n]]);
      OfferRows(world, listing[..n]) + if offer.squadName == "" then [] else [Ordering.Row(listing[n].id, offer)]
  }

  function Offers(world: World, listing: seq<Entity>): seq<Squads.Candidate>
    requires forall e | e in listing :: e in world && IsTagged(world[e])
  {
    Values(Ordering.Sorted(OfferRows(world, listing)))
  }

  function ThinkingRows(listing: seq<Entity>): seq<Ordering.Row<Entity>> {
    seq(|listing|, i requires 0 <= i < |listing| => Ordering.Row(listing[i].id, listing[i]))
  }

  function Order(listing: seq<Entity>): seq<Entity> {
    Values(Ordering.Sorted(ThinkingRows(listing)))
  }

  /** What each squad's name last shared. */
  function Previous(squads: seq<Squads.Squad>): map<string, (Option<Entity>, Option<Vec3>)> {
    if squads == [] then map[]
    else
      var n := |squads| - 1;
      Previous(squads[..n])[squads[n].name := (squads[n].enemy, squads[n].enemyPosition)]
  }

  function Carried(squads: seq<Squads.Squad>, previous: map<string, (Option<Entity>, Option<Vec3>)>)
    : seq<Squads.Squad>
  {
    seq(|squads|, i requires 0 <= i < |squads| =>
      if squads[i].name in previous then
        squads[i].(enemy := previous[squads[i].name].0, enemyPosition := previous[squads[i].name].1)
      else squads[i])
  }

  /** The squads formed anew, each keeping what its name shared before. */
  function Rebuilt(squads: Squads.Roster, offers: seq<Squads.Candidate>): Squads.Roster {
    var built := Squads.Built(Squads.InTurn(offers));
    built.(squads := Carried(built.squads, Previous(squads.squads)))
  }

  datatype Whole = Whole(sim: Sim, world: World, events: seq<AiEvent>)

  /** One more monster of the tick. */
  function TickedNext(
      space: Space, w: Whole, entity: Entity, candidates: seq<Seeable>, known: map<Entity, Seeable>, dt: real): Whole
  {
    if entity !in w.world || !w.world[entity].Thinks() then w
    else
      var one := TickedOne(space, w.sim, entity, w.world[entity], candidates, known, w.events, dt);
      Whole(one.sim, w.world[entity := one.slots], one.events)
  }

  function TickedEach(
      space: Space, w: Whole, order: seq<Entity>, candidates: seq<Seeable>, known: map<Entity, Seeable>, dt: real)
    : Whole
  {
    if order == [] then w
    else
      var n := |order| - 1;
      TickedNext(space, TickedEach(space, w, order[..n], candidates, known, dt), order[n], candidates, known, dt)
  }

  function Closed(w: Whole, dt: real): Whole {
    var sim := w.sim.(
      sounds := Expired(w.sim.sounds, dt), damage := map[], tickCount := w.sim.tickCount + 1);
    Whole(sim, w.world,
          if |w.events| > MAX_EVENTS_PER_TICK then w.events[..MAX_EVENTS_PER_TICK] else w.events)
  }

  function TickedWorld(space: Space, sim: Sim, world: World, q: Queries, dt: real): Whole
    requires Answers(world, q)
  {
    var step := AtLeastZero(dt);
    var candidates := Snapshot(space, world, q.seen);
    var rebuilt := sim.(squads := Rebuilt(sim.squads, Offers(world, q.tagged)));
    Closed(TickedEach(space, Whole(rebuilt, world, []), Order(q.thinking), candidates, Known(candidates), step), step)
  }

  // ---- The world as the program holds it ----

  class AiWorld {
    const brains: seq<Brains.Brain>
    var relationships: RelationshipTable
    var sounds: seq<SoundEvent>
    var damage: Damage
    var squads: Squads.Roster
    var rng: Pcg32.Generator
    var tickCount: nat

    function Value(): Sim
      reads this
    {
      Sim(brains, relationships, sounds, damage, squads, rng, tickCount)
    }

    constructor (seed: Pcg32.U64, brains: seq<Brains.Brain>, relationships: RelationshipTable)
      ensures Value() == Sim(brains, relationships, [], map[], Squads.EMPTY,
                             Pcg32.Seeded(seed, Pcg32.DEFAULT_STREAM), 0)
    {
      this.brains, this.relationships := brains, relationships;
      sounds, damage, squads := [], map[], Squads.EMPTY;
      rng, tickCount := Pcg32.Seeded(seed, Pcg32.DEFAULT_STREAM), 0;
    }

    method RebuildSquads(offers: seq<Squads.Candidate>)
      modifies this`squads
      ensures squads == Rebuilt(old(squads), offers)
    {
      hide Squads.InTurn;
      var previous := PreviousShares();
      var rebuilt := new Squads.SquadRoster.Build(offers);
      var built := rebuilt.Value();
      var carried := built.squads;
      for i := 0 to |carried|
        invariant |carried| == |built.squads|
        invariant forall j | 0 <= j < i :: carried[j] == Carried(built.squads, previous)[j]
        invariant forall j | i <= j < |carried| :: carried[j] == built.squads[j]
      {
        var name := carried[i].name;
        if name in previous {
          carried := carried[i := carried[i].(enemy := previous[name].0, enemyPosition := previous[name].1)];
        }
      }
      squads := built.(squads := carried);
    }

    method PreviousShares() returns (previous: map<string, (Option<Entity>, Option<Vec3>)>)
      ensures previous == Previous(squads.squads)
    {
      previous := map[];
      for i := 0 to |squads.squads|
        invariant previous == Previous(squads.squads[..i])
      {
        assert squads.squads[..i + 1][..i] == squads.squads[..i];
        var squad := squads.squads[i];
        previous := previous[squad.name := (squad.enemy, squad.enemyPosition)];
      }
      assert squads.squads[..|squads.squads|] == squads.squads;
    }

    /** One monster's tick, in the order of its steps. */
    method TickOne(
        space: Space, entity: Entity, slots: Slots, candidates: seq<Seeable>, known: map<Entity, Seeable>,
        events: seq<AiEvent>, dt: real) returns (after: Slots, reported: seq<AiEvent>)
      requires slots.Thinks()
      modifies this`sounds, this`squads, this`rng
      ensures Outcome(Value(), after, reported)
              == TickedOne(space, old(Value()), entity, slots, candidates, known, events, dt)
    {
      hide Woken, Disarmed, Listened, Looked, ChosenEnemy, Acquired, Struck, Concluded, Heard;
      hide Decided, Scheduled, Answered, Tick, Replaced, Moved, ExecutorOf;
      if slots.ai.value.brain >= |brains| {
        return slots, events;
      }
      var brain := brains[slots.ai.value.brain];
      var m := Woken(entity, slots.actor.value, slots.ai.value, events);
      m := Disarmed(entity, slots.prisoner, m);
      var viewer := ViewerOf(space, entity, m.actor, slots.prisoner);
      var look := Look(space, viewer, brain.senses, relationships, candidates);
      var heard := Listen(space, viewer.Eye(), brain.senses, sounds);
      m := Heard(m, look, heard);
      var enemy := ChosenEnemy(brain, m.actor.origin, look);
      var acquired := Acquired(space, entity, slots.prisoner, brain, known, squads, enemy, m, dt);
      squads := acquired.1;
      m := Concluded(Struck(space, entity, slots.prisoner, brain, HurtOf(damage, entity), acquired.0));
      if slots.held {
        var held := Moved(space, m.actor, m.ai.(runner := CLEARED), dt);
        return slots.(actor := Some(held.0), ai := Some(held.1)), m.events;
      }
      m := Decided(entity, brain, m);
      var stage := StageOf(space, entity, brain, known, m, dt, tickCount);
      m := Scheduled(entity, brain, m);
      var runner := m.ai.runner;
      var answered := Answered(runner, dt, m.conditions, ExecutorOf(stage), Body(m.actor, m.ai, sounds, m.events));
      var ticked := Tick(runner, dt, m.conditions, rng, answered.1);
      rng := ticked.generator;
      var body := answered.0.(ai := answered.0.ai.(runner := ticked.runner));
      body := Replaced(entity, brain, runner.schedule.value.name, ticked.outcome, m.conditions, body);
      sounds := body.sounds;
      var moved := Moved(space, body.actor, body.ai, dt);
      after, reported := slots.(actor := Some(moved.0), ai := Some(moved.1)), body.events;
    }

    method TickWorld(space: Space, world: World, q: Queries, dt: real)
      returns (after: World, events: seq<AiEvent>)
      requires Answers(world, q)
      modifies this
      ensures Whole(Value(), after, events) == TickedWorld(space, old(Value()), world, q, dt)
    {
      hide Answers, TickedOne, Snapshot, Order, Offers, Rebuilt, Known, Expired;
      var step := if dt > 0.0 then dt else 0.0;
      AnswersListed(world, q);
      var candidates := Snapshot(space, world, q.seen);
      var known := Known(candidates);
      RebuildSquads(Offers(world, q.tagged));
      var order := Order(q.thinking);
      after, events := world, [];
      ghost var start := Whole(Value(), world, []);
      for i := 0 to |order|
        invariant damage == old(damage) && relationships == old(relationships) && tickCount == old(tickCount)
        invariant Whole(Value(), after, events) == TickedEach(space, start, order[..i], candidates, known, step)
      {
        assert order[..i + 1][..i] == order[..i];
        var entity := order[i];
        if entity in after && after[entity].Thinks() {
          var slots;
          slots, events := TickOne(space, entity, after[entity], candidates, known, events, step);
          after := after[entity := slots];
        }
      }
      assert order[..|order|] == order;
      sounds := Expired(sounds, step);
      damage := map[];
      tickCount := tickCount + 1;
      if |events| > MAX_EVENTS_PER_TICK {
        events := events[..MAX_EVENTS_PER_TICK];
      }
    }
  }

  lemma AnswersListed(world: World, q: Queries)
    requires Answers(world, q)
    ensures forall e | e in q.seen :: e in world && world[e].actor.Some?
    ensures forall e | e in q.tagged :: e in world && IsTagged(world[e])
  {
  }
}

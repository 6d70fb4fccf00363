/** How much of a world decides its next tick, and how much of that its digest
    is fed. */
module Replays {
  import opened Wrappers
  import opened Geometry
  import opened MonsterStates
  import opened Schedules
  import opened Senses
  import opened Steps
  import opened AiTick
  import opened Determinism
  import opened Prisoners
  import opened WorldRuns
  import Brains
  import Ordering
  import Pcg32
  import Squads
  import Turning

  // ---- Minds that nothing tells apart ----

  ghost predicate SameMemory(a: Option<EnemyMemory>, b: Option<EnemyMemory>) {
    && a.Some? == b.Some?
    && (a.Some? ==> a.value.entity == b.value.entity && a.value.lastKnownPosition == b.value.lastKnownPosition &&
                    a.value.occluded == b.value.occluded)
  }

  /** Minds that differ at most in how long ago and how far away the enemy was,
      and in where the route was meant to end. */
  ghost predicate SameAi(a: MonsterAi, b: MonsterAi) {
    && a.brain == b.brain && a.state == b.state && a.conditions == b.conditions && a.pending == b.pending
    && a.runner == b.runner && a.moveTarget == b.moveTarget && a.cover == b.cover && a.activity == b.activity
    && a.moveSpeed == b.moveSpeed && a.idealYaw == b.idealYaw && a.stuck == b.stuck && SameMemory(a.memory, b.memory)
    && a.route.waypoints == b.route.waypoints && a.route.current == b.route.current
  }

  ghost predicate SameMind(m: Mind, n: Mind) {
    m.actor == n.actor && SameAi(m.ai, n.ai) && m.conditions == n.conditions && m.events == n.events
  }

  ghost predicate SameBody(b: Body, c: Body) {
    b.actor == c.actor && SameAi(b.ai, c.ai) && b.sounds == c.sounds && b.events == c.events
  }

  ghost predicate SameSlots(s: Slots, t: Slots) {
    s == t.(ai := s.ai) && s.ai.Some? == t.ai.Some? && (s.ai.Some? ==> SameAi(s.ai.value, t.ai.value))
  }

  ghost predicate SameWorld(a: World, b: World) {
    a.Keys == b.Keys && forall e | e in a :: SameSlots(a[e], b[e])
  }

  // ---- Sensing ----

  lemma WakesAlike(entity: Entity, prisoner: bool, actor: Actor, a: MonsterAi, b: MonsterAi, events: seq<AiEvent>)
    requires SameAi(a, b)
    ensures SameMind(Disarmed(entity, prisoner, Woken(entity, actor, a, events)),
                     Disarmed(entity, prisoner, Woken(entity, actor, b, events)))
  {
    hide Brains.Attacking, Woken, Disarmed, SameMind;
    WokenAlike(entity, actor, a, b, events);
    DisarmedAlike(entity, prisoner, Woken(entity, actor, a, events), Woken(entity, actor, b, events));
  }

  lemma WokenAlike(entity: Entity, actor: Actor, a: MonsterAi, b: MonsterAi, events: seq<AiEvent>)
    requires SameAi(a, b)
    ensures SameMind(Woken(entity, actor, a, events), Woken(entity, actor, b, events))
  {
  }

  lemma DisarmedAlike(entity: Entity, prisoner: bool, m: Mind, n: Mind)
    requires SameMind(m, n)
    ensures SameMind(Disarmed(entity, prisoner, m), Disarmed(entity, prisoner, n))
  {
    hide Brains.Attacking;
  }

  lemma HearsAlike(m: Mind, n: Mind, look: LookResult, heard: ListenResult)
    requires SameMind(m, n)
    ensures SameMind(Heard(m, look, heard), Heard(n, look, heard))
  {
  }

  lemma AcquiresAlike(
      space: Space, entity: Entity, prisoner: bool, brain: Brains.Brain, known: map<Entity, Seeable>,
      squads: Squads.Roster, enemy: Option<Sighting>, m: Mind, n: Mind, dt: real)
    requires SameMind(m, n)
    ensures var (a, left) := Acquired(space, entity, prisoner, brain, known, squads, enemy, m, dt);
            var (b, right) := Acquired(space, entity, prisoner, brain, known, squads, enemy, n, dt);
            SameMind(a, b) && left == right
  {
    hide Squads.Shared, Squads.SharedEnemy;
  }

  lemma StruckAlike(
      space: Space, entity: Entity, prisoner: bool, brain: Brains.Brain, hurt: Option<Hurt>, m: Mind, n: Mind)
    requires SameMind(m, n)
    ensures SameMind(Concluded(Struck(space, entity, prisoner, brain, hurt, m)),
                     Concluded(Struck(space, entity, prisoner, brain, hurt, n)))
  {
  }

  lemma SensesAlike(
      space: Space, sim: Sim, entity: Entity, s: Slots, t: Slots, brain: Brains.Brain, candidates: seq<Seeable>,
      known: map<Entity, Seeable>, events: seq<AiEvent>, dt: real)
    requires SameSlots(s, t) && s.Thinks()
    ensures var (a, left) := Sensed(space, sim, entity, s, brain, candidates, known, events, dt);
            var (b, right) := Sensed(space, sim, entity, t, brain, candidates, known, events, dt);
            SameMind(a, b) && left == right
  {
    hide Looked, Listened, ChosenEnemy, Woken, Disarmed, Acquired, Struck, Concluded, Heard, SameAi;
    var prisoner, hurt := s.prisoner, HurtOf(sim.damage, entity);
    WakesAlike(entity, prisoner, s.actor.value, s.ai.value, t.ai.value, events);
    var m := Disarmed(entity, prisoner, Woken(entity, s.actor.value, s.ai.value, events));
    var n := Disarmed(entity, prisoner, Woken(entity, s.actor.value, t.ai.value, events));
    var viewer := ViewerOf(space, entity, m.actor, prisoner);
    var look := Looked(space, viewer, brain.senses, sim.relationships, candidates);
    var heard := Listened(space, viewer.Eye(), brain.senses, sim.sounds);
    HearsAlike(m, n, look, heard);
    m, n := Heard(m, look, heard), Heard(n, look, heard);
    var enemy := ChosenEnemy(brain, m.actor.origin, look);
    AcquiresAlike(space, entity, prisoner, brain, known, sim.squads, enemy, m, n, dt);
    StruckAlike(space, entity, prisoner, brain, hurt,
                Acquired(space, entity, prisoner, brain, known, sim.squads, enemy, m, dt).0,
                Acquired(space, entity, prisoner, brain, known, sim.squads, enemy, n, dt).0);
  }

  // ---- Deciding and acting ----

  lemma DecidesAlike(
      space: Space, entity: Entity, brain: Brains.Brain, known: map<Entity, Seeable>, m: Mind, n: Mind, dt: real,
      tickCount: nat)
    requires SameMind(m, n)
    ensures SameMind(Decided(entity, brain, m), Decided(entity, brain, n))
    ensures StageOf(space, entity, brain, known, m, dt, tickCount)
            == StageOf(space, entity, brain, known, n, dt, tickCount)
    ensures SameMind(Scheduled(entity, brain, m), Scheduled(entity, brain, n))
  {
  }

  lemma SameBodiesShow(b: Body, c: Body)
    requires SameBody(b, c)
    ensures b.actor == c.actor && b.sounds == c.sounds && b.events == c.events
    ensures b.ai.moveTarget == c.ai.moveTarget && b.ai.cover == c.ai.cover && b.ai.state == c.ai.state
    ensures b.ai.activity == c.ai.activity && b.ai.memory.None? == c.ai.memory.None?
    ensures b.ai.route.IsFinished() == c.ai.route.IsFinished() && b.ai.IsStuck() == c.ai.IsStuck()
  {
  }

  lemma EmitsAlike(entity: Entity, b: Body, c: Body, kind: EventKind)
    requires SameBody(b, c)
    ensures SameBody(Emit(entity, b, kind), Emit(entity, c, kind))
  {
    hide SameAi;
  }

  lemma FacesAlike(stage: Stage, b: Body, c: Body, target: Option<Vec3>)
    requires SameBody(b, c)
    ensures var (after, status) := Turn(stage, b);
            SameBody(after, Turn(stage, c).0) && status == Turn(stage, c).1
    ensures var (after, status) := StartFacing(stage, b, target);
            SameBody(after, StartFacing(stage, c, target).0) && status == StartFacing(stage, c, target).1
  {
    hide Turning.TurnToward, Turning.Normalized;
  }

  lemma RoutesAlike(stage: Stage, b: Body, c: Body, goal: Option<Vec3>, x: real)
    requires SameBody(b, c)
    ensures var (after, status) := StartRoute(stage, b, goal, x);
            SameBody(after, StartRoute(stage, c, goal, x).0) && status == StartRoute(stage, c, goal, x).1
  {
  }

  lemma CoversAlike(stage: Stage, b: Body, c: Body, threat: Option<Vec3>)
    requires SameBody(b, c)
    ensures var (after, status) := FindCoverFrom(stage, b, threat);
            SameBody(after, FindCoverFrom(stage, c, threat).0) && status == FindCoverFrom(stage, c, threat).1
  {
  }

  lemma HeadsAlike(b: Body, c: Body, target: Option<Vec3>)
    requires SameBody(b, c)
    ensures SameBody(b.(ai := b.ai.(moveTarget := target)), c.(ai := c.ai.(moveTarget := target)))
  {
  }

  lemma WandersAlike(stage: Stage, b: Body, c: Body, distance: real)
    requires SameBody(b, c)
    ensures var (after, status) := WanderOff(stage, b, distance);
            SameBody(after, WanderOff(stage, c, distance).0) && status == WanderOff(stage, c, distance).1
  {
    hide WanderYaw, StartRoute, SameBody, SameAi;
    SameBodiesShow(b, c);
    var drawn := b.actor.origin.Plus(stage.space.forward(WanderYaw(stage)).Times(distance));
    var goal := stage.space.walkable(b.actor.hull, b.actor.origin, drawn);
    HeadsAlike(b, c, Some(goal));
    RoutesAlike(stage, b.(ai := b.ai.(moveTarget := Some(goal))), c.(ai := c.ai.(moveTarget := Some(goal))),
                Some(goal), 0.0);
  }

  lemma PathsAlike(b: Body, c: Body, speed: real)
    requires SameBody(b, c)
    ensures var (after, status) := SetPathSpeed(b, speed);
            SameBody(after, SetPathSpeed(c, speed).0) && status == SetPathSpeed(c, speed).1
  {
  }

  predicate Reporting(task: Task) {
    task.PlaySequence? || task.SetActivity? || task.Reload?
  }

  /** What a reporting task changes before it reports. */
  lemma ChangesAlike(
      b: Body, c: Body, activity: Activity, state: MonsterState, sounds: seq<SoundEvent>, actor: Actor)
    requires SameBody(b, c)
    ensures SameBody(b.(ai := b.ai.(activity := activity)), c.(ai := c.ai.(activity := activity)))
    ensures SameBody(b.(ai := b.ai.(state := state)), c.(ai := c.ai.(state := state)))
    ensures SameBody(b.(ai := b.ai.(memory := None)), c.(ai := c.ai.(memory := None)))
    ensures SameBody(b.(actor := actor, ai := b.ai.(moveSpeed := 0.0)),
                     c.(actor := actor, ai := c.ai.(moveSpeed := 0.0)))
    ensures SameBody(b.(sounds := sounds), c.(sounds := sounds))
  {
  }

  lemma ReportsAlike(stage: Stage, b: Body, c: Body, task: Task)
    requires SameBody(b, c) && Reporting(task)
    ensures SameBody(BeginTask(stage, b, task).0, BeginTask(stage, c, task).0)
    ensures BeginTask(stage, b, task).1 == BeginTask(stage, c, task).1
  {
    hide Emit, SameBody, SameAi;
    SameBodiesShow(b, c);
    var entity := stage.entity;
    match task
    case PlaySequence(name) => EmitsAlike(entity, b, c, SequencePlayed(name));
    case SetActivity(activity) =>
      ChangesAlike(b, c, activity, Dead, [], b.actor);
      EmitsAlike(entity, b.(ai := b.ai.(activity := activity)), c.(ai := c.ai.(activity := activity)),
                 ActivityChanged(activity));
    case Reload => EmitsAlike(entity, b, c, Reloaded);
  }

  lemma StatesAlike(stage: Stage, b: Body, c: Body, task: Task)
    requires SameBody(b, c) && (task.SetState? || task.ClearEnemy?)
    ensures SameBody(BeginTask(stage, b, task).0, BeginTask(stage, c, task).0)
    ensures BeginTask(stage, b, task).1 == BeginTask(stage, c, task).1
  {
    hide Emit, SameBody, SameAi;
    SameBodiesShow(b, c);
    var entity := stage.entity;
    match task
    case SetState(state) =>
      ChangesAlike(b, c, Dying, state, [], b.actor);
      EmitsAlike(entity, b.(ai := b.ai.(state := state)), c.(ai := c.ai.(state := state)),
                 StateChanged(b.ai.state, state));
    case ClearEnemy =>
      ChangesAlike(b, c, Dying, Dead, [], b.actor);
      EmitsAlike(entity, b.(ai := b.ai.(memory := None)), c.(ai := c.ai.(memory := None)), EnemyLost);
  }

  lemma LoudAlike(stage: Stage, b: Body, c: Body, task: Task)
    requires SameBody(b, c) && (task.Die? || task.EmitSound?)
    ensures SameBody(BeginTask(stage, b, task).0, BeginTask(stage, c, task).0)
    ensures BeginTask(stage, b, task).1 == BeginTask(stage, c, task).1
  {
    hide Pushed, Emit, SameBody, SameAi;
    SameBodiesShow(b, c);
    var dead, entity := b.actor.(alive := false, health := 0.0), stage.entity;
    match task
    case Die =>
      ChangesAlike(b, c, Dying, Dead, [], dead);
      EmitsAlike(entity, b.(actor := dead, ai := b.ai.(moveSpeed := 0.0)),
                 c.(actor := dead, ai := c.ai.(moveSpeed := 0.0)), Died);
    case EmitSound(kind, radius) =>
      var sounds := Pushed(b.sounds, SoundEvent(kind, b.actor.origin, radius, Some(entity), 0.1));
      ChangesAlike(b, c, Dying, Dead, sounds, dead);
      EmitsAlike(entity, b.(sounds := sounds), c.(sounds := sounds), SoundEmitted(kind));
  }

  lemma StrikesAlike(stage: Stage, b: Body, c: Body, task: Task)
    requires SameBody(b, c) && task.Attacks()
    ensures SameBody(BeginTask(stage, b, task).0, BeginTask(stage, c, task).0)
    ensures BeginTask(stage, b, task).1 == BeginTask(stage, c, task).1
  {
    hide Emit, SameBody, SameAi;
    EmitsAlike(stage.entity, b, c, Attack(Melee1, stage.enemy));
    EmitsAlike(stage.entity, b, c, Attack(Melee2, stage.enemy));
    EmitsAlike(stage.entity, b, c, Attack(Range1, stage.enemy));
    EmitsAlike(stage.entity, b, c, Attack(Range2, stage.enemy));
  }

  lemma StopsAlike(b: Body, c: Body)
    requires SameBody(b, c)
    ensures SameBody(b.(ai := b.ai.(moveSpeed := 0.0, route := NO_ROUTE, stuck := 0)),
                     c.(ai := c.ai.(moveSpeed := 0.0, route := NO_ROUTE, stuck := 0)))
  {
  }

  lemma BeginsAlike(stage: Stage, b: Body, c: Body, task: Task)
    requires SameBody(b, c)
    ensures SameBody(BeginTask(stage, b, task).0, BeginTask(stage, c, task).0)
    ensures BeginTask(stage, b, task).1 == BeginTask(stage, c, task).1
  {
    hide StartFacing, StartRoute, FindCoverFrom, WanderOff, SetPathSpeed, Emit, Pushed, SameBody, SameAi;
    SameBodiesShow(b, c);
    match task
    case FaceEnemy => FacesAlike(stage, b, c, Or(stage.enemyPosition, stage.lastKnown));
    case FaceTarget => FacesAlike(stage, b, c, b.ai.moveTarget);
    case FaceLastKnownPosition => FacesAlike(stage, b, c, Or(stage.lastKnown, b.ai.moveTarget));
    case MoveToEnemy(within) => RoutesAlike(stage, b, c, Or(stage.enemyPosition, stage.lastKnown), within);
    case MoveToTarget(within) => RoutesAlike(stage, b, c, b.ai.moveTarget, within);
    case MoveToLastKnownPosition => RoutesAlike(stage, b, c, stage.lastKnown, 0.0);
    case RunPath => PathsAlike(b, c, stage.brain.runSpeed);
    case WalkPath => PathsAlike(b, c, stage.brain.walkSpeed);
    case StopMoving => StopsAlike(b, c);
    case FindCover => CoversAlike(stage, b, c, Or(Or(stage.enemyPosition, stage.lastKnown), b.ai.moveTarget));
    case TakeCover => RoutesAlike(stage, b, c, b.ai.cover, 0.0);
    case Wander(distance) => WandersAlike(stage, b, c, distance);
    case _ =>
      if Reporting(task) {
        ReportsAlike(stage, b, c, task);
      } else if task.Attacks() {
        StrikesAlike(stage, b, c, task);
      } else if task.SetState? || task.ClearEnemy? {
        StatesAlike(stage, b, c, task);
      } else if task.Die? || task.EmitSound? {
        LoudAlike(stage, b, c, task);
      }
  }

  lemma ResumesAlike(stage: Stage, b: Body, c: Body, task: Task)
    requires SameBody(b, c)
    ensures SameBody(ResumeTask(stage, b, task).0, ResumeTask(stage, c, task).0)
    ensures ResumeTask(stage, b, task).1 == ResumeTask(stage, c, task).1
  {
    hide Turn, SameBody, SameAi;
    SameBodiesShow(b, c);
    FacesAlike(stage, b, c, None);
  }

  lemma AnswersAlike(stage: Stage, r: Runner, conditions: Conditions, b: Body, c: Body)
    requires SameBody(b, c)
    ensures var (after, status) := Answered(r, stage.dt, conditions, ExecutorOf(stage), b);
            var (other, answer) := Answered(r, stage.dt, conditions, ExecutorOf(stage), c);
            SameBody(after, other) && status == answer
  {
    hide BeginTask, Turn, SameBody;
    if Runs(r, conditions) {
      BeginsAlike(stage, b, c, Current(r));
      ResumesAlike(stage, b, c, Current(r));
    }
  }

  lemma ReplacesAlike(
      entity: Entity, brain: Brains.Brain, name: string, outcome: RunOutcome, conditions: Conditions, b: Body, c: Body,
      r: Runner)
    requires SameBody(b, c)
    ensures SameBody(Replaced(entity, brain, name, outcome, conditions, b.(ai := b.ai.(runner := r))),
                     Replaced(entity, brain, name, outcome, conditions, c.(ai := c.ai.(runner := r))))
  {
  }

  lemma ActsAlike(stage: Stage, m: Mind, n: Mind, sounds: seq<SoundEvent>, rng: Pcg32.Generator)
    requires SameMind(m, n) && m.ai.runner.schedule.Some?
    ensures var (b, g) := Acted(stage, m, sounds, rng);
            var (c, h) := Acted(stage, n, sounds, rng);
            SameBody(b, c) && g == h
  {
    hide Answered, Tick, Replaced, ExecutorOf;
    var r, b, c := m.ai.runner, Body(m.actor, m.ai, sounds, m.events), Body(n.actor, n.ai, sounds, n.events);
    AnswersAlike(stage, r, m.conditions, b, c);
    var (after, answer) := Answered(r, stage.dt, m.conditions, ExecutorOf(stage), b);
    var other := Answered(r, stage.dt, m.conditions, ExecutorOf(stage), c).0;
    var ticked := Tick(r, stage.dt, m.conditions, rng, answer);
    ReplacesAlike(
      stage.entity, stage.brain, r.schedule.value.name, ticked.outcome, m.conditions, after, other, ticked.runner);
  }

  lemma AdvancesAlike(space: Space, actor: Actor, a: MonsterAi, b: MonsterAi, dt: real)
    requires SameAi(a, b)
    ensures var (there, after, distance) := AiTick.Advanced(space, actor, a, dt);
            var (other, ai, same) := AiTick.Advanced(space, actor, b, dt);
            there == other && SameAi(after, ai) && distance == same
  {
    hide Turning.TurnToward;
    assert a.route.IsFinished() <==> b.route.IsFinished();
  }

  lemma MovesAlike(space: Space, actor: Actor, a: MonsterAi, b: MonsterAi, dt: real)
    requires SameAi(a, b)
    ensures Moved(space, actor, a, dt).0 == Moved(space, actor, b, dt).0
    ensures SameAi(Moved(space, actor, a, dt).1, Moved(space, actor, b, dt).1)
  {
    hide AiTick.Advanced;
    AdvancesAlike(space, actor, a, b, dt);
  }

  // ---- One monster's tick ----

  ghost predicate SameOutcome(a: Outcome, b: Outcome) {
    a.sim == b.sim && a.events == b.events && SameSlots(a.slots, b.slots)
  }

  lemma HoldsAlike(space: Space, sim: Sim, s: Slots, t: Slots, m: Mind, n: Mind, dt: real)
    requires SameSlots(s, t) && SameMind(m, n)
    ensures SameOutcome(HeldStill(space, sim, s, m, dt), HeldStill(space, sim, t, n, dt))
  {
    hide Moved;
    MovesAlike(space, m.actor, m.ai.(runner := CLEARED), n.ai.(runner := CLEARED), dt);
  }

  lemma ThinksAlike(
      space: Space, sim: Sim, entity: Entity, s: Slots, t: Slots, brain: Brains.Brain, known: map<Entity, Seeable>,
      m: Mind, n: Mind, dt: real)
    requires SameSlots(s, t) && SameMind(m, n)
    ensures SameOutcome(Thought(space, sim, entity, s, brain, known, m, dt),
                        Thought(space, sim, entity, t, brain, known, n, dt))
  {
    hide Decided, Scheduled, Acted, Moved, StageOf, SameAi;
    DecidesAlike(space, entity, brain, known, m, n, dt, sim.tickCount);
    var decided, other := Decided(entity, brain, m), Decided(entity, brain, n);
    DecidesAlike(space, entity, brain, known, decided, other, dt, sim.tickCount);
    var stage := StageOf(space, entity, brain, known, decided, dt, sim.tickCount);
    ActsAlike(stage, Scheduled(entity, brain, decided), Scheduled(entity, brain, other), sim.sounds, sim.rng);
    var body := Acted(stage, Scheduled(entity, brain, decided), sim.sounds, sim.rng).0;
    var rest := Acted(stage, Scheduled(entity, brain, other), sim.sounds, sim.rng).0;
    MovesAlike(space, body.actor, body.ai, rest.ai, dt);
  }

  /** A monster's tick does not read what nothing tells apart. */
  lemma TicksOneAlike(
      space: Space, sim: Sim, entity: Entity, s: Slots, t: Slots, candidates: seq<Seeable>,
      known: map<Entity, Seeable>, events: seq<AiEvent>, dt: real)
    requires SameSlots(s, t) && s.Thinks()
    ensures SameOutcome(TickedOne(space, sim, entity, s, candidates, known, events, dt),
                        TickedOne(space, sim, entity, t, candidates, known, events, dt))
  {
    hide Sensed, HeldStill, Thought, SameMind, SameOutcome;
    TellsOutcomes(sim, s, t, events);
    if s.ai.value.brain < |sim.brains| {
      var brain := sim.brains[s.ai.value.brain];
      SensesAlike(space, sim, entity, s, t, brain, candidates, known, events, dt);
      var (m, squads) := Sensed(space, sim, entity, s, brain, candidates, known, events, dt);
      var n := Sensed(space, sim, entity, t, brain, candidates, known, events, dt).0;
      var shared := sim.(squads := squads);
      HoldsAlike(space, shared, s, t, m, n, dt);
      ThinksAlike(space, shared, entity, s, t, brain, known, m, n, dt);
    }
  }

  lemma TellsOutcomes(sim: Sim, s: Slots, t: Slots, events: seq<AiEvent>)
    requires SameSlots(s, t)
    ensures SameOutcome(Outcome(sim, s, events), Outcome(sim, t, events))
  {
  }

  // ---- The whole tick ----

  ghost predicate SameWhole(w: Whole, v: Whole) {
    w.sim == v.sim && w.events == v.events && SameWorld(w.world, v.world)
  }

  lemma TicksNextAlike(
      space: Space, w: Whole, v: Whole, entity: Entity, candidates: seq<Seeable>, known: map<Entity, Seeable>,
      dt: real)
    requires SameWhole(w, v)
    ensures SameWhole(TickedNext(space, w, entity, candidates, known, dt),
                      TickedNext(space, v, entity, candidates, known, dt))
  {
    hide TickedOne, SameAi;
    if entity in w.world && w.world[entity].Thinks() {
      TicksOneAlike(
        space, w.sim, entity, w.world[entity], v.world[entity], candidates, known, w.events, dt);
    }
  }

  lemma {:induction false} TicksEachAlike(
      space: Space, w: Whole, v: Whole, order: seq<Entity>, candidates: seq<Seeable>, known: map<Entity, Seeable>,
      dt: real)
    requires SameWhole(w, v)
    ensures SameWhole(TickedEach(space, w, order, candidates, known, dt),
                      TickedEach(space, v, order, candidates, known, dt))
  {
    hide TickedNext, SameWhole;
    if order != [] {
      var n := |order| - 1;
      TicksEachAlike(space, w, v, order[..n], candidates, known, dt);
      TicksNextAlike(
        space, TickedEach(space, w, order[..n], candidates, known, dt),
        TickedEach(space, v, order[..n], candidates, known, dt), order[n], candidates, known, dt);
    }
  }

  lemma ClosesAlike(w: Whole, v: Whole, dt: real)
    requires SameWhole(w, v)
    ensures SameWhole(Closed(w, dt), Closed(v, dt))
  {
    hide Expired, SameWorld;
  }

  lemma SeenAlike(space: Space, a: World, b: World, listing: seq<Entity>)
    requires SameWorld(a, b) && forall e | e in listing :: e in a && a[e].actor.Some?
    ensures forall e | e in listing :: e in b && b[e].actor.Some?
    ensures Snapshot(space, a, listing) == Snapshot(space, b, listing)
  {
    hide Ordering.Sorted, SameAi;
    assert forall i | 0 <= i < |listing| :: listing[i] in listing;
    assert SeenRows(space, a, listing) == SeenRows(space, b, listing);
  }

  lemma {:induction false} OfferedAlike(a: World, b: World, listing: seq<Entity>)
    requires SameWorld(a, b) && forall e | e in listing :: e in a && IsTagged(a[e])
    ensures forall e | e in listing :: e in b && IsTagged(b[e])
    ensures OfferRows(a, listing) == OfferRows(b, listing)
  {
    hide SameAi;
    if listing != [] {
      var n := |listing| - 1;
      assert listing[n] in listing;
      OfferedAlike(a, b, listing[..n]);
    }
  }

  lemma AnswersForBoth(a: World, b: World, q: Queries)
    requires SameWorld(a, b) && Answers(a, q)
    ensures Answers(b, q)
  {
    hide SameAi;
  }

  /** Worlds that nothing tells apart have the same tick, whatever the squads
      are of whose shares nothing but the names is kept. */
  lemma TicksAlike(space: Space, sim: Sim, other: Sim, a: World, b: World, q: Queries, dt: real)
    requires SameWorld(a, b) && Answers(a, q)
    requires Previous(sim.squads.squads) == Previous(other.squads.squads) && other == sim.(squads := other.squads)
    ensures Answers(b, q) && SameWhole(TickedWorld(space, sim, a, q, dt), TickedWorld(space, other, b, q, dt))
  {
    hide Snapshot, Order, TickedEach, Closed, Known, Previous, Squads.InTurn, SameAi, Answers, SameWorld, OfferRows;
    hide Ordering.Sorted;
    AnswersForBoth(a, b, q);
    AnswersListed(a, q);
    AnswersListed(b, q);
    SeenAlike(space, a, b, q.seen);
    OfferedAlike(a, b, q.tagged);
    var candidates, step := Snapshot(space, a, q.seen), AtLeastZero(dt);
    assert Rebuilt(sim.squads, Offers(a, q.tagged)) == Rebuilt(other.squads, Offers(b, q.tagged));
    var rebuilt := sim.(squads := Rebuilt(sim.squads, Offers(a, q.tagged)));
    TicksEachAlike(
      space, Whole(rebuilt, a, []), Whole(rebuilt, b, []), Order(q.thinking), candidates, Known(candidates), step);
    ClosesAlike(
      TickedEach(space, Whole(rebuilt, a, []), Order(q.thinking), candidates, Known(candidates), step),
      TickedEach(space, Whole(rebuilt, b, []), Order(q.thinking), candidates, Known(candidates), step), step);
  }

  // ---- What the digest is fed, taken apart ----

  lemma SplitOnce(a: seq<Fed>, b: seq<Fed>, c: seq<Fed>, d: seq<Fed>, kind: Fed -> bool)
    requires a + b == c + d
    requires forall x | x in a || x in c :: kind(x)
    requires forall x | x in b || x in d :: !kind(x)
    ensures a == c && b == d
  {
    var s := a + b;
    NotShorter(a, b, c, d, kind);
    NotShorter(c, d, a, b, kind);
    assert a == s[..|a|] && c == s[..|c|] && b == s[|a|..] && d == s[|c|..];
  }

  lemma NotShorter(a: seq<Fed>, b: seq<Fed>, c: seq<Fed>, d: seq<Fed>, kind: Fed -> bool)
    requires a + b == c + d
    requires forall x | x in c :: kind(x)
    requires forall x | x in b :: !kind(x)
    ensures |a| >= |c|
  {
    assert |a| + |b| == |c| + |d|;
    assert forall i | 0 <= i < |c| :: (a + b)[i] == c[i] && c[i] in c;
    assert b != [] ==> (a + b)[|a|] == b[0] && b[0] in b;
  }

  lemma FedOf(rows: seq<Ordering.Row<Fed>>, x: Fed)
    ensures x in Values(Ordering.Sorted(rows)) <==> exists i | 0 <= i < |rows| :: rows[i].value == x
  {
    hide Ordering.Sorted;
    var sorted := Ordering.Sorted(rows);
    Ordering.SortedKeeps(rows);
    if x in Values(sorted) {
      var i :| 0 <= i < |sorted| && sorted[i].value == x;
      assert sorted[i] in rows;
    }
    if i :| 0 <= i < |rows| && rows[i].value == x {
      assert rows[i] in sorted;
      var j :| 0 <= j < |sorted| && sorted[j] == rows[i];
      assert Values(sorted)[j] == x;
    }
  }

  lemma ActorIsFed(a: World, b: World, actors: seq<Entity>, others: seq<Entity>, e: Entity)
    requires DistinctSlots(a) && a.Keys == b.Keys && e in a && a[e].actor.Some?
    requires Lists(actors, iset f | f in a && a[f].actor.Some?) && Lists(others, iset f | f in b && b[f].actor.Some?)
    requires Values(Ordering.Sorted(ActorRows(a, actors))) == Values(Ordering.Sorted(ActorRows(b, others)))
    ensures b[e].actor == a[e].actor
  {
    hide Ordering.Sorted, Values;
    var x := FedActor(e.id, a[e].actor.value);
    assert e in actors;
    var i :| 0 <= i < |actors| && actors[i] == e;
    assert ActorRows(a, actors)[i].value == x;
    FedOf(ActorRows(a, actors), x);
    FedOf(ActorRows(b, others), x);
    var j :| 0 <= j < |others| && ActorRows(b, others)[j].value == x;
    assert others[j] in others && others[j].id == e.id;
  }

  lemma MindIsFed(a: World, b: World, minds: seq<Entity>, others: seq<Entity>, e: Entity)
    requires DistinctSlots(a) && a.Keys == b.Keys && e in a && a[e].ai.Some?
    requires Lists(minds, iset f | f in a && a[f].ai.Some?) && Lists(others, iset f | f in b && b[f].ai.Some?)
    requires Values(Ordering.Sorted(MindRows(a, minds))) == Values(Ordering.Sorted(MindRows(b, others)))
    ensures b[e].ai.Some? && MindOf(b[e].ai.value) == MindOf(a[e].ai.value)
  {
    hide Ordering.Sorted, Values, MindOf;
    var x := FedMind(e.id, MindOf(a[e].ai.value));
    assert e in minds;
    var i :| 0 <= i < |minds| && minds[i] == e;
    assert MindRows(a, minds)[i].value == x;
    FedOf(MindRows(a, minds), x);
    FedOf(MindRows(b, others), x);
    var j :| 0 <= j < |others| && MindRows(b, others)[j].value == x;
    assert others[j] in others && others[j].id == e.id;
  }

  /** A world and what surrounds it, between ticks. */
  datatype Moment = Moment(sim: Sim, world: World)

  ghost predicate Digestible(a: Moment, actors: seq<Entity>, minds: seq<Entity>) {
    DistinctSlots(a.world) && DigestAnswers(a.world, actors, minds)
  }

  lemma ActorRowsAreActors(world: World, actors: seq<Entity>)
    requires forall e | e in actors :: e in world && world[e].actor.Some?
    ensures forall x | x in Values(Ordering.Sorted(ActorRows(world, actors))) :: x.FedActor?
  {
    hide Ordering.Sorted, Values;
    var rows := ActorRows(world, actors);
    forall x: Fed | x in Values(Ordering.Sorted(rows)) ensures x.FedActor? {
      FedOf(rows, x);
    }
  }

  lemma MindRowsAreMinds(world: World, minds: seq<Entity>)
    requires forall e | e in minds :: e in world && world[e].ai.Some?
    ensures forall x | x in Values(Ordering.Sorted(MindRows(world, minds))) :: x.FedMind?
  {
    hide Ordering.Sorted, Values, MindOf;
    var rows := MindRows(world, minds);
    forall x: Fed | x in Values(Ordering.Sorted(rows)) ensures x.FedMind? {
      FedOf(rows, x);
    }
  }

  /** Equal feeds have equal parts. */
  lemma FedInParts(
      a: Moment, b: Moment, actors: seq<Entity>, minds: seq<Entity>, others: seq<Entity>, wits: seq<Entity>)
    requires Digestible(a, actors, minds) && Digestible(b, others, wits)
    requires HashFed(a.sim, a.world, actors, minds) == HashFed(b.sim, b.world, others, wits)
    ensures a.sim.tickCount == b.sim.tickCount && a.sim.rng == b.sim.rng
    ensures a.sim.relationships == b.sim.relationships
    ensures Values(Ordering.Sorted(ActorRows(a.world, actors))) == Values(Ordering.Sorted(ActorRows(b.world, others)))
    ensures Values(Ordering.Sorted(MindRows(a.world, minds))) == Values(Ordering.Sorted(MindRows(b.world, wits)))
    ensures SquadFed(a.sim.squads.squads) == SquadFed(b.sim.squads.squads)
  {
    hide Ordering.Sorted, Values, ActorRows, MindRows, SquadFed, DistinctSlots;
    var head, top := HeadOf(a.sim), HeadOf(b.sim);
    var x := Values(Ordering.Sorted(ActorRows(a.world, actors)));
    var y := Values(Ordering.Sorted(MindRows(a.world, minds)));
    var u := Values(Ordering.Sorted(ActorRows(b.world, others)));
    var v := Values(Ordering.Sorted(MindRows(b.world, wits)));
    var s, t := SquadFed(a.sim.squads.squads), SquadFed(b.sim.squads.squads);
    ActorRowsAreActors(a.world, actors);
    ActorRowsAreActors(b.world, others);
    MindRowsAreMinds(a.world, minds);
    MindRowsAreMinds(b.world, wits);
    SquadsAreFed(a.sim.squads.squads);
    SquadsAreFed(b.sim.squads.squads);
    assert head + (x + (y + s)) == HashFed(a.sim, a.world, actors, minds) == top + (u + (v + t));
    HeadsAgree(a.sim, b.sim, x + (y + s), u + (v + t));
    SplitOnce(x, y + s, u, v + t, (f: Fed) => f.FedActor?);
    SplitOnce(y, s, v, t, (f: Fed) => f.FedMind?);
  }

  function HeadOf(sim: Sim): seq<Fed> {
    [FedTick(sim.tickCount), FedGenerator(sim.rng), FedRelationships(sim.relationships), FedSounds(|sim.sounds|)]
  }

  lemma HeadsAgree(sim: Sim, other: Sim, rest: seq<Fed>, tail: seq<Fed>)
    requires HeadOf(sim) + rest == HeadOf(other) + tail
    ensures sim.tickCount == other.tickCount && sim.rng == other.rng && sim.relationships == other.relationships
    ensures rest == tail
  {
    var s := HeadOf(sim) + rest;
    assert s == HeadOf(other) + tail;
    assert s[0] == FedTick(sim.tickCount) && s[1] == FedGenerator(sim.rng);
    assert s[2] == FedRelationships(sim.relationships);
    assert rest == s[4..] && tail == s[4..];
  }

  lemma SquadsAreFed(squads: seq<Squads.Squad>)
    ensures forall x | x in SquadFed(squads) :: x.FedSquad?
  {
  }

  // ---- What the digest is not fed ----

  /** What a mind holds that its digest row leaves out and its next tick reads:
      the brain, where to go, the cover, whether its task has begun, and which
      occupant of its slot the enemy is. */
  ghost predicate UnfedMindAgrees(a: MonsterAi, b: MonsterAi) {
    && a.brain == b.brain && a.moveTarget == b.moveTarget && a.cover == b.cover
    && a.runner.started == b.runner.started
    && (a.memory.Some? && b.memory.Some? ==> a.memory.value.entity.generation == b.memory.value.entity.generation)
  }

  ghost predicate UnfedSlotsAgree(s: Slots, t: Slots) {
    && s.prisoner == t.prisoner && s.impervious == t.impervious && s.tag == t.tag && s.held == t.held
    && (s.ai.Some? && t.ai.Some? ==> UnfedMindAgrees(s.ai.value, t.ai.value))
  }

  ghost predicate SharesAgree(a: seq<Squads.Squad>, b: seq<Squads.Squad>) {
    forall i | 0 <= i < |a| && i < |b| :: a[i].enemy == b[i].enemy && a[i].enemyPosition == b[i].enemyPosition
  }

  /** Everything the digest is not fed that the next tick reads: the brains, the
      sounds themselves, the damage, what each squad shares, which entities
      there are beyond their slots, and each one's flags and unfed mind. How
      long ago and how far away a remembered enemy was, where a route was meant
      to end, and who is in a squad are not among it. */
  ghost predicate UnfedAgrees(a: Moment, b: Moment) {
    && a.sim.brains == b.sim.brains && a.sim.sounds == b.sim.sounds && a.sim.damage == b.sim.damage
    && SharesAgree(a.sim.squads.squads, b.sim.squads.squads)
    && a.world.Keys == b.world.Keys && forall e | e in a.world :: UnfedSlotsAgree(a.world[e], b.world[e])
  }

  /** A schedule's name is its identity: a monster that has schedules of one name
      in both moments, or none, has the same schedule. */
  ghost predicate NamesIdentify(a: Moment, b: Moment) {
    forall e | e in a.world && e in b.world && a.world[e].ai.Some? && b.world[e].ai.Some? ::
      SameIfNamedAlike(a.world[e].ai.value.runner, b.world[e].ai.value.runner)
  }

  ghost predicate SameIfNamedAlike(r: Runner, s: Runner) {
    RunnerName(r) == RunnerName(s) ==> r.schedule == s.schedule
  }

  /** Two moments are fed to the digest alike, in whatever order the store
      answers. */
  ghost predicate FedAlike(a: Moment, b: Moment) {
    forall actors, minds, others, wits | Digestible(a, actors, minds) && Digestible(b, others, wits) ::
      HashFed(a.sim, a.world, actors, minds) == HashFed(b.sim, b.world, others, wits)
  }

  lemma FedMindsAreSame(a: MonsterAi, b: MonsterAi)
    requires MindOf(a) == MindOf(b) && UnfedMindAgrees(a, b) && SameIfNamedAlike(a.runner, b.runner)
    ensures SameAi(a, b)
  {
  }

  lemma {:induction false} SharesCarryOver(a: seq<Squads.Squad>, b: seq<Squads.Squad>)
    requires SquadFed(a) == SquadFed(b) && SharesAgree(a, b)
    ensures Previous(a) == Previous(b)
  {
    hide Ids;
    assert |SquadFed(a)| == |SquadFed(b)|;
    if a != [] {
      var n := |a| - 1;
      assert SquadFed(a)[n] == SquadFed(b)[n];
      assert SquadFed(a[..n]) == SquadFed(a)[..n] && SquadFed(b[..n]) == SquadFed(b)[..n];
      SharesCarryOver(a[..n], b[..n]);
    }
  }

  /** Moments with equal feeds and equal unfed parts are the same moment but
      for what nothing reads. */
  lemma FedAndUnfedAreAll(
      a: Moment, b: Moment, actors: seq<Entity>, minds: seq<Entity>, others: seq<Entity>, wits: seq<Entity>)
    requires Digestible(a, actors, minds) && Digestible(b, others, wits) && UnfedAgrees(a, b) && NamesIdentify(a, b)
    requires HashFed(a.sim, a.world, actors, minds) == HashFed(b.sim, b.world, others, wits)
    ensures SameWorld(a.world, b.world) && b.sim == a.sim.(squads := b.sim.squads)
    ensures Previous(a.sim.squads.squads) == Previous(b.sim.squads.squads)
  {
    hide HashFed, Values, ActorRows, MindRows, SquadFed, DistinctSlots, SharesAgree, MindOf, SameAi, UnfedMindAgrees;
    hide SameIfNamedAlike;
    FedInParts(a, b, actors, minds, others, wits);
    SharesCarryOver(a.sim.squads.squads, b.sim.squads.squads);
    forall e | e in a.world ensures SameSlots(a.world[e], b.world[e]) {
      if a.world[e].actor.Some? {
        ActorIsFed(a.world, b.world, actors, others, e);
      }
      if b.world[e].actor.Some? {
        ActorIsFed(b.world, a.world, others, actors, e);
      }
      if b.world[e].ai.Some? {
        MindIsFed(b.world, a.world, wits, minds, e);
      }
      if a.world[e].ai.Some? {
        MindIsFed(a.world, b.world, minds, wits, e);
        FedMindsAreSame(a.world[e].ai.value, b.world[e].ai.value);
      }
    }
  }

  // ---- What that decides ----

  lemma SameMindsAreFedAlike(a: MonsterAi, b: MonsterAi)
    requires SameAi(a, b)
    ensures MindOf(a) == MindOf(b) && UnfedMindAgrees(a, b) && SameIfNamedAlike(a.runner, b.runner)
  {
  }

  lemma AnswersDigestForBoth(a: World, b: World, actors: seq<Entity>, minds: seq<Entity>)
    requires SameWorld(a, b) && DigestAnswers(a, actors, minds)
    ensures DigestAnswers(b, actors, minds)
    ensures forall e | e in actors :: e in a && a[e].actor.Some? && e in b && b[e].actor.Some?
    ensures forall e | e in minds :: e in a && a[e].ai.Some? && e in b && b[e].ai.Some?
  {
    hide SameAi;
  }

  lemma RowsAlike(a: World, b: World, actors: seq<Entity>, minds: seq<Entity>)
    requires SameWorld(a, b)
    requires forall e | e in actors :: e in a && a[e].actor.Some? && e in b && b[e].actor.Some?
    requires forall e | e in minds :: e in a && a[e].ai.Some? && e in b && b[e].ai.Some?
    ensures ActorRows(a, actors) == ActorRows(b, actors) && MindRows(a, minds) == MindRows(b, minds)
  {
    hide MindOf, SameAi;
    forall i | 0 <= i < |minds| ensures MindOf(a[minds[i]].ai.value) == MindOf(b[minds[i]].ai.value) {
      assert minds[i] in minds;
      SameMindsAreFedAlike(a[minds[i]].ai.value, b[minds[i]].ai.value);
    }
    assert forall i | 0 <= i < |actors| :: actors[i] in actors;
    assert forall i | 0 <= i < |minds| :: minds[i] in minds;
  }

  lemma SameFeeds(
      sim: Sim, a: World, b: World, actors: seq<Entity>, minds: seq<Entity>, others: seq<Entity>, wits: seq<Entity>)
    requires SameWorld(a, b) && DistinctSlots(b)
    requires DigestAnswers(a, actors, minds) && DigestAnswers(b, others, wits)
    ensures HashFed(sim, a, actors, minds) == HashFed(sim, b, others, wits)
  {
    hide Ordering.Sorted, SquadFed, ActorRows, MindRows, DistinctSlots, Values, DigestAnswers, SameWorld;
    AnswersDigestForBoth(a, b, actors, minds);
    RowsAlike(a, b, actors, minds);
    DigestIgnoresOrder(sim, b, others, wits, actors, minds);
  }

  lemma SameWorldsAreFedAlike(sim: Sim, a: World, b: World)
    requires SameWorld(a, b)
    ensures FedAlike(Moment(sim, a), Moment(sim, b)) && UnfedAgrees(Moment(sim, a), Moment(sim, b))
    ensures NamesIdentify(Moment(sim, a), Moment(sim, b))
  {
    hide HashFed, DistinctSlots, UnfedMindAgrees, SameAi, SameIfNamedAlike;
    var x, y := Moment(sim, a), Moment(sim, b);
    forall actors, minds, others, wits | Digestible(x, actors, minds) && Digestible(y, others, wits)
      ensures HashFed(sim, a, actors, minds) == HashFed(sim, b, others, wits)
    {
      SameFeeds(sim, a, b, actors, minds, others, wits);
    }
    forall e | e in a && a[e].ai.Some?
      ensures UnfedMindAgrees(a[e].ai.value, b[e].ai.value)
      ensures SameIfNamedAlike(a[e].ai.value.runner, b[e].ai.value.runner)
    {
      SameMindsAreFedAlike(a[e].ai.value, b[e].ai.value);
    }
  }

  /** A moment's digest, together with what it is not fed, decides the next
      tick: moments that agree on both report the same events, leave the same
      sounds, squads and generator, are digested alike again, and again agree
      on the rest, so that every later tick is the same too. */
  lemma DigestDecidesTick(
      space: Space, a: Moment, b: Moment, q: Queries, r: Queries, dt: real,
      actors: seq<Entity>, minds: seq<Entity>, others: seq<Entity>, wits: seq<Entity>)
    requires Digestible(a, actors, minds) && Digestible(b, others, wits)
    requires Answers(a.world, q) && Answers(b.world, r)
    requires HashFed(a.sim, a.world, actors, minds) == HashFed(b.sim, b.world, others, wits)
    requires UnfedAgrees(a, b) && NamesIdentify(a, b)
    ensures var x := TickedWorld(space, a.sim, a.world, q, dt);
            var y := TickedWorld(space, b.sim, b.world, r, dt);
            && x.events == y.events && x.sim == y.sim
            && FedAlike(Moment(x.sim, x.world), Moment(y.sim, y.world))
            && UnfedAgrees(Moment(x.sim, x.world), Moment(y.sim, y.world))
            && NamesIdentify(Moment(x.sim, x.world), Moment(y.sim, y.world))
  {
    hide HashFed, DistinctSlots, SameWorld, TickedWorld, Answers, UnfedAgrees, FedAlike, DigestAnswers, NamesIdentify;
    FedAndUnfedAreAll(a, b, actors, minds, others, wits);
    TicksAlike(space, a.sim, b.sim, a.world, b.world, q, dt);
    TickIgnoresOrder(space, b.sim, b.world, q, r, dt);
    var x, y := TickedWorld(space, a.sim, a.world, q, dt), TickedWorld(space, b.sim, b.world, r, dt);
    SameWorldsAreFedAlike(x.sim, x.world, y.world);
  }

  // ---- Whole runs ----

  lemma {:induction false} EachKeepsKeys(
      space: Space, w: Whole, order: seq<Entity>, candidates: seq<Seeable>, known: map<Entity, Seeable>, dt: real)
    ensures TickedEach(space, w, order, candidates, known, dt).world.Keys == w.world.Keys
  {
    hide TickedOne;
    if order != [] {
      EachKeepsKeys(space, w, order[..|order| - 1], candidates, known, dt);
    }
  }

  lemma TickKeepsSlots(space: Space, a: Moment, q: Queries, dt: real)
    requires Answers(a.world, q) && DistinctSlots(a.world)
    ensures DistinctSlots(TickedWorld(space, a.sim, a.world, q, dt).world)
  {
    hide TickedEach, Snapshot, Order, Rebuilt, Known, Offers, Expired, Answers;
    AnswersListed(a.world, q);
    var candidates := Snapshot(space, a.world, q.seen);
    var start := Whole(a.sim.(squads := Rebuilt(a.sim.squads, Offers(a.world, q.tagged))), a.world, []);
    EachKeepsKeys(space, start, Order(q.thinking), candidates, Known(candidates), AtLeastZero(dt));
  }

  /** One tick after another: what a run of ticks reports, and where it leads. */
  ghost predicate TicksThrough(
      space: Space, a: Moment, ticks: seq<real>, reported: seq<seq<AiEvent>>, end: Moment)
    decreases |ticks|
  {
    if ticks == [] then reported == [] && end == a
    else
      && reported != []
      && exists q :: Leads(space, a, q, ticks, reported, end)
  }

  ghost predicate Leads(
      space: Space, a: Moment, q: Queries, ticks: seq<real>, reported: seq<seq<AiEvent>>, end: Moment)
    requires ticks != [] && reported != []
    decreases |ticks|, 0
  {
    && Answers(a.world, q)
    && var next := TickedWorld(space, a.sim, a.world, q, ticks[0]);
       reported[0] == next.events &&
       TicksThrough(space, Moment(next.sim, next.world), ticks[1..], reported[1..], end)
  }

  ghost predicate SameSims(sim: Sim, other: Sim) {
    other == sim.(squads := other.squads) && Previous(sim.squads.squads) == Previous(other.squads.squads)
  }

  lemma {:induction false} SameMomentsReplay(
      space: Space, a: Moment, b: Moment, ticks: seq<real>, reported: seq<seq<AiEvent>>, heard: seq<seq<AiEvent>>,
      end: Moment, stop: Moment)
    requires SameSims(a.sim, b.sim) && SameWorld(a.world, b.world) && DistinctSlots(b.world)
    requires TicksThrough(space, a, ticks, reported, end) && TicksThrough(space, b, ticks, heard, stop)
    ensures reported == heard && SameSims(end.sim, stop.sim) && SameWorld(end.world, stop.world)
    decreases |ticks|
  {
    hide DistinctSlots, SameWorld, TickedWorld, Answers, Previous;
    if ticks != [] {
      var q :| Leads(space, a, q, ticks, reported, end);
      var r :| Leads(space, b, r, ticks, heard, stop);
      TicksAlike(space, a.sim, b.sim, a.world, b.world, q, ticks[0]);
      TickIgnoresOrder(space, b.sim, b.world, q, r, ticks[0]);
      TickKeepsSlots(space, b, r, ticks[0]);
      var x := TickedWorld(space, a.sim, a.world, q, ticks[0]);
      var y := TickedWorld(space, b.sim, b.world, r, ticks[0]);
      SameMomentsReplay(
        space, Moment(x.sim, x.world), Moment(y.sim, y.world), ticks[1..], reported[1..], heard[1..], end, stop);
      assert reported == [reported[0]] + reported[1..] && heard == [heard[0]] + heard[1..];
    }
  }

  /** Runs of any number of ticks from moments that agree on the digest and on
      what it is not fed report the same, tick by tick. */
  lemma RunsReplay(
      space: Space, a: Moment, b: Moment, ticks: seq<real>, reported: seq<seq<AiEvent>>, heard: seq<seq<AiEvent>>,
      end: Moment, stop: Moment, actors: seq<Entity>, minds: seq<Entity>, others: seq<Entity>, wits: seq<Entity>)
    requires Digestible(a, actors, minds) && Digestible(b, others, wits)
    requires HashFed(a.sim, a.world, actors, minds) == HashFed(b.sim, b.world, others, wits)
    requires UnfedAgrees(a, b) && NamesIdentify(a, b)
    requires TicksThrough(space, a, ticks, reported, end) && TicksThrough(space, b, ticks, heard, stop)
    ensures reported == heard
  {
    hide HashFed, DistinctSlots, SameWorld, UnfedAgrees, NamesIdentify, TicksThrough, Previous, DigestAnswers;
    FedAndUnfedAreAll(a, b, actors, minds, others, wits);
    SameMomentsReplay(space, a, b, ticks, reported, heard, end, stop);
  }

  // ---- Schedules known by their names ----

  /** The published schedules keep that rule. */
  lemma NamesDecideSchedules(a: Runner, b: Runner)
    requires PublishedRunner(a) && PublishedRunner(b)
    ensures SameIfNamedAlike(a, b)
  {
    hide Brains.NameOf, Brains.TasksOf, Brains.MaskOf;
    if a.schedule.Some? {
      var which: Brains.Listed :| a.schedule.value == Brains.Published(which);
      Brains.NameBearsMark(which);
    }
    if b.schedule.Some? {
      var which: Brains.Listed :| b.schedule.value == Brains.Published(which);
      Brains.NameBearsMark(which);
    }
    if a.schedule.Some? && b.schedule.Some? && RunnerName(a) == RunnerName(b) {
      var which: Brains.Listed :| a.schedule.value == Brains.Published(which);
      var other: Brains.Listed :| b.schedule.value == Brains.Published(other);
      Brains.NamesDiffer(which, other);
    }
  }
}

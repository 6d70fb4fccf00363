/** How monsters get anywhere: what a tick does to a monster's place, and that
    a route is walked to its end. */
module Movement {
  import opened Wrappers
  import opened Geometry
  import opened MonsterStates
  import opened Schedules
  import opened Senses
  import opened AiTick
  import opened Steps
  import Brains
  import Pcg32
  import Squads
  import Turning

  // ---- One tick ----

  /** A monster as its task leaves it, just before it moves. A held monster
      has no task and only loses its schedule. */
  function AfterTask(
      space: Space, sim: Sim, entity: Entity, slots: Slots, candidates: seq<Seeable>, known: map<Entity, Seeable>,
      events: seq<AiEvent>, dt: real): (Actor, MonsterAi)
    requires slots.Thinks() && slots.ai.value.brain < |sim.brains|
  {
    var brain := sim.brains[slots.ai.value.brain];
    var m := Sensed(space, sim, entity, slots, brain, candidates, known, events, dt).0;
    if slots.held then (m.actor, m.ai.(runner := CLEARED))
    else
      var decided := Decided(entity, brain, m);
      var stage := StageOf(space, entity, brain, known, decided, dt, sim.tickCount);
      var body := Acted(stage, Scheduled(entity, brain, decided), sim.sounds, sim.rng).0;
      (body.actor, body.ai)
  }

  /** It has speed and somewhere left to go. */
  predicate UnderWay(ai: MonsterAi) {
    ai.moveSpeed > 0.0 && ai.route.current < |ai.route.waypoints|
  }

  /** What moving makes of it: the step the space takes it toward its waypoint,
      a turn that way, the next waypoint once within 8 units on the flat, and
      a halt at the end of the route. */
  ghost predicate TakesItsStep(
      space: Space, actor: Actor, ai: MonsterAi, actor': Actor, ai': MonsterAi, dt: real)
    requires UnderWay(ai)
  {
    var waypoint := ai.route.waypoints[ai.route.current];
    var there := space.step(actor.hull, actor.origin, waypoint, ai.moveSpeed, dt).0;
    var within := space.length(waypoint.Minus(there).Flat()) <= 8.0;
    && actor'.origin == there
    && actor'.yaw == (match space.yawToward(there, waypoint)
                      case None => actor.yaw
                      case Some(toward) => Turning.TurnToward(actor.yaw, toward, 300.0 * dt).0)
    && actor' == actor.(origin := actor'.origin, yaw := actor'.yaw)
    && ai'.route.waypoints == ai.route.waypoints && ai'.route.goal == ai.route.goal
    && ai'.route.current == (if within then ai.route.current + 1 else ai.route.current)
    && ai'.moveSpeed == if ai'.route.current < |ai.route.waypoints| then ai.moveSpeed else 0.0
  }

  ghost predicate StaysPut(actor: Actor, ai: MonsterAi, actor': Actor, ai': MonsterAi) {
    actor' == actor && ai'.route == ai.route && ai'.moveSpeed == ai.moveSpeed
  }

  lemma MovedMeans(space: Space, actor: Actor, ai: MonsterAi, dt: real)
    ensures var (actor', ai') := Moved(space, actor, ai, dt);
            if UnderWay(ai) then TakesItsStep(space, actor, ai, actor', ai', dt)
            else StaysPut(actor, ai, actor', ai')
  {
    hide Recorded, Turning.TurnToward;
  }

  /** Same place, way and speed. */
  ghost predicate StandsAsBefore(actor: Actor, ai: MonsterAi, m: Mind) {
    && m.actor.origin == actor.origin && m.actor.hull == actor.hull && m.actor.yaw == actor.yaw
    && m.ai.route == ai.route && m.ai.moveSpeed == ai.moveSpeed
  }

  lemma WakesInPlace(entity: Entity, prisoner: bool, actor: Actor, ai: MonsterAi, events: seq<AiEvent>)
    ensures StandsAsBefore(actor, ai, Disarmed(entity, prisoner, Woken(entity, actor, ai, events)))
  {
    hide Brains.Attacking;
  }

  lemma AcquiresInPlace(
      space: Space, entity: Entity, prisoner: bool, brain: Brains.Brain, known: map<Entity, Seeable>,
      squads: Squads.Roster, enemy: Option<Sighting>, m: Mind, dt: real)
    ensures StandsAsBefore(m.actor, m.ai, Acquired(space, entity, prisoner, brain, known, squads, enemy, m, dt).0)
  {
    hide Squads.Shared, Squads.SharedEnemy, Occluded;
  }

  lemma StruckInPlace(space: Space, entity: Entity, prisoner: bool, brain: Brains.Brain, hurt: Option<Hurt>, m: Mind)
    ensures StandsAsBefore(m.actor, m.ai, Struck(space, entity, prisoner, brain, hurt, m))
  {
  }

  lemma SensesStandStill(
      space: Space, sim: Sim, entity: Entity, slots: Slots, brain: Brains.Brain, candidates: seq<Seeable>,
      known: map<Entity, Seeable>, events: seq<AiEvent>, dt: real)
    requires slots.Thinks()
    ensures StandsAsBefore(slots.actor.value, slots.ai.value,
                           Sensed(space, sim, entity, slots, brain, candidates, known, events, dt).0)
  {
    hide Looked, Listened, ChosenEnemy, Woken, Disarmed, Acquired, Struck;
    var prisoner := slots.prisoner;
    WakesInPlace(entity, prisoner, slots.actor.value, slots.ai.value, events);
    var m := Disarmed(entity, prisoner, Woken(entity, slots.actor.value, slots.ai.value, events));
    var viewer := ViewerOf(space, entity, m.actor, prisoner);
    var look := Looked(space, viewer, brain.senses, sim.relationships, candidates);
    var heard := Heard(m, look, Listened(space, viewer.Eye(), brain.senses, sim.sounds));
    var enemy := ChosenEnemy(brain, heard.actor.origin, look);
    AcquiresInPlace(space, entity, prisoner, brain, known, sim.squads, enemy, heard, dt);
    var acquired := Acquired(space, entity, prisoner, brain, known, sim.squads, enemy, heard, dt).0;
    StruckInPlace(space, entity, prisoner, brain, HurtOf(sim.damage, entity), acquired);
  }

  // ---- No task moves a monster ----

  ghost predicate InPlace(b: Body, after: Body) {
    after.actor.origin == b.actor.origin && after.actor.hull == b.actor.hull
  }

  lemma BeginsInPlace(stage: Stage, b: Body, task: Task)
    ensures InPlace(b, BeginTask(stage, b, task).0)
  {
    hide Turning.TurnToward, Turning.Normalized, WanderYaw, Pushed;
  }

  lemma ResumesInPlace(stage: Stage, b: Body, task: Task)
    ensures InPlace(b, ResumeTask(stage, b, task).0)
  {
    hide Turning.TurnToward, Turning.Normalized;
  }

  lemma AnswersInPlace(stage: Stage, runner: Runner, conditions: Conditions, b: Body)
    ensures InPlace(b, Answered(runner, stage.dt, conditions, ExecutorOf(stage), b).0)
  {
    hide BeginTask, ResumeTask, CallOf;
    match CallOf(runner, conditions)
    case None =>
    case Some(Begin(_, task)) => BeginsInPlace(stage, b, task);
    case Some(Resume(_, task)) => ResumesInPlace(stage, b, task);
  }

  lemma ActsInPlace(stage: Stage, m: Mind, sounds: seq<SoundEvent>, rng: Pcg32.Generator)
    requires m.ai.runner.schedule.Some?
    ensures InPlace(Body(m.actor, m.ai, sounds, m.events), Acted(stage, m, sounds, rng).0)
  {
    hide Answered, Tick, ExecutorOf;
    AnswersInPlace(stage, m.ai.runner, m.conditions, Body(m.actor, m.ai, sounds, m.events));
  }

  lemma TaskStandsStill(
      space: Space, sim: Sim, entity: Entity, slots: Slots, candidates: seq<Seeable>, known: map<Entity, Seeable>,
      events: seq<AiEvent>, dt: real)
    requires slots.Thinks() && slots.ai.value.brain < |sim.brains|
    ensures var (actor, ai) := AfterTask(space, sim, entity, slots, candidates, known, events, dt);
            && actor.origin == slots.actor.value.origin && actor.hull == slots.actor.value.hull
            && (slots.held ==> actor.yaw == slots.actor.value.yaw &&
                               ai.route == slots.ai.value.route && ai.moveSpeed == slots.ai.value.moveSpeed)
  {
    hide Sensed, Acted, StageOf, Scheduled, Decided;
    var brain := sim.brains[slots.ai.value.brain];
    SensesStandStill(space, sim, entity, slots, brain, candidates, known, events, dt);
    var m := Sensed(space, sim, entity, slots, brain, candidates, known, events, dt).0;
    if !slots.held {
      var decided := Decided(entity, brain, m);
      var stage := StageOf(space, entity, brain, known, decided, dt, sim.tickCount);
      var scheduled := Scheduled(entity, brain, decided);
      DecidesInPlace(entity, brain, m);
      ActsInPlace(stage, scheduled, sim.sounds, sim.rng);
    }
  }

  lemma DecidesInPlace(entity: Entity, brain: Brains.Brain, m: Mind)
    ensures Scheduled(entity, brain, Decided(entity, brain, m)).actor == m.actor
  {
  }

  lemma TickMovesWhatTheTaskLeft(
      space: Space, sim: Sim, entity: Entity, slots: Slots, candidates: seq<Seeable>, known: map<Entity, Seeable>,
      events: seq<AiEvent>, dt: real)
    requires slots.Thinks() && slots.ai.value.brain < |sim.brains|
    ensures var (actor, ai) := AfterTask(space, sim, entity, slots, candidates, known, events, dt);
            var (actor', ai') := Moved(space, actor, ai, dt);
            TickedOne(space, sim, entity, slots, candidates, known, events, dt).slots ==
            slots.(actor := Some(actor'), ai := Some(ai'))
  {
    hide Sensed, Acted, StageOf, Scheduled, Decided, Moved;
  }

  /** A monster ends its tick where the space takes it from where it was,
      toward its waypoint, exactly when its task leaves it with speed and an
      unfinished route, and otherwise where it was. */
  lemma TickMoves(
      space: Space, sim: Sim, entity: Entity, slots: Slots, candidates: seq<Seeable>, known: map<Entity, Seeable>,
      events: seq<AiEvent>, dt: real)
    requires slots.Thinks() && slots.ai.value.brain < |sim.brains|
    ensures var (actor, ai) := AfterTask(space, sim, entity, slots, candidates, known, events, dt);
            var after := TickedOne(space, sim, entity, slots, candidates, known, events, dt).slots;
            && actor.origin == slots.actor.value.origin && actor.hull == slots.actor.value.hull
            && after.Thinks()
            && if UnderWay(ai) then TakesItsStep(space, actor, ai, after.actor.value, after.ai.value, dt)
               else StaysPut(actor, ai, after.actor.value, after.ai.value)
  {
    hide AfterTask, TickedOne, Moved, TakesItsStep;
    TaskStandsStill(space, sim, entity, slots, candidates, known, events, dt);
    TickMovesWhatTheTaskLeft(space, sim, entity, slots, candidates, known, events, dt);
    var (actor, ai) := AfterTask(space, sim, entity, slots, candidates, known, events, dt);
    MovedMeans(space, actor, ai, dt);
  }

  // ---- Walking a route ----

  /** What a tick meets besides the monster itself. */
  datatype Moment = Moment(sim: Sim, candidates: seq<Seeable>, known: map<Entity, Seeable>, events: seq<AiEvent>)

  /** A tick whose task, if any, leaves the way and the speed alone. */
  ghost predicate WalksOn(space: Space, entity: Entity, dt: real, at: Moment, before: Slots, after: Slots) {
    && before.Thinks() && before.ai.value.brain < |at.sim.brains|
    && (var ai := AfterTask(space, at.sim, entity, before, at.candidates, at.known, at.events, dt).1;
        ai.route == before.ai.value.route && ai.moveSpeed == before.ai.value.moveSpeed)
    && after == TickedOne(space, at.sim, entity, before, at.candidates, at.known, at.events, dt).slots
  }

  /** Some ticks of a monster, one after the other; anything may happen around
      it in between. */
  ghost predicate Walk(space: Space, entity: Entity, dt: real, moments: seq<Moment>, run: seq<Slots>) {
    && |run| == |moments| + 1
    && forall i | 0 <= i < |moments| :: WalksOn(space, entity, dt, moments[i], run[i], run[i + 1])
  }

  function Remaining(space: Space, from: Vec3, to: Vec3): real {
    space.length(to.Minus(from).Flat())
  }

  /** Steps of this hull and size lead straight on: outside the waypoint's
      tolerance they come nearer by all of their size, and inside they stay. */
  ghost predicate LeadsOn(space: Space, hull: nat, speed: real, dt: real) {
    forall from: Vec3, to: Vec3 ::
      var there := space.step(hull, from, to, speed, dt).0;
      if Remaining(space, from, to) > 8.0
      then Remaining(space, there, to) == AtLeastZero(Remaining(space, from, to) - speed * dt)
      else Remaining(space, there, to) <= 8.0
  }

  lemma LeadsOnFrom(space: Space, hull: nat, speed: real, dt: real, from: Vec3, to: Vec3)
    requires LeadsOn(space, hull, speed, dt)
    ensures var there := space.step(hull, from, to, speed, dt).0;
            if Remaining(space, from, to) > 8.0
            then Remaining(space, there, to) == AtLeastZero(Remaining(space, from, to) - speed * dt)
            else Remaining(space, there, to) <= 8.0
  {
    hide Remaining;
  }

  ghost predicate Heading(s: Slots, hull: nat, route: Route, speed: real) {
    s.Thinks() && s.actor.value.hull == hull && s.ai.value.route == route && s.ai.value.moveSpeed == speed
  }

  /** One tick of a monster that is under way. */
  lemma OneTickOn(
      space: Space, entity: Entity, dt: real, at: Moment, before: Slots, after: Slots, hull: nat, route: Route,
      speed: real)
    requires WalksOn(space, entity, dt, at, before, after) && Heading(before, hull, route, speed)
    requires speed > 0.0 && !route.IsFinished()
    ensures var waypoint := route.waypoints[route.current];
            var there := space.step(hull, before.actor.value.origin, waypoint, speed, dt).0;
            var reached := Remaining(space, there, waypoint) <= 8.0;
            var next := if reached then route.(current := route.current + 1) else route;
            && Heading(after, hull, next, if next.IsFinished() then 0.0 else speed)
            && after.actor.value.origin == there
  {
    hide AfterTask, TickedOne, Turning.TurnToward;
    TickMoves(space, at.sim, entity, before, at.candidates, at.known, at.events, dt);
  }

  /** Until the tick on which its waypoint is reached a monster comes nearer by
      a step with every tick. */
  lemma {:induction false} OnTheWay(
      space: Space, entity: Entity, dt: real, moments: seq<Moment>, run: seq<Slots>, hull: nat, route: Route,
      speed: real, n: nat)
    requires Walk(space, entity, dt, moments, run) && Heading(run[0], hull, route, speed)
    requires speed > 0.0 && speed * dt > 0.0 && !route.IsFinished() && LeadsOn(space, hull, speed, dt)
    requires var d := Remaining(space, run[0].actor.value.origin, route.waypoints[route.current]);
             n < StepsToCover(d - 8.0, speed * dt) && n <= |moments|
    ensures var waypoint := route.waypoints[route.current];
            var d := Remaining(space, run[0].actor.value.origin, waypoint);
            Heading(run[n], hull, route, speed) &&
            Remaining(space, run[n].actor.value.origin, waypoint) == d - n as real * (speed * dt)
  {
    hide StepsToCover, WalksOn, LeadsOn, Remaining;
    var waypoint := route.waypoints[route.current];
    var d, step := Remaining(space, run[0].actor.value.origin, waypoint), speed * dt;
    if n == 0 {
      assert 0.0 * step == 0.0;
    } else {
      OnTheWay(space, entity, dt, moments, run, hull, route, speed, n - 1);
      BeforeTheLast(n, d - 8.0, step);
      OneMoreStep(n - 1, step);
      LeadsOnFrom(space, hull, speed, dt, run[n - 1].actor.value.origin, waypoint);
      OneTickOn(space, entity, dt, moments[n - 1], run[n - 1], run[n], hull, route, speed);
    }
  }

  /** A waypoint is reached on exactly the tick that covers the way to within
      its tolerance, and then the next one is due, or the monster halts. */
  lemma WaypointIsReached(
      space: Space, entity: Entity, dt: real, moments: seq<Moment>, run: seq<Slots>, hull: nat, route: Route,
      speed: real, n: nat)
    requires Walk(space, entity, dt, moments, run) && Heading(run[0], hull, route, speed)
    requires speed > 0.0 && speed * dt > 0.0 && !route.IsFinished() && LeadsOn(space, hull, speed, dt)
    requires var d := Remaining(space, run[0].actor.value.origin, route.waypoints[route.current]);
             n == StepsToCover(d - 8.0, speed * dt) <= |moments|
    ensures forall k | 0 <= k < n :: Heading(run[k], hull, route, speed)
    ensures var next := route.(current := route.current + 1);
            Heading(run[n], hull, next, if next.IsFinished() then 0.0 else speed)
    ensures Remaining(space, run[n].actor.value.origin, route.waypoints[route.current]) <= 8.0
  {
    hide StepsToCover, WalksOn, LeadsOn, Remaining;
    var waypoint := route.waypoints[route.current];
    var d, step := Remaining(space, run[0].actor.value.origin, waypoint), speed * dt;
    forall k | 0 <= k < n ensures Heading(run[k], hull, route, speed) {
      OnTheWay(space, entity, dt, moments, run, hull, route, speed, k);
    }
    OnTheWay(space, entity, dt, moments, run, hull, route, speed, n - 1);
    StepsCover(d - 8.0, step);
    OneMoreStep(n - 1, step);
    LeadsOnFrom(space, hull, speed, dt, run[n - 1].actor.value.origin, waypoint);
    OneTickOn(space, entity, dt, moments[n - 1], run[n - 1], run[n], hull, route, speed);
  }

  /** Going round is no shorter. */
  ghost predicate Triangle(length: Vec3 -> real) {
    forall a: Vec3, b: Vec3 :: length(a.Plus(b)) <= length(a) + length(b)
  }

  lemma MoreNeedsMore(a: real, b: real, step: real)
    requires step > 0.0 && a <= b
    ensures StepsToCover(a, step) <= StepsToCover(b, step)
  {
    var p, q := a / step, b / step;
    assert p * step == a && q * step == b;
    ScaleLess(q, p, step);
  }

  /** Enough ticks for the waypoints from the `i`th on, each from the one before. */
  function LegTicks(space: Space, waypoints: seq<Vec3>, i: nat, step: real): nat
    requires 0 < i <= |waypoints| && step > 0.0
    decreases |waypoints| - i
  {
    if i == |waypoints| then 0
    else StepsToCover(Remaining(space, waypoints[i - 1], waypoints[i]), step) + LegTicks(space, waypoints, i + 1, step)
  }

  lemma NextLeg(space: Space, at: Vec3, reached: Vec3, next: Vec3, step: real)
    requires Triangle(space.length) && step > 0.0 && Remaining(space, at, reached) <= 8.0
    ensures StepsToCover(Remaining(space, at, next) - 8.0, step) <= StepsToCover(Remaining(space, reached, next), step)
  {
    var a, b := next.Minus(reached).Flat(), reached.Minus(at).Flat();
    assert a.Plus(b) == next.Minus(at).Flat();
    assert space.length(a.Plus(b)) <= space.length(a) + space.length(b);
    MoreNeedsMore(Remaining(space, at, next) - 8.0, Remaining(space, reached, next), step);
  }

  lemma WalkFrom(space: Space, entity: Entity, dt: real, moments: seq<Moment>, run: seq<Slots>, n: nat)
    requires Walk(space, entity, dt, moments, run) && n <= |moments|
    ensures Walk(space, entity, dt, moments[n..], run[n..])
  {
    hide WalksOn;
  }

  /** It has got to the end of its way and halted there. */
  ghost predicate Arrived(space: Space, s: Slots, hull: nat, route: Route) {
    && Heading(s, hull, route.(current := |route.waypoints|), 0.0)
    && (route.waypoints != [] ==>
          Remaining(space, s.actor.value.origin, route.waypoints[|route.waypoints| - 1]) <= 8.0)
  }

  /** A route is walked to its end, where the monster halts, within as many
      ticks as its legs take one by one. */
  lemma {:induction false} RouteIsWalked(
      space: Space, entity: Entity, dt: real, moments: seq<Moment>, run: seq<Slots>, hull: nat, route: Route,
      speed: real) returns (n: nat)
    requires Walk(space, entity, dt, moments, run) && Heading(run[0], hull, route, speed)
    requires speed > 0.0 && speed * dt > 0.0 && !route.IsFinished()
    requires LeadsOn(space, hull, speed, dt) && Triangle(space.length)
    requires |moments| >=
             StepsToCover(Remaining(space, run[0].actor.value.origin, route.waypoints[route.current]) - 8.0, speed * dt)
             + LegTicks(space, route.waypoints, route.current + 1, speed * dt)
    ensures n <=
            StepsToCover(Remaining(space, run[0].actor.value.origin, route.waypoints[route.current]) - 8.0, speed * dt)
            + LegTicks(space, route.waypoints, route.current + 1, speed * dt)
    ensures n <= |moments| && Arrived(space, run[n], hull, route)
    decreases |route.waypoints| - route.current
  {
    hide StepsToCover, WalksOn, LeadsOn, Remaining, Triangle;
    var step := speed * dt;
    var waypoint := route.waypoints[route.current];
    var leg := StepsToCover(Remaining(space, run[0].actor.value.origin, waypoint) - 8.0, step);
    WaypointIsReached(space, entity, dt, moments, run, hull, route, speed, leg);
    var next := route.(current := route.current + 1);
    if next.IsFinished() {
      n := leg;
    } else {
      WalkFrom(space, entity, dt, moments, run, leg);
      NextLeg(space, run[leg].actor.value.origin, waypoint, next.waypoints[next.current], step);
      var more := RouteIsWalked(space, entity, dt, moments[leg..], run[leg..], hull, next, speed);
      n := leg + more;
      assert run[leg..][more] == run[n];
    }
  }

  // ---- Steps that lead on ----

  ghost predicate Scales(length: Vec3 -> real) {
    forall v: Vec3, k: real | k >= 0.0 :: length(v.Times(k)) == k * length(v)
  }

  /** The step of a walker where there is nothing to collide with. */
  function StraightStep(length: Vec3 -> real, from: Vec3, to: Vec3, speed: real, dt: real): (Vec3, real) {
    var delta := to.Minus(from).Flat();
    var far := length(delta);
    var step := speed * dt;
    if far <= EPSILON || step <= 0.0 then (from, 0.0)
    else
      var travelled := if step < far then step else far;
      (from.Plus(delta.Times(1.0 / far).Times(travelled)), travelled)
  }

  lemma Shortened(delta: Vec3, far: real, travelled: real)
    requires far > 0.0
    ensures delta.Minus(delta.Times(1.0 / far).Times(travelled)) == delta.Times(1.0 - travelled / far)
  {
    ShortenedBy(delta.x, far, travelled);
    ShortenedBy(delta.y, far, travelled);
    ShortenedBy(delta.z, far, travelled);
  }

  lemma ShortenedBy(x: real, far: real, travelled: real)
    requires far > 0.0
    ensures x - x * (1.0 / far) * travelled == x * (1.0 - travelled / far)
  {
    var r := 1.0 / far;
    assert travelled / far == r * travelled;
  }

  lemma ShareOf(far: real, travelled: real)
    requires far > 0.0 && travelled <= far
    ensures 1.0 - travelled / far >= 0.0 && (1.0 - travelled / far) * far == far - travelled
  {
    var r := travelled / far;
    assert r * far == travelled;
  }

  lemma StraightComesNearer(length: Vec3 -> real, from: Vec3, to: Vec3, speed: real, dt: real)
    requires Scales(length) && speed * dt > 0.0
    ensures var there := StraightStep(length, from, to, speed, dt).0;
            var far := length(to.Minus(from).Flat());
            length(to.Minus(there).Flat()) == if far <= EPSILON then far else AtLeastZero(far - speed * dt)
  {
    var delta := to.Minus(from).Flat();
    var far := length(delta);
    if far > EPSILON {
      var step := speed * dt;
      var travelled := if step < far then step else far;
      var there := StraightStep(length, from, to, speed, dt).0;
      Shortened(delta, far, travelled);
      ShareOf(far, travelled);
      assert to.Minus(there).Flat() == delta.Minus(delta.Times(1.0 / far).Times(travelled));
    }
  }

  /** Without collisions every step of a walker leads on. */
  lemma StraightLeadsOn(space: Space, hull: nat, speed: real, dt: real)
    requires Scales(space.length) && speed * dt > 0.0
    requires forall from: Vec3, to: Vec3 ::
               space.step(hull, from, to, speed, dt) == StraightStep(space.length, from, to, speed, dt)
    ensures LeadsOn(space, hull, speed, dt)
  {
    hide StraightStep;
    forall from: Vec3, to: Vec3
      ensures var there := space.step(hull, from, to, speed, dt).0;
              if Remaining(space, from, to) > 8.0
              then Remaining(space, there, to) == AtLeastZero(Remaining(space, from, to) - speed * dt)
              else Remaining(space, there, to) <= 8.0
    {
      StraightComesNearer(space.length, from, to, speed, dt);
    }
  }

  /** A monster that a script holds goes on walking, whatever it meets. */
  lemma HeldWalksOn(space: Space, entity: Entity, dt: real, at: Moment, before: Slots)
    requires before.Thinks() && before.ai.value.brain < |at.sim.brains| && before.held
    ensures WalksOn(space, entity, dt, at, before,
                    TickedOne(space, at.sim, entity, before, at.candidates, at.known, at.events, dt).slots)
  {
    hide AfterTask, TickedOne;
    TaskStandsStill(space, at.sim, entity, before, at.candidates, at.known, at.events, dt);
  }

  // ---- Not getting on ----

  /** How far a tick has to take a monster whose step is so large for it to
      get on. */
  function Needed(step: real): real {
    if 0.0 < step && 0.4 * step < 0.5 then 0.4 * step else 0.5
  }

  /** The count of ticks in a row in which it did not get on. */
  function CountedStuck(stuck: nat, halts: bool, distance: real, needed: real): nat {
    if halts || distance >= needed then 0 else if stuck < MAX_STUCK then stuck + 1 else MAX_STUCK
  }

  lemma RecordedIsCounted(stuck: nat, distance: real, step: real)
    ensures Recorded(stuck, distance, step) == CountedStuck(stuck, false, distance, Needed(step))
  {
  }

  lemma MovedCounts(space: Space, actor: Actor, ai: MonsterAi, dt: real)
    ensures var (there, advanced, distance) := AiTick.Advanced(space, actor, ai, dt);
            var ai' := Moved(space, actor, ai, dt).1;
            && ai'.moveSpeed == advanced.moveSpeed
            && ai'.stuck == (if advanced.moveSpeed > 0.0
                             then Recorded(advanced.stuck, distance, StepSize(ai.moveSpeed, dt)) else 0)
            && ai'.pending == advanced.pending + if ai'.moveSpeed > 0.0 && ai'.stuck >= 25 then {Blocked} else {}
  {
    hide AiTick.Advanced, Recorded, StepSize;
  }

  lemma MovedWatches(space: Space, actor: Actor, ai: MonsterAi, dt: real)
    requires UnderWay(ai)
    ensures var (actor', ai') := Moved(space, actor, ai, dt);
            var waypoint := ai.route.waypoints[ai.route.current];
            var distance := space.step(actor.hull, actor.origin, waypoint, ai.moveSpeed, dt).1;
            var stuck := CountedStuck(ai.stuck, ai'.moveSpeed <= 0.0, distance, Needed(StepSize(ai.moveSpeed, dt)));
            && ai'.stuck == stuck
            && ai'.pending == ai.pending + if stuck >= 25 then {Blocked} else {}
  {
    hide Recorded, Needed, AiTick.Advanced, Moved, StepSize;
    AdvancedCounts(space, actor, ai, dt);
    MovedCounts(space, actor, ai, dt);
    var distance := AiTick.Advanced(space, actor, ai, dt).2;
    RecordedIsCounted(ai.stuck, distance, StepSize(ai.moveSpeed, dt));
  }

  lemma AdvancedCounts(space: Space, actor: Actor, ai: MonsterAi, dt: real)
    requires UnderWay(ai)
    ensures var waypoint := ai.route.waypoints[ai.route.current];
            var (actor', ai', distance) := AiTick.Advanced(space, actor, ai, dt);
            && distance == space.step(actor.hull, actor.origin, waypoint, ai.moveSpeed, dt).1
            && ai'.stuck == ai.stuck && ai'.pending == ai.pending
  {
    hide Turning.TurnToward;
  }

  lemma PendingIsTaken(
      space: Space, sim: Sim, entity: Entity, slots: Slots, brain: Brains.Brain, candidates: seq<Seeable>,
      known: map<Entity, Seeable>, events: seq<AiEvent>, dt: real)
    requires slots.Thinks()
    ensures Sensed(space, sim, entity, slots, brain, candidates, known, events, dt).0.ai.pending == {}
  {
    hide Looked, Listened, ChosenEnemy, Woken, Disarmed, Acquired, Struck;
    var prisoner := slots.prisoner;
    var m := Disarmed(entity, prisoner, Woken(entity, slots.actor.value, slots.ai.value, events));
    WokenTakes(entity, prisoner, slots.actor.value, slots.ai.value, events);
    var viewer := ViewerOf(space, entity, m.actor, prisoner);
    var look := Looked(space, viewer, brain.senses, sim.relationships, candidates);
    var heard := Heard(m, look, Listened(space, viewer.Eye(), brain.senses, sim.sounds));
    var enemy := ChosenEnemy(brain, heard.actor.origin, look);
    AcquiredKeepsPending(space, entity, prisoner, brain, known, sim.squads, enemy, heard, dt);
    var acquired := Acquired(space, entity, prisoner, brain, known, sim.squads, enemy, heard, dt).0;
    StruckKeepsPending(space, entity, prisoner, brain, HurtOf(sim.damage, entity), acquired);
  }

  lemma WokenTakes(entity: Entity, prisoner: bool, actor: Actor, ai: MonsterAi, events: seq<AiEvent>)
    ensures Disarmed(entity, prisoner, Woken(entity, actor, ai, events)).ai.pending == {}
  {
    hide Brains.Attacking;
  }

  lemma AcquiredKeepsPending(
      space: Space, entity: Entity, prisoner: bool, brain: Brains.Brain, known: map<Entity, Seeable>,
      squads: Squads.Roster, enemy: Option<Sighting>, m: Mind, dt: real)
    ensures Acquired(space, entity, prisoner, brain, known, squads, enemy, m, dt).0.ai.pending == m.ai.pending
  {
    hide Squads.Shared, Squads.SharedEnemy, Occluded;
  }

  lemma StruckKeepsPending(
      space: Space, entity: Entity, prisoner: bool, brain: Brains.Brain, hurt: Option<Hurt>, m: Mind)
    ensures Struck(space, entity, prisoner, brain, hurt, m).ai.pending == m.ai.pending
  {
  }

  lemma BeginsWithoutPending(stage: Stage, b: Body, task: Task)
    ensures BeginTask(stage, b, task).0.ai.pending == b.ai.pending
    ensures ResumeTask(stage, b, task).0.ai.pending == b.ai.pending
  {
    hide Turning.TurnToward, Turning.Normalized, WanderYaw, Pushed;
  }

  lemma TaskLeavesNothingPending(
      space: Space, sim: Sim, entity: Entity, slots: Slots, candidates: seq<Seeable>, known: map<Entity, Seeable>,
      events: seq<AiEvent>, dt: real)
    requires slots.Thinks() && slots.ai.value.brain < |sim.brains|
    ensures AfterTask(space, sim, entity, slots, candidates, known, events, dt).1.pending == {}
  {
    hide Sensed, StageOf, BeginTask, ResumeTask, Tick;
    var brain := sim.brains[slots.ai.value.brain];
    PendingIsTaken(space, sim, entity, slots, brain, candidates, known, events, dt);
    var m := Sensed(space, sim, entity, slots, brain, candidates, known, events, dt).0;
    if !slots.held {
      var decided := Decided(entity, brain, m);
      var stage := StageOf(space, entity, brain, known, decided, dt, sim.tickCount);
      var scheduled := Scheduled(entity, brain, decided);
      match CallOf(scheduled.ai.runner, scheduled.conditions)
      case None =>
      case Some(call) =>
        BeginsWithoutPending(stage, Body(scheduled.actor, scheduled.ai, sim.sounds, scheduled.events), call.task);
    }
  }

  /** Steps that neither reach the waypoint nor get on. */
  ghost predicate LeadsNowhere(space: Space, hull: nat, to: Vec3, speed: real, dt: real) {
    forall from: Vec3 ::
      var (there, distance) := space.step(hull, from, to, speed, dt);
      Remaining(space, there, to) > 8.0 && distance < Needed(StepSize(speed, dt))
  }

  /** The task, if any, leaves the count of ticks without progress alone. */
  ghost predicate LeavesCount(space: Space, entity: Entity, dt: real, at: Moment, before: Slots) {
    && before.Thinks() && before.ai.value.brain < |at.sim.brains|
    && AfterTask(space, at.sim, entity, before, at.candidates, at.known, at.events, dt).1.stuck == before.ai.value.stuck
  }

  lemma OneTickStuck(
      space: Space, entity: Entity, dt: real, at: Moment, before: Slots, after: Slots, hull: nat, route: Route,
      speed: real)
    requires WalksOn(space, entity, dt, at, before, after) && Heading(before, hull, route, speed)
    requires LeavesCount(space, entity, dt, at, before) && before.ai.value.stuck < MAX_STUCK
    requires speed > 0.0 && !route.IsFinished()
    requires LeadsNowhere(space, hull, route.waypoints[route.current], speed, dt)
    ensures Heading(after, hull, route, speed)
    ensures var stuck := before.ai.value.stuck + 1;
            after.ai.value.stuck == stuck && after.ai.value.pending == if stuck >= 25 then {Blocked} else {}
  {
    hide AfterTask, TickedOne, Turning.TurnToward, Moved, StepSize, Needed;
    OneTickOn(space, entity, dt, at, before, after, hull, route, speed);
    TickMovesWhatTheTaskLeft(space, at.sim, entity, before, at.candidates, at.known, at.events, dt);
    TaskStandsStill(space, at.sim, entity, before, at.candidates, at.known, at.events, dt);
    TaskLeavesNothingPending(space, at.sim, entity, before, at.candidates, at.known, at.events, dt);
    var (actor, ai) := AfterTask(space, at.sim, entity, before, at.candidates, at.known, at.events, dt);
    MovedWatches(space, actor, ai, dt);
  }

  /** A monster that does not get on is told that it is blocked from the 25th
      such tick in a row on. */
  lemma {:induction false} BlockedAfter25Ticks(
      space: Space, entity: Entity, dt: real, moments: seq<Moment>, run: seq<Slots>, hull: nat, route: Route,
      speed: real, n: nat)
    requires Walk(space, entity, dt, moments, run) && Heading(run[0], hull, route, speed)
    requires forall i | 0 <= i < |moments| :: LeavesCount(space, entity, dt, moments[i], run[i])
    requires speed > 0.0 && !route.IsFinished()
    requires LeadsNowhere(space, hull, route.waypoints[route.current], speed, dt)
    requires run[0].ai.value.stuck == 0 && n <= |moments| && n <= MAX_STUCK
    ensures Heading(run[n], hull, route, speed) && run[n].ai.value.stuck == n
    ensures n > 0 ==> (Blocked in run[n].ai.value.pending <==> n >= 25)
  {
    hide LeadsNowhere, WalksOn, LeavesCount;
    if n > 0 {
      BlockedAfter25Ticks(space, entity, dt, moments, run, hull, route, speed, n - 1);
      OneTickStuck(space, entity, dt, moments[n - 1], run[n - 1], run[n], hull, route, speed);
    }
  }
}

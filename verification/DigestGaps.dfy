/** Each thing that a digest is not fed and that the next tick reads: two
    moments that differ in nothing else, are fed alike, and go on differently. */
module DigestGaps {
  import opened Wrappers
  import opened Geometry
  import opened MonsterStates
  import opened Schedules
  import opened Senses
  import opened Sequences
  import opened Steps
  import opened AiTick
  import opened Determinism
  import opened Replays
  import Brains
  import Ordering
  import Pcg32
  import Squads
  import Turning

  // ---- What a gap is ----

  ghost predicate Parts(
      space: Space, a: Moment, b: Moment, q: Queries, r: Queries, dt: real,
      actors: seq<Entity>, minds: seq<Entity>, others: seq<Entity>, wits: seq<Entity>)
  {
    && Digestible(a, actors, minds) && Digestible(b, others, wits) && Answers(a.world, q) && Answers(b.world, r)
    && HashFed(a.sim, a.world, actors, minds) == HashFed(b.sim, b.world, others, wits)
    && TickedWorld(space, a.sim, a.world, q, dt).events != TickedWorld(space, b.sim, b.world, r, dt).events
  }

  /** The digest is fed the same of both, and their next ticks report different
      things. */
  ghost predicate Gap(a: Moment, b: Moment) {
    exists space, q, r, dt, actors, minds, others, wits :: Parts(space, a, b, q, r, dt, actors, minds, others, wits)
  }

  // ---- A world of one monster and one thing ----

  datatype Scene = Scene(sim: Sim, self: Entity, slots: Slots, other: Entity, thing: Slots)

  predicate IsScene(s: Scene) {
    s.self.id < s.other.id && s.slots.Thinks() && s.thing.actor.Some? && s.thing.ai.None?
  }

  function WorldOf(s: Scene): World {
    map[s.self := s.slots, s.other := s.thing]
  }

  function MomentOf(s: Scene): Moment {
    Moment(s.sim, WorldOf(s))
  }

  function TaggedIn(s: Scene): seq<Entity> {
    if IsTagged(s.slots) then [s.self] else []
  }

  function QueriesOf(s: Scene): Queries {
    Queries([s.self, s.other], TaggedIn(s), [s.self])
  }

  function CandidatesOf(space: Space, s: Scene): seq<Seeable>
    requires IsScene(s)
  {
    [SeeableOf(space, s.self, s.slots), SeeableOf(space, s.other, s.thing)]
  }

  /** The squads that the tick begins with. */
  function Squadron(s: Scene): Squads.Roster {
    Rebuilt(s.sim.squads,
            if IsTagged(s.slots) && s.slots.tag.value.name != "" then [OfferOf(s.self, s.slots)] else [])
  }

  function TickOf(space: Space, s: Scene): Outcome
    requires IsScene(s)
  {
    TickedOne(space, s.sim.(squads := Squadron(s)), s.self, s.slots, CandidatesOf(space, s),
              Known(CandidatesOf(space, s)), [], 0.0)
  }

  lemma SceneAnswers(s: Scene)
    requires IsScene(s)
    ensures Answers(WorldOf(s), QueriesOf(s)) && Digestible(MomentOf(s), [s.self, s.other], [s.self])
  {
    assert s.self != s.other;
  }

  lemma TwoSorted<T>(a: Ordering.Row<T>, b: Ordering.Row<T>)
    requires a.id < b.id
    ensures Ordering.Sorted([a, b]) == [a, b]
  {
    OneSorted(b);
    assert [a, b][1..] == [b];
  }

  lemma OneSorted<T>(a: Ordering.Row<T>)
    ensures Ordering.Sorted([a]) == [a]
  {
    assert [a][1..] == [];
    assert Ordering.Sorted([a][1..]) == [];
  }

  lemma SceneOffers(s: Scene)
    requires IsScene(s)
    ensures forall e | e in TaggedIn(s) :: e in WorldOf(s) && IsTagged(WorldOf(s)[e])
    ensures Offers(WorldOf(s), TaggedIn(s))
            == if IsTagged(s.slots) && s.slots.tag.value.name != "" then [OfferOf(s.self, s.slots)] else []
  {
    hide Ordering.Sorted;
    NoneSorted<Squads.Candidate>();
    if IsTagged(s.slots) {
      var row := Ordering.Row(s.self.id, OfferOf(s.self, s.slots));
      assert TaggedIn(s)[..0] == [] && OfferRows(WorldOf(s), TaggedIn(s)[..0]) == [];
      assert OfferRows(WorldOf(s), TaggedIn(s)) == if s.slots.tag.value.name != "" then [row] else [];
      OneSorted(row);
    } else {
      assert OfferRows(WorldOf(s), TaggedIn(s)) == [];
    }
  }

  lemma NoneSorted<T>()
    ensures Ordering.Sorted<T>([]) == []
  {
  }

  /** A scene's tick is its monster's. */
  lemma SceneTick(space: Space, s: Scene)
    requires IsScene(s)
    ensures Answers(WorldOf(s), QueriesOf(s))
    ensures var events := TickOf(space, s).events;
            TickedWorld(space, s.sim, WorldOf(s), QueriesOf(s), 0.0).events
            == if |events| > MAX_EVENTS_PER_TICK then events[..MAX_EVENTS_PER_TICK] else events
  {
    hide Ordering.Sorted, TickedOne, Rebuilt, Expired, Answers, Known, OfferOf;
    SceneAnswers(s);
    AnswersListed(WorldOf(s), QueriesOf(s));
    SceneOffers(s);
    SceneSeen(space, s);
    SceneOrder(s);
    var start := Whole(s.sim.(squads := Squadron(s)), WorldOf(s), []);
    var candidates := CandidatesOf(space, s);
    assert TickedEach(space, start, [s.self], candidates, Known(candidates), 0.0)
        == TickedNext(space, start, s.self, candidates, Known(candidates), 0.0) by {
      assert [s.self][..0] == [];
    }
  }

  lemma SceneSeen(space: Space, s: Scene)
    requires IsScene(s)
    ensures Snapshot(space, WorldOf(s), [s.self, s.other]) == CandidatesOf(space, s)
  {
    hide Ordering.Sorted;
    var a := Ordering.Row(s.self.id, SeeableOf(space, s.self, s.slots));
    var b := Ordering.Row(s.other.id, SeeableOf(space, s.other, s.thing));
    assert SeenRows(space, WorldOf(s), [s.self, s.other]) == [a, b];
    TwoSorted(a, b);
  }

  lemma SceneOrder(s: Scene)
    ensures Order([s.self]) == [s.self]
  {
    hide Ordering.Sorted;
    assert ThinkingRows([s.self]) == [Ordering.Row(s.self.id, s.self)];
    OneSorted(Ordering.Row(s.self.id, s.self));
  }

  /** Scenes of which the digest is fed the same. */
  ghost predicate FedAlikeScenes(s: Scene, t: Scene)
    requires IsScene(s) && IsScene(t)
  {
    && s.self.id == t.self.id && s.other.id == t.other.id && s.slots.actor == t.slots.actor
    && s.thing.actor == t.thing.actor && MindOf(s.slots.ai.value) == MindOf(t.slots.ai.value)
    && HeadOf(s.sim) == HeadOf(t.sim) && SquadFed(s.sim.squads.squads) == SquadFed(t.sim.squads.squads)
  }

  lemma ScenesHash(s: Scene, t: Scene)
    requires IsScene(s) && IsScene(t) && FedAlikeScenes(s, t)
    ensures Digestible(MomentOf(s), [s.self, s.other], [s.self]) && Digestible(MomentOf(t), [t.self, t.other], [t.self])
    ensures HashFed(s.sim, WorldOf(s), [s.self, s.other], [s.self])
            == HashFed(t.sim, WorldOf(t), [t.self, t.other], [t.self])
  {
    hide Ordering.Sorted, MindOf, SquadFed;
    SceneAnswers(s);
    SceneAnswers(t);
    assert ActorRows(WorldOf(s), [s.self, s.other]) == ActorRows(WorldOf(t), [t.self, t.other]);
    assert MindRows(WorldOf(s), [s.self]) == MindRows(WorldOf(t), [t.self]);
  }

  lemma GapBetween(space: Space, s: Scene, t: Scene)
    requires IsScene(s) && IsScene(t) && FedAlikeScenes(s, t)
    requires |TickOf(space, s).events| <= MAX_EVENTS_PER_TICK && |TickOf(space, t).events| <= MAX_EVENTS_PER_TICK
    requires TickOf(space, s).events != TickOf(space, t).events
    ensures Gap(MomentOf(s), MomentOf(t))
  {
    hide TickedWorld, HashFed, FedAlikeScenes, Digestible, Answers, TickedOne;
    SceneAnswers(s);
    SceneAnswers(t);
    ScenesHash(s, t);
    SceneTick(space, s);
    SceneTick(space, t);
    assert Parts(space, MomentOf(s), MomentOf(t), QueriesOf(s), QueriesOf(t), 0.0,
                 [s.self, s.other], [s.self], [t.self, t.other], [t.self]);
  }

  // ---- A monster with little to do ----

  /** The geometry of an empty world for those who stand on its first axis, look
      along it, and do not move. */
  const LINE: Space := Space(
    (v: Vec3) => if v.x < 0.0 then -v.x else v.x,
    _ => AHEAD,
    (fovCos: real, _, to: Vec3) => fovCos <= if to.x < 0.0 then -1.0 else 1.0,
    (_, _) => true,
    (_, to: Vec3) => to.x > 0.0,
    (from: Vec3, to: Vec3) => if to.x == from.x then None else Some(if to.x < from.x then 180.0 else 0.0),
    (_, from, _, _, _) => (from, 0.0),
    (_, _, to) => to,
    (_, _, to) => to)

  const REST: Schedule := Schedule("rest", [Wait(1.0)], {})

  /** A brain that keeps its state and rests, and sees as far as it is given. */
  function Watcher(sight: real): Brains.Brain {
    Brains.Brain(
      Senses(sight, 0.0, 1.0), (state, _) => state, (_, _) => REST, 20.0, false, (_, _, _) => false, false, false, 0.0,
      0.0, 0.0)
  }

  const SELF: Entity := Entity(0, 0)
  const OTHER: Entity := Entity(1, 1)

  /** Who was there before. */
  const GONE: Entity := Entity(1, 0)
  const AHEAD: Vec3 := Vec3(1.0, 0.0, 0.0)
  const BEHIND: Vec3 := Vec3(-1.0, 0.0, 0.0)
  const ACTOR: Actor := Actor(Unclassified, ZERO, ZERO, 0.0, 1.0, true, false, 0)
  const THING: Slots := Slots(Some(ACTOR.(origin := AHEAD)), None, false, false, None, false)

  function Hostile(): RelationshipTable {
    seq(CLASSES * CLASSES, _ => Hate)
  }

  function Still(sight: real, sounds: seq<SoundEvent>, damage: Damage, squads: seq<Squads.Squad>): Sim {
    Sim([Watcher(sight)], Hostile(), sounds, damage,
        Squads.Roster(squads, if squads == [] then map[] else map[squads[0].name := 0], []),
        Pcg32.Seeded(0, Pcg32.DEFAULT_STREAM), 0)
  }

  function Working(tasks: seq<Task>, mask: Conditions, started: bool): Runner {
    Runner(Some(Schedule("work", tasks, mask)), 0, started, 0.0)
  }

  function Ai(runner: Runner, memory: Option<EnemyMemory>): MonsterAi {
    MonsterAi(0, Idle, {}, runner, memory, NO_ROUTE, None, None, Idling, 0.0, 0.0, 0, {})
  }

  function Monster(ai: MonsterAi, held: bool): Slots {
    Slots(Some(ACTOR), Some(ai), false, false, None, held)
  }

  /** A monster by itself, apart from one thing it takes no notice of. */
  function Lone(ai: MonsterAi): Scene {
    Scene(Still(0.0, [], map[], []), SELF, Monster(ai, false), OTHER, THING)
  }

  ghost predicate Undisturbed(s: Scene) {
    && IsScene(s) && s.sim.brains == [Watcher(0.0)] && s.slots.actor == Some(ACTOR) && s.slots.ai.value.brain == 0
    && s.slots.ai.value.memory == None && s.slots.ai.value.pending == {} && s.slots.ai.value.stuck == 0
    && s.slots.ai.value.state == Idle && !s.slots.prisoner && s.slots.tag == None
    && s.sim.damage == map[] && s.sim.sounds == [] && s.sim.squads.squads == []
  }

  lemma NoSquads(s: Scene)
    requires s.slots.tag == None
    ensures Squadron(s).squads == []
  {
    hide Previous;
    assert Squads.InTurn([]) == [];
    assert Squads.Built([]).squads == [];
  }

  lemma SensesNothing(s: Scene)
    requires Undisturbed(s)
    ensures Sensed(LINE, s.sim.(squads := Squadron(s)), s.self, s.slots, Watcher(0.0), CandidatesOf(LINE, s),
                   Known(CandidatesOf(LINE, s)), [], 0.0).0
            == Mind(ACTOR, s.slots.ai.value.(conditions := {}), {}, [])
  {
    hide Visible, Noticed, Known, SelectEnemy, SeesEnemyNow, LosesSight, Rebuilt;
    NoSquads(s);
  }

  /** Its task begun or resumed. */
  function Worked(stage: Stage, m: Mind, sounds: seq<SoundEvent>, task: Task, started: bool): (Body, TaskStatus) {
    var b := Body(m.actor, m.ai, sounds, m.events);
    if started then ResumeTask(stage, b, task) else BeginTask(stage, b, task)
  }

  function Ending(entity: Entity, outcome: RunOutcome): seq<AiEvent> {
    [AiEvent(entity, ScheduleEnded("work", outcome)), AiEvent(entity, ScheduleStarted("rest"))]
  }

  /** What its tick has reported then: what its task does, and the end of its
      schedule when the task fails or was the last. */
  function Telling(
      stage: Stage, m: Mind, sounds: seq<SoundEvent>, task: Task, tail: seq<Task>, started: bool): seq<AiEvent>
  {
    var (body, status) := Worked(stage, m, sounds, task, started);
    body.events +
    match status
    case Failed => Ending(stage.entity, GaveUp)
    case Complete => if tail == [] then Ending(stage.entity, Done) else []
    case Ongoing => []
  }

  lemma AnswersOnce(stage: Stage, m: Mind, sounds: seq<SoundEvent>, task: Task, tail: seq<Task>, started: bool)
    requires !task.IsTiming() && stage.dt == 0.0
    ensures Answered(Working([task] + tail, {}, started), 0.0, m.conditions, ExecutorOf(stage),
                     Body(m.actor, m.ai, sounds, m.events))
            == Worked(stage, m, sounds, task, started)
  {
    hide BeginTask, ResumeTask;
  }

  lemma TicksOnce(
      task: Task, tail: seq<Task>, started: bool, conditions: Conditions, g: Pcg32.Generator, answer: TaskStatus)
    requires !task.IsTiming()
    ensures Tick(Working([task] + tail, {}, started), 0.0, conditions, g, answer).outcome
            == match answer
               case Ongoing => StillRunning
               case Complete => if tail == [] then RunOutcome.Done else RunOutcome.Advanced
               case Failed => GaveUp
  {
  }

  lemma ActsOnce(
      stage: Stage, m: Mind, sounds: seq<SoundEvent>, task: Task, tail: seq<Task>, started: bool,
      rng: Pcg32.Generator)
    requires !task.IsTiming() && stage.dt == 0.0 && stage.brain == Watcher(0.0)
    requires m.ai.runner == Working([task] + tail, {}, started)
    ensures Acted(stage, m, sounds, rng).0.events == Telling(stage, m, sounds, task, tail, started)
  {
    hide Answered, Tick, Worked, ExecutorOf;
    AnswersOnce(stage, m, sounds, task, tail, started);
    TicksOnce(task, tail, started, m.conditions, rng, Worked(stage, m, sounds, task, started).1);
  }

  /** The monster of a scene once it has sensed, and the stage it then acts on. */
  function Minded(s: Scene): Mind
    requires IsScene(s)
  {
    Sensed(LINE, s.sim.(squads := Squadron(s)), s.self, s.slots, Watcher(0.0), CandidatesOf(LINE, s),
           Known(CandidatesOf(LINE, s)), [], 0.0).0
  }

  function Staged(s: Scene): Stage
    requires IsScene(s)
  {
    StageOf(LINE, s.self, Watcher(0.0), Known(CandidatesOf(LINE, s)), Minded(s), 0.0, s.sim.tickCount)
  }

  lemma WorksOnce(s: Scene, task: Task, tail: seq<Task>, started: bool)
    requires IsScene(s) && !s.slots.held && s.sim.brains == [Watcher(0.0)] && s.slots.ai.value.brain == 0
    requires !task.IsTiming() && Minded(s).ai.runner == Working([task] + tail, {}, started)
    ensures TickOf(LINE, s).events == Telling(Staged(s), Minded(s), s.sim.sounds, task, tail, started)
  {
    hide Sensed, Acted, Telling, Known, Moved, Rebuilt, StageOf, LINE;
    StageShows(s, Minded(s));
    ActsOnce(Staged(s), Minded(s), s.sim.sounds, task, tail, started, s.sim.rng);
  }

  lemma StageShows(s: Scene, m: Mind)
    requires IsScene(s)
    ensures var stage := StageOf(LINE, s.self, Watcher(0.0), Known(CandidatesOf(LINE, s)), m, 0.0, s.sim.tickCount);
            stage.dt == 0.0 && stage.brain == Watcher(0.0) && stage.entity == s.self
  {
    hide Known, LINE;
  }

  lemma OnlySensesWhenHeld(s: Scene, sight: real)
    requires IsScene(s) && s.slots.held && s.sim.brains == [Watcher(sight)] && s.slots.ai.value.brain == 0
    ensures TickOf(LINE, s).events
            == Sensed(LINE, s.sim.(squads := Squadron(s)), s.self, s.slots, Watcher(sight), CandidatesOf(LINE, s),
                      Known(CandidatesOf(LINE, s)), [], 0.0).0.events
  {
    hide Sensed, Known, Moved, Rebuilt, LINE;
  }

  /** What an undisturbed monster's tick reports. */
  function Told(s: Scene, task: Task, tail: seq<Task>, started: bool): seq<AiEvent>
    requires s.slots.Thinks()
  {
    Telling(Stage(s.self, Watcher(0.0), LINE, None, None, None, 0.0, s.sim.tickCount),
            Mind(ACTOR, s.slots.ai.value.(conditions := {}), {}, []), [], task, tail, started)
  }

  lemma TellsUndisturbed(s: Scene, task: Task, tail: seq<Task>, started: bool)
    requires Undisturbed(s) && !s.slots.held && !task.IsTiming()
    requires s.slots.ai.value.runner == Working([task] + tail, {}, started)
    ensures TickOf(LINE, s).events == Told(s, task, tail, started)
  {
    hide Telling, TickOf, Sensed, LINE, Known;
    SensesNothing(s);
    WorksOnce(s, task, tail, started);
  }

  /** Any mind that is awake, remembers nobody and has nothing pending. */
  ghost predicate Blank(ai: MonsterAi) {
    ai.brain == 0 && ai.memory == None && ai.pending == {} && ai.stuck == 0 && ai.state == Idle
  }

  /** Two minds that are fed alike and whose tasks tell different things. */
  lemma MindGap(
      a: MonsterAi, b: MonsterAi, task: Task, started: bool, other: Task, begun: bool, tail: seq<Task>)
    requires Blank(a) && Blank(b) && MindOf(a) == MindOf(b) && !task.IsTiming() && !other.IsTiming()
    requires a.runner == Working([task] + tail, {}, started) && b.runner == Working([other] + tail, {}, begun)
    requires Told(Lone(a), task, tail, started) != Told(Lone(b), other, tail, begun)
    requires |Told(Lone(a), task, tail, started)| <= 3 && |Told(Lone(b), other, tail, begun)| <= 3
    ensures Gap(MomentOf(Lone(a)), MomentOf(Lone(b)))
  {
    hide SquadFed, Gap, TickOf, MomentOf, MindOf, Told;
    TellsUndisturbed(Lone(a), task, tail, started);
    TellsUndisturbed(Lone(b), other, tail, begun);
    GapBetween(LINE, Lone(a), Lone(b));
  }

  // ---- The mind ----

  const CALL_OUT: Runner := Working([SetActivity(Running), Fail], {}, false)

  const LOOK_THERE: Runner := Working([FaceTarget], {}, false)

  /** A mind about to turn to something behind it. */
  function TurningBack(): MonsterAi {
    Ai(LOOK_THERE, None).(moveTarget := Some(BEHIND))
  }

  /** The same once a tick has begun the turn. */
  function Turned(): MonsterAi {
    TurningBack().(runner := LOOK_THERE.(started := true), idealYaw := 180.0)
  }

  lemma TurnsBack(stage: Stage, b: Body)
    requires stage.space == LINE && stage.dt == 0.0 && b.actor == ACTOR && b.ai.moveTarget == Some(BEHIND)
    ensures BeginTask(stage, b, FaceTarget) == (b.(ai := b.ai.(idealYaw := 180.0)), Ongoing)
  {
    assert Turning.TurnToward(0.0, 180.0, TURN_RATE * 0.0) == (0.0, false);
  }

  lemma GoesOn(stage: Stage, m: Mind, sounds: seq<SoundEvent>, task: Task, rng: Pcg32.Generator)
    requires !task.IsTiming() && stage.dt == 0.0 && m.ai.runner == Working([task], {}, false)
    requires Worked(stage, m, sounds, task, false).1 == Ongoing
    ensures var body := Worked(stage, m, sounds, task, false).0;
            Acted(stage, m, sounds, rng).0 == body.(ai := body.ai.(runner := Working([task], {}, true)))
  {
    hide Answered, Worked, ExecutorOf;
    assert [task] + [] == [task];
    AnswersOnce(stage, m, sounds, task, [], false);
  }

  lemma StandingStays(actor: Actor, ai: MonsterAi)
    requires ai.moveSpeed == 0.0 && ai.stuck == 0
    ensures Moved(LINE, actor, ai, 0.0) == (actor, ai)
  {
  }

  lemma BeginsToTurn()
    ensures TickOf(LINE, Lone(TurningBack())).slots == Monster(Turned(), false)
  {
    hide Sensed, Known, Rebuilt, Acted, Moved, BeginTask, LINE;
    var s := Lone(TurningBack());
    var m := Mind(ACTOR, TurningBack(), {}, []);
    SensesNothing(s);
    assert Minded(s) == m;
    TurnsBack(Staged(s), Body(ACTOR, TurningBack(), [], []));
    GoesOn(Staged(s), m, [], FaceTarget, s.sim.rng);
    StandingStays(ACTOR, Turned());
  }

  /** Whether the current task has begun: one that turns back goes on turning
      when it has heard of something where it stands, and one that is about to
      begin has nothing to turn to. */
  lemma StartedIsNeeded()
    ensures var ai := Turned().(moveTarget := Some(ZERO));
            Gap(MomentOf(Lone(ai)), MomentOf(Lone(ai.(runner := LOOK_THERE))))
  {
    hide Gap, MomentOf;
    var ai := Turned().(moveTarget := Some(ZERO));
    assert [FaceTarget] + [] == [FaceTarget];
    MindGap(ai, ai.(runner := LOOK_THERE), FaceTarget, true, FaceTarget, false, []);
  }

  /** Where to go. */
  lemma MoveTargetIsNeeded()
    ensures var ai := Ai(Working([FaceTarget, Fail], {}, false), None);
            Gap(MomentOf(Lone(ai)), MomentOf(Lone(ai.(moveTarget := Some(ZERO)))))
  {
    hide Gap, MomentOf;
    var ai := Ai(Working([FaceTarget, Fail], {}, false), None);
    assert [FaceTarget] + [Fail] == [FaceTarget, Fail];
    MindGap(ai, ai.(moveTarget := Some(ZERO)), FaceTarget, false, FaceTarget, false, [Fail]);
  }

  /** The cover that was found. */
  lemma CoverIsNeeded()
    ensures var ai := Ai(Working([TakeCover, Fail], {}, false), None);
            Gap(MomentOf(Lone(ai)), MomentOf(Lone(ai.(cover := Some(ZERO)))))
  {
    hide Gap, MomentOf;
    var ai := Ai(Working([TakeCover, Fail], {}, false), None);
    assert [TakeCover] + [Fail] == [TakeCover, Fail];
    MindGap(ai, ai.(cover := Some(ZERO)), TakeCover, false, TakeCover, false, [Fail]);
  }

  lemma CallsOut(s: Scene)
    requires Undisturbed(s) && !s.slots.held && s.slots.ai.value.runner == CALL_OUT
    requires s.slots.ai.value.activity == Idling
    ensures TickOf(LINE, s).events == [AiEvent(s.self, ActivityChanged(Running))]
  {
    hide TickOf, LINE;
    assert [SetActivity(Running)] + [Fail] == [SetActivity(Running), Fail];
    TellsUndisturbed(s, SetActivity(Running), [Fail], false);
  }

  lemma WithoutBrainNothing(s: Scene)
    requires IsScene(s) && s.slots.ai.value.brain >= |s.sim.brains|
    ensures TickOf(LINE, s).events == []
  {
    hide Sensed, Thought, HeldStill, Rebuilt, Known, LINE;
  }

  /** A scene in which the monster calls out, and one that is fed alike in
      which it does not. */
  lemma CallGap(s: Scene, t: Scene)
    requires Undisturbed(s) && !s.slots.held && s.slots.ai.value.runner == CALL_OUT
    requires s.slots.ai.value.activity == Idling
    requires IsScene(t) && FedAlikeScenes(s, t)
    requires TickOf(LINE, t).events != [AiEvent(s.self, ActivityChanged(Running))] && |TickOf(LINE, t).events| <= 3
    ensures Gap(MomentOf(s), MomentOf(t))
  {
    hide Gap, TickOf, MomentOf, LINE, FedAlikeScenes;
    CallsOut(s);
    GapBetween(LINE, s, t);
  }

  function Caller(): Scene {
    Lone(Ai(CALL_OUT, None))
  }

  /** Which brain the monster has. */
  lemma BrainIsNeeded()
    ensures var ai := Ai(CALL_OUT, None);
            Gap(MomentOf(Caller()), MomentOf(Lone(ai.(brain := 1))))
  {
    hide Gap, MomentOf, TickOf;
    WithoutBrainNothing(Lone(Ai(CALL_OUT, None).(brain := 1)));
    CallGap(Caller(), Lone(Ai(CALL_OUT, None).(brain := 1)));
  }

  /** And what the brains are. */
  lemma BrainsAreNeeded()
    ensures var s := Caller();
            Gap(MomentOf(s), MomentOf(s.(sim := s.sim.(brains := []))))
  {
    hide Gap, MomentOf, TickOf;
    var t := Caller().(sim := Caller().sim.(brains := []));
    WithoutBrainNothing(t);
    CallGap(Caller(), t);
  }

  const STAND: Runner := Working([StopMoving, Fail], {}, false)

  lemma StandsSilently(s: Scene)
    requires Undisturbed(s) && !s.slots.held && s.slots.ai.value.runner == STAND
    ensures TickOf(LINE, s).events == []
  {
    hide TickOf, LINE;
    assert [StopMoving] + [Fail] == [StopMoving, Fail];
    TellsUndisturbed(s, StopMoving, [Fail], false);
  }

  /** That a name stands for one schedule: were it given to two, they would be
      fed alike and go on differently. */
  lemma ScheduleIsNeeded()
    ensures Gap(MomentOf(Caller()), MomentOf(Lone(Ai(STAND, None))))
  {
    hide Gap, MomentOf, TickOf;
    StandsSilently(Lone(Ai(STAND, None)));
    CallGap(Caller(), Lone(Ai(STAND, None)));
  }

  // ---- The entities and their flags ----

  /** Which occupant of its slot an entity is. */
  lemma GenerationIsNeeded()
    ensures var s := Caller();
            Gap(MomentOf(s), MomentOf(s.(self := Entity(0, 1))))
  {
    hide Gap, MomentOf, TickOf;
    CallsOut(Caller().(self := Entity(0, 1)));
    CallGap(Caller(), Caller().(self := Entity(0, 1)));
  }

  function Hold(s: Scene): Scene {
    s.(slots := s.slots.(held := true))
  }

  lemma HoldsQuietly(s: Scene)
    requires Undisturbed(s) && s.slots.held
    ensures TickOf(LINE, s).events == []
  {
    hide TickOf, LINE, Sensed;
    OnlySensesWhenHeld(s, 0.0);
    SensesNothing(s);
  }

  /** Whether a script holds the monster. */
  lemma HeldIsNeeded()
    ensures Gap(MomentOf(Caller()), MomentOf(Hold(Caller())))
  {
    hide Gap, MomentOf, TickOf;
    HoldsQuietly(Hold(Caller()));
    CallGap(Caller(), Hold(Caller()));
  }

  // ---- What a held monster notices ----

  /** A monster that a script holds, and that remembers somebody. */
  function Remembering(enemy: Entity): Scene {
    Scene(Still(0.0, [], map[], []), SELF,
          Monster(Ai(CLEARED, Some(EnemyMemory(enemy, ZERO, 0.0, true, 0.0))), true), OTHER, THING)
  }

  lemma KnowsBoth(s: Scene)
    requires IsScene(s)
    ensures Known(CandidatesOf(LINE, s)) == map[s.self := SeeableOf(LINE, s.self, s.slots),
                                             s.other := SeeableOf(LINE, s.other, s.thing)]
  {
    hide LINE;
    var c := CandidatesOf(LINE, s);
    assert c[..1] == [c[0]] && [c[0]][..0] == [];
    assert Known([c[0]][..0]) == map[];
    assert Known(c[..1]) == map[s.self := c[0]];
  }

  /** What a monster that can see and hear nothing remembers. */
  function Blinded(s: Scene): Mind
    requires IsScene(s)
  {
    var ai := s.slots.ai.value;
    Heard(Disarmed(s.self, s.slots.prisoner, Woken(s.self, s.slots.actor.value, ai, [])),
          LookResult({}, [], None), ListenResult({}, None))
  }

  lemma SensesBlindly(s: Scene)
    requires IsScene(s) && s.slots.held && s.sim.brains == [Watcher(0.0)] && s.slots.ai.value.brain == 0
    requires s.sim.sounds == []
    ensures var acquired := Acquired(LINE, s.self, s.slots.prisoner, Watcher(0.0), Known(CandidatesOf(LINE, s)),
                                     Squadron(s), None, Blinded(s), 0.0).0;
            var hurt := HurtOf(s.sim.damage, s.self);
            TickOf(LINE, s).events
            == Concluded(Struck(LINE, s.self, s.slots.prisoner, Watcher(0.0), hurt, acquired)).events
  {
    hide TickOf, Acquired, Struck, Known, Woken, Disarmed, Concluded, Visible, Noticed, LINE, Rebuilt;
    OnlySensesWhenHeld(s, 0.0);
  }

  lemma RemembersOther()
    ensures TickOf(LINE, Remembering(OTHER)).events == []
  {
    hide TickOf, Known, Rebuilt;
    var s := Remembering(OTHER);
    SensesBlindly(s);
    KnowsBoth(s);
  }

  lemma ForgetsTheGone()
    ensures TickOf(LINE, Remembering(GONE)).events == [AiEvent(SELF, EnemyLost)]
  {
    hide TickOf, Known, Rebuilt;
    var s := Remembering(GONE);
    SensesBlindly(s);
    KnowsBoth(s);
  }

  /** Which occupant of its slot the remembered enemy is. */
  lemma EnemyGenerationIsNeeded()
    ensures Gap(MomentOf(Remembering(OTHER)), MomentOf(Remembering(GONE)))
  {
    hide Gap, MomentOf, TickOf;
    RemembersOther();
    ForgetsTheGone();
    GapBetween(LINE, Remembering(OTHER), Remembering(GONE));
  }

  function Imprison(s: Scene): Scene {
    s.(slots := s.slots.(prisoner := true))
  }

  lemma PrisonerForgets()
    ensures TickOf(LINE, Imprison(Remembering(OTHER))).events == [AiEvent(SELF, EnemyLost)]
  {
    hide TickOf, Known, Rebuilt;
    SensesBlindly(Imprison(Remembering(OTHER)));
  }

  /** Whether the monster is a prisoner. */
  lemma PrisonerIsNeeded()
    ensures Gap(MomentOf(Remembering(OTHER)), MomentOf(Imprison(Remembering(OTHER))))
  {
    hide Gap, MomentOf, TickOf;
    RemembersOther();
    PrisonerForgets();
    GapBetween(LINE, Remembering(OTHER), Imprison(Remembering(OTHER)));
  }

  /** A monster that a script holds, in view of what it hates. */
  function Looking(impervious: bool): Scene {
    Scene(Still(2.0, [], map[], []), SELF, Monster(Ai(CLEARED, None), true), OTHER, THING.(impervious := impervious))
  }

  lemma SeesWhatIsThere(viewer: Viewer, c: Seeable)
    requires 0.0 <= c.Eye().x - viewer.Eye().x <= 1.0
    ensures Sees(LINE, viewer, Watcher(2.0).senses, c) <==> c.entity != viewer.entity
  {
  }

  lemma HatesWhatCanBeHurt(viewer: Viewer, c: Seeable)
    requires !viewer.prisoner && !c.prisoner && c.alive && c.classification.Unclassified?
    requires viewer.classification.Unclassified?
    ensures IsPossibleEnemy(Sight(LINE, viewer, Hostile(), c)) <==> !c.impervious
  {
  }

  /** Two things on the axis, the one at the eye and the other in front. */
  ghost predicate InFront(viewer: Viewer, own: Seeable, c: Seeable) {
    own.Eye().x == viewer.Eye().x && c.Eye().x == viewer.Eye().x + 1.0
  }

  lemma OneIsVisible(viewer: Viewer, own: Seeable, c: Seeable)
    requires own.entity == viewer.entity && c.entity != viewer.entity && InFront(viewer, own, c)
    ensures Visible(LINE, viewer, Watcher(2.0).senses, Hostile(), [own, c]) == [Sight(LINE, viewer, Hostile(), c)]
  {
    hide Sees, LINE, Sight, Hostile;
    SeesWhatIsThere(viewer, own);
    SeesWhatIsThere(viewer, c);
    assert [own, c][..1] == [own] && [own][..0] == [];
    assert Visible(LINE, viewer, Watcher(2.0).senses, Hostile(), [own]) == [];
  }

  lemma SelectsTheOne(sight: Sighting)
    ensures SelectEnemy([sight]) == if IsPossibleEnemy(sight) then Some(sight) else None
  {
    assert [sight][..0] == [] && SelectEnemy([]) == None;
  }

  lemma SeesTheOther(viewer: Viewer, own: Seeable, c: Seeable)
    requires own.entity == viewer.entity && c.entity != viewer.entity && InFront(viewer, own, c)
    requires viewer.classification.Unclassified?
    requires !viewer.prisoner && !c.prisoner && c.alive && c.classification.Unclassified?
    ensures var look := Looked(LINE, viewer, Watcher(2.0).senses, Hostile(), [own, c]);
            look.enemy == if c.impervious then None else Some(Sight(LINE, viewer, Hostile(), c))
  {
    hide Noticed, IsPossibleEnemy, LINE, Sight, Hostile, Visible, SelectEnemy;
    HatesWhatCanBeHurt(viewer, c);
    OneIsVisible(viewer, own, c);
    SelectsTheOne(Sight(LINE, viewer, Hostile(), c));
  }

  /** A held monster that remembers nobody reports the enemy it chooses. */
  lemma NoticesItsEnemy(s: Scene, sight: real)
    requires IsScene(s) && s.slots.held && !s.slots.prisoner && s.slots.tag == None
    requires s.sim.brains == [Watcher(sight)] && s.slots.ai.value.brain == 0 && s.slots.ai.value.memory == None
    requires s.slots.actor == Some(ACTOR) && s.sim.squads.squads == [] && s.sim.damage == map[]
    ensures var look := Looked(LINE, ViewerOf(LINE, s.self, ACTOR, false), Watcher(sight).senses, s.sim.relationships,
                               CandidatesOf(LINE, s));
            TickOf(LINE, s).events
            == if look.enemy.None? then [] else [AiEvent(s.self, EnemyAcquired(look.enemy.value.entity))]
  {
    hide TickOf, Looked, Known, LINE, Rebuilt, Listened;
    OnlySensesWhenHeld(s, sight);
    NoSquads(s);
  }

  lemma LooksAt(impervious: bool)
    ensures TickOf(LINE, Looking(impervious)).events == if impervious then [] else [AiEvent(SELF, EnemyAcquired(OTHER))]
  {
    hide TickOf, Looked, Known, LINE, Rebuilt, Hostile;
    var s := Looking(impervious);
    NoticesItsEnemy(s, 2.0);
    SeesTheOther(ViewerOf(LINE, SELF, ACTOR, false), SeeableOf(LINE, SELF, s.slots), SeeableOf(LINE, OTHER, s.thing));
  }

  /** Whether what is seen can be hurt. */
  lemma ImperviousIsNeeded()
    ensures Gap(MomentOf(Looking(false)), MomentOf(Looking(true)))
  {
    hide Gap, MomentOf, TickOf;
    LooksAt(false);
    LooksAt(true);
    GapBetween(LINE, Looking(false), Looking(true));
  }

  /** A monster that a script holds, and that may have been hurt. */
  function Hurting(damage: Damage): Scene {
    Scene(Still(0.0, [], damage, []), SELF, Monster(Ai(CLEARED, None), true), OTHER, THING)
  }

  const BLOW: Damage := map[SELF := Hurt(1.0, Some(OTHER), ZERO, false)]

  lemma FeelsTheBlow()
    ensures TickOf(LINE, Hurting(BLOW)).events == [AiEvent(SELF, EnemyAcquired(OTHER))]
  {
    hide TickOf, Known, Rebuilt;
    var s := Hurting(BLOW);
    SensesBlindly(s);
    NoSquads(s);
  }

  /** The damage done. */
  lemma DamageIsNeeded()
    ensures Gap(MomentOf(Hurting(map[])), MomentOf(Hurting(BLOW)))
  {
    hide Gap, MomentOf, TickOf;
    FeelsTheBlow();
    HoldsQuietly(Hurting(map[]));
    GapBetween(LINE, Hurting(map[]), Hurting(BLOW));
  }

  // ---- Squads ----

  const TAG: Option<SquadTag> := Some(SquadTag("pack", true))

  /** A monster whose squad shares an enemy. */
  function Sharing(enemy: Entity, position: Vec3, runner: Runner, held: bool): Scene {
    Scene(Still(0.0, [], map[], [Squads.Squad("pack", SELF, [SELF], Some(enemy), Some(position))]), SELF,
          Monster(Ai(runner, None), held).(tag := TAG), OTHER, THING)
  }

  lemma FoundsAlone(offer: Squads.Candidate)
    requires offer.isLeader && offer.squadName != ""
    ensures Squads.Built(Squads.InTurn([offer])).squads == [Squads.Founded(offer)]
  {
    assert [offer][..0] == [];
    assert Squads.Choose([offer], true) == [offer] && Squads.Choose([offer], false) == [];
    AloneInTurn(Squads.InTurn([offer]), offer);
  }

  lemma AloneInTurn(offers: seq<Squads.Candidate>, offer: Squads.Candidate)
    requires offers == [offer] && offer.squadName != ""
    ensures Squads.Built(offers).squads == [Squads.Founded(offer)]
  {
    assert offers[..0] == [];
    assert Squads.Built(offers[..0]) == Squads.EMPTY;
  }

  lemma CarriesAlone(squad: Squads.Squad, squads: seq<Squads.Squad>)
    requires squads == [squad]
    ensures squad.name in Previous(squads) && Previous(squads)[squad.name] == (squad.enemy, squad.enemyPosition)
  {
    assert squads[..0] == [];
  }

  lemma LeadsItsSquad(s: Scene, enemy: Entity, position: Vec3)
    requires IsScene(s) && s.slots.tag == TAG && s.self == SELF
    requires s.sim.squads.squads == [Squads.Squad("pack", SELF, [SELF], Some(enemy), Some(position))]
    ensures Squads.SharedEnemy(Squadron(s).squads, SELF) == Some((enemy, position))
  {
    hide Squads.Built, Squads.InTurn, Previous;
    FoundsAlone(OfferOf(s.self, s.slots));
    CarriesAlone(s.sim.squads.squads[0], s.sim.squads.squads);
  }

  lemma HeldTellsOfShare(s: Scene)
    requires IsScene(s) && s.slots.held && !s.slots.prisoner && s.slots.actor == Some(ACTOR)
    requires s.sim.brains == [Watcher(0.0)] && s.slots.ai.value.brain == 0 && s.slots.ai.value.memory == None
    requires s.sim.sounds == [] && s.sim.damage == map[]
    ensures var shared := Squads.SharedEnemy(Squadron(s).squads, s.self);
            var known := Known(CandidatesOf(LINE, s));
            TickOf(LINE, s).events
            == if shared.None? || shared.value.0 == s.self || shared.value.0 !in known || !known[shared.value.0].alive
               then [] else [AiEvent(s.self, EnemyAcquired(shared.value.0))]
  {
    hide TickOf, Known, Rebuilt, LINE, Squads.SharedEnemy;
    SensesBlindly(s);
  }

  lemma SharedTells(enemy: Entity)
    ensures TickOf(LINE, Sharing(enemy, ZERO, CLEARED, true)).events
            == if enemy == OTHER then [AiEvent(SELF, EnemyAcquired(OTHER))] else []
  {
    hide TickOf, Squadron, Known, Squads.SharedEnemy, LINE;
    var s := Sharing(enemy, ZERO, CLEARED, true);
    LeadsItsSquad(s, enemy, ZERO);
    KnowsBoth(s);
    HeldTellsOfShare(s);
  }

  lemma SharesFedAlike(enemy: Entity, other: Entity, position: Vec3, place: Vec3, runner: Runner, held: bool)
    ensures var s, t := Sharing(enemy, position, runner, held), Sharing(other, place, runner, held);
            IsScene(s) && IsScene(t) && FedAlikeScenes(s, t)
  {
  }

  /** Whom a squad shares. */
  lemma SharedEnemyIsNeeded()
    ensures Gap(MomentOf(Sharing(OTHER, ZERO, CLEARED, true)), MomentOf(Sharing(GONE, ZERO, CLEARED, true)))
  {
    hide Gap, MomentOf, TickOf, Sharing, FedAlikeScenes, LINE;
    SharedTells(OTHER);
    SharedTells(GONE);
    SharesFedAlike(OTHER, GONE, ZERO, ZERO, CLEARED, true);
    GapBetween(LINE, Sharing(OTHER, ZERO, CLEARED, true), Sharing(GONE, ZERO, CLEARED, true));
  }

  function Untag(s: Scene): Scene {
    s.(slots := s.slots.(tag := None))
  }

  lemma NothingSharedUntagged(s: Scene)
    requires s.slots.tag == None
    ensures Squads.SharedEnemy(Squadron(s).squads, s.self) == None
  {
    hide Squadron;
    NoSquads(s);
  }

  /** The squad a monster asks to join. */
  lemma TagIsNeeded()
    ensures var s := Sharing(OTHER, ZERO, CLEARED, true);
            Gap(MomentOf(s), MomentOf(Untag(s)))
  {
    hide Gap, MomentOf, TickOf, Squadron, Known, Squads.SharedEnemy, LINE, SquadFed;
    var s := Sharing(OTHER, ZERO, CLEARED, true);
    SharedTells(OTHER);
    NothingSharedUntagged(Untag(s));
    HeldTellsOfShare(Untag(s));
    GapBetween(LINE, s, Untag(s));
  }

  /** A monster that acts after it has sensed: its squad's enemy, as told. */
  function ToldMind(s: Scene, enemy: Entity, position: Vec3): Mind
    requires s.slots.Thinks()
  {
    Mind(ACTOR,
         s.slots.ai.value.(memory := Some(EnemyMemory(enemy, position, 0.0, true, LINE.length(position))),
                           conditions := {NewEnemy, EnemyOccluded}),
         {NewEnemy, EnemyOccluded}, [AiEvent(s.self, EnemyAcquired(enemy))])
  }

  const FACE_LAST: Runner := Working([FaceLastKnownPosition], {}, false)

  lemma SensesTheShare(s: Scene, position: Vec3)
    requires s == Sharing(OTHER, position, FACE_LAST, false)
    ensures Minded(s) == ToldMind(s, OTHER, position)
  {
    hide Known, Rebuilt, Visible, Noticed, LINE;
    assert position.Minus(ZERO) == position;
    LeadsItsSquad(s, OTHER, position);
    KnowsBoth(s);
  }

  lemma FacesTheShare(position: Vec3)
    ensures var s := Sharing(OTHER, position, FACE_LAST, false);
            TickOf(LINE, s).events
            == [AiEvent(SELF, EnemyAcquired(OTHER))] + if position.x < 0.0 then [] else Ending(SELF, Done)
  {
    hide TickOf, Minded, Known;
    var s := Sharing(OTHER, position, FACE_LAST, false);
    SensesTheShare(s, position);
    assert [FaceLastKnownPosition] + [] == [FaceLastKnownPosition];
    WorksOnce(s, FaceLastKnownPosition, [], false);
  }

  /** And where it was. */
  lemma SharedPositionIsNeeded()
    ensures Gap(MomentOf(Sharing(OTHER, ZERO, FACE_LAST, false)), MomentOf(Sharing(OTHER, BEHIND, FACE_LAST, false)))
  {
    hide Gap, MomentOf, TickOf, Sharing, FedAlikeScenes, LINE;
    FacesTheShare(ZERO);
    FacesTheShare(BEHIND);
    SharesFedAlike(OTHER, OTHER, ZERO, BEHIND, FACE_LAST, false);
    GapBetween(LINE, Sharing(OTHER, ZERO, FACE_LAST, false), Sharing(OTHER, BEHIND, FACE_LAST, false));
  }

  // ---- Sounds ----

  /** A monster in earshot of a sound, and about to turn to it. */
  function Hearing(place: Vec3): Scene {
    Scene(Still(0.0, [SoundEvent(WorldSound, place, 1.0, None, 1.0)], map[], []), SELF,
          Monster(Ai(LOOK_THERE, None), false), OTHER, THING)
  }

  lemma ListensToTheSound(ears: Vec3, sound: SoundEvent)
    requires sound.kind.WorldSound? && sound.radius == 1.0 && -1.0 <= sound.position.x - ears.x <= 1.0
    ensures Listened(LINE, ears, Watcher(0.0).senses, [sound]) == ListenResult({HearSound}, Some(sound))
  {
    assert [sound][..0] == [];
    assert Listened(LINE, ears, Watcher(0.0).senses, [sound][..0]) == ListenResult({}, None);
    assert sound.radius * 1.0 == sound.radius;
  }

  lemma HearsTheSound(place: Vec3)
    requires -1.0 <= place.x <= 1.0
    ensures var s := Hearing(place);
            Minded(s) == Mind(ACTOR, s.slots.ai.value.(conditions := {HearSound}, moveTarget := Some(place)),
                              {HearSound}, [])
  {
    hide Known, Rebuilt, Visible, Noticed, Listened, LINE;
    var s := Hearing(place);
    ListensToTheSound(ViewerOf(LINE, SELF, ACTOR, false).Eye(), s.sim.sounds[0]);
    NoSquads(s);
  }

  lemma TurnsToTheSound(place: Vec3)
    requires -1.0 <= place.x <= 1.0
    ensures TickOf(LINE, Hearing(place)).events == if place.x < 0.0 then [] else Ending(SELF, Done)
  {
    hide TickOf, Minded, Known;
    var s := Hearing(place);
    HearsTheSound(place);
    assert [FaceTarget] + [] == [FaceTarget];
    WorksOnce(s, FaceTarget, [], false);
  }

  /** What the sounds are, beyond how many. */
  lemma SoundsAreNeeded()
    ensures Gap(MomentOf(Hearing(ZERO)), MomentOf(Hearing(BEHIND)))
  {
    hide Gap, MomentOf, TickOf, LINE;
    TurnsToTheSound(ZERO);
    TurnsToTheSound(BEHIND);
    GapBetween(LINE, Hearing(ZERO), Hearing(BEHIND));
  }
}

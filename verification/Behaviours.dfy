/** What the tasks bring about, and that the published schedules do what they
    are named for. */
module Behaviours {
  import opened Wrappers
  import opened Geometry
  import opened MonsterStates
  import opened Schedules
  import opened Senses
  import opened AiTick
  import opened Movement
  import Brains
  import Pcg32
  import Prisoners
  import Turning

  // ---- Ways ----

  /** Where a way ends that stops `within` short of a goal, or at the goal. */
  ghost predicate StopsShort(space: Space, from: Vec3, goal: Vec3, within: real, stop: Vec3) {
    var far := Remaining(space, from, goal);
    var left := if 0.0 < within < far then within else 0.0;
    && Remaining(space, stop, goal) == left
    && Remaining(space, from, stop) == far - left
    && stop.z == goal.z && (left == 0.0 ==> stop == goal)
  }

  lemma NoLength(length: Vec3 -> real)
    requires Scales(length)
    ensures length(ZERO) == 0.0
  {
    assert ZERO.Times(0.0) == ZERO;
  }

  lemma Shares(v: Vec3, k: real)
    ensures v.Minus(v.Times(k)) == v.Times(1.0 - k)
  {
  }

  lemma ShortOfTheGoal(space: Space, from: Vec3, goal: Vec3, within: real)
    requires Scales(space.length) && 0.0 < within < Remaining(space, from, goal)
    ensures var delta := goal.Minus(from).Flat();
            StopsShort(space, from, goal, within, goal.Minus(delta.Times(within / Remaining(space, from, goal))))
  {
    var delta := goal.Minus(from).Flat();
    var far := space.length(delta);
    var share := within / far;
    var stop := goal.Minus(delta.Times(share));
    assert share * far == within && 0.0 < share;
    assert goal.Minus(stop).Flat() == delta.Times(share);
    Shares(delta, share);
    assert stop.Minus(from).Flat() == delta.Times(1.0 - share);
    ShareOf(far, within);
  }

  /** A way is laid straight to its goal, or to a stop short of it; without a
      goal the task fails. */
  lemma RouteLeadsThere(stage: Stage, b: Body, goal: Option<Vec3>, within: real)
    requires Scales(stage.space.length)
    ensures var (after, status) := StartRoute(stage, b, goal, within);
            match goal
            case None => status == Failed && after == b
            case Some(end) =>
              && status == Complete && after.ai.moveTarget.Some?
              && var stop := after.ai.moveTarget.value;
                 && StopsShort(stage.space, b.actor.origin, end, within, stop)
                 && after == b.(ai := b.ai.(moveTarget := Some(stop), route := Route([stop], 0, stop), stuck := 0))
  {
    if goal.Some? {
      var far := Remaining(stage.space, b.actor.origin, goal.value);
      if 0.0 < within < far {
        ShortOfTheGoal(stage.space, b.actor.origin, goal.value, within);
      } else {
        NoLength(stage.space.length);
        assert goal.value.Minus(goal.value).Flat() == ZERO;
      }
    }
  }

  /** Cover is looked for 320 units further from the threat, straight away
      from it, as far as the mover gets there. */
  lemma CoverIsAway(stage: Stage, b: Body, threat: Vec3)
    requires Scales(stage.space.length)
    ensures var (after, status) := FindCoverFrom(stage, b, Some(threat));
            var origin := b.actor.origin;
            status == Complete &&
            exists spot: Vec3 ::
              && after == b.(ai := b.ai.(cover := Some(stage.space.reach(b.actor.hull, origin, spot))))
              && (Remaining(stage.space, threat, origin) > EPSILON ==>
                    Remaining(stage.space, threat, spot) == Remaining(stage.space, threat, origin) + 320.0)
              && (Remaining(stage.space, threat, origin) <= EPSILON ==>
                    spot == origin.Plus(stage.space.forward(b.actor.yaw).Times(320.0)))
  {
    var origin := b.actor.origin;
    var away := origin.Minus(threat).Flat();
    var far := stage.space.length(away);
    if far > EPSILON {
      var direction := away.Times(1.0 / far);
      var spot := origin.Plus(direction.Times(320.0));
      Lengthened(away, far);
      assert spot.Minus(threat).Flat() == away.Plus(direction.Times(320.0));
      Extended(far);
    }
  }

  lemma Lengthened(away: Vec3, far: real)
    requires far > 0.0
    ensures away.Plus(away.Times(1.0 / far).Times(320.0)) == away.Times(1.0 + 320.0 / far)
  {
    LengthenedBy(away.x, far);
    LengthenedBy(away.y, far);
    LengthenedBy(away.z, far);
  }

  lemma LengthenedBy(x: real, far: real)
    requires far > 0.0
    ensures x + x * (1.0 / far) * 320.0 == x * (1.0 + 320.0 / far)
  {
    var r := 1.0 / far;
    assert 320.0 / far == r * 320.0;
  }

  lemma Extended(far: real)
    requires far > 0.0
    ensures 1.0 + 320.0 / far >= 0.0 && (1.0 + 320.0 / far) * far == far + 320.0
  {
    var r := 320.0 / far;
    assert r * far == 320.0;
  }

  // ---- Tasks one after the other ----

  /** Beginning tasks that each end at once. */
  function BegunInTurn(stage: Stage, b: Body, tasks: seq<Task>): Option<Body>
    decreases |tasks|
  {
    if tasks == [] then Some(b)
    else
      var (after, status) := BeginTask(stage, b, tasks[0]);
      if status.Complete? then BegunInTurn(stage, after, tasks[1..]) else None
  }

  /** Under way to one point, at a run. */
  ghost predicate RunsTo(stage: Stage, after: Body, stop: Vec3) {
    && after.ai.route == Route([stop], 0, stop) && after.ai.moveTarget == Some(stop) && after.ai.stuck == 0
    && after.ai.moveSpeed == stage.brain.runSpeed
  }

  lemma ActivityIsSet(stage: Stage, b: Body, activity: Activity)
    ensures var (after, status) := BeginTask(stage, b, SetActivity(activity));
            && status == Complete && after.ai == b.ai.(activity := activity)
            && after.actor == b.actor && after.sounds == b.sounds
  {
  }

  lemma RunIsSet(stage: Stage, b: Body)
    requires !b.ai.route.IsFinished()
    ensures BeginTask(stage, b, RunPath) == (b.(ai := b.ai.(moveSpeed := stage.brain.runSpeed, stuck := 0)), Complete)
  {
  }

  lemma InTurn(stage: Stage, b: Body, task: Task, tasks: seq<Task>)
    ensures var (after, status) := BeginTask(stage, b, task);
            BegunInTurn(stage, b, [task] + tasks) ==
            if status.Complete? then BegunInTurn(stage, after, tasks) else None
  {
    hide BeginTask;
    assert ([task] + tasks)[1..] == tasks;
  }

  lemma NothingInTurn(stage: Stage, b: Body)
    ensures BegunInTurn(stage, b, []) == Some(b)
  {
  }

  /** A run in some posture to a goal. */
  lemma RunsThere(stage: Stage, b: Body, activity: Activity, move: Task, goal: Option<Vec3>, within: real)
    requires Scales(stage.space.length)
    requires forall c: Body | c.ai == b.ai.(activity := activity) ::
               BeginTask(stage, c, move) == StartRoute(stage, c, goal, within)
    ensures var after := BegunInTurn(stage, b, [SetActivity(activity), move, RunPath]);
            match goal
            case None => after == None
            case Some(end) =>
              && after.Some? && after.value.ai.moveTarget.Some?
              && var stop := after.value.ai.moveTarget.value;
                 && StopsShort(stage.space, b.actor.origin, end, within, stop) && RunsTo(stage, after.value, stop)
                 && after.value.ai.activity == activity && after.value.actor == b.actor
  {
    hide BeginTask, StartRoute, BegunInTurn, StopsShort;
    ActivityIsSet(stage, b, activity);
    var posed := BeginTask(stage, b, SetActivity(activity)).0;
    InTurn(stage, b, SetActivity(activity), [move, RunPath]);
    assert [SetActivity(activity)] + [move, RunPath] == [SetActivity(activity), move, RunPath];
    RouteLeadsThere(stage, posed, goal, within);
    InTurn(stage, posed, move, [RunPath]);
    assert [move] + [RunPath] == [move, RunPath];
    if goal.Some? {
      var headed := StartRoute(stage, posed, goal, within).0;
      RunIsSet(stage, headed);
      InTurn(stage, headed, RunPath, []);
      assert [RunPath] + [] == [RunPath];
      NothingInTurn(stage, BeginTask(stage, headed, RunPath).0);
    }
  }

  /** Chasing an enemy is running to 56 units from where it is, or else from
      where it was last known to be. */
  lemma ChasesTheEnemy(stage: Stage, b: Body)
    requires Scales(stage.space.length)
    ensures var tasks := Brains.TasksOf(Brains.ChaseEnemy);
            var goal := if stage.enemyPosition.Some? then stage.enemyPosition else stage.lastKnown;
            && tasks[3..] == [WaitForMovement, FaceEnemy]
            && var after := BegunInTurn(stage, b, tasks[..3]);
               match goal
               case None => after == None
               case Some(end) =>
                 && after.Some? && after.value.ai.moveTarget.Some?
                 && var stop := after.value.ai.moveTarget.value;
                    && StopsShort(stage.space, b.actor.origin, end, 56.0, stop) && RunsTo(stage, after.value, stop)
                    && after.value.ai.activity == Running && after.value.actor == b.actor
  {
    hide StartRoute, BegunInTurn, StopsShort, RunsTo;
    var goal := if stage.enemyPosition.Some? then stage.enemyPosition else stage.lastKnown;
    assert Brains.TasksOf(Brains.ChaseEnemy)[..3] == [SetActivity(Running), MoveToEnemy(56.0), RunPath];
    RunsThere(stage, b, Running, MoveToEnemy(56.0), goal, 56.0);
  }

  /** Hunting is running to where the enemy was last known to be. */
  lemma HuntsTheEnemy(stage: Stage, b: Body)
    requires Scales(stage.space.length)
    ensures var tasks := Brains.TasksOf(Brains.HuntEnemy);
            && tasks[3..] == [WaitForMovement, FaceLastKnownPosition, Wait(0.5)]
            && var after := BegunInTurn(stage, b, tasks[..3]);
               match stage.lastKnown
               case None => after == None
               case Some(end) =>
                 && after.Some? && after.value.ai.moveTarget.Some?
                 && var stop := after.value.ai.moveTarget.value;
                    && StopsShort(stage.space, b.actor.origin, end, 0.0, stop) && RunsTo(stage, after.value, stop)
                    && after.value.ai.activity == Running && after.value.actor == b.actor
  {
    hide StartRoute, BegunInTurn, StopsShort, RunsTo;
    assert Brains.TasksOf(Brains.HuntEnemy)[..3] == [SetActivity(Running), MoveToLastKnownPosition, RunPath];
    RunsThere(stage, b, Running, MoveToLastKnownPosition, stage.lastKnown, 0.0);
  }

  /** The spot that is as far again as cover is looked for, away from a threat. */
  ghost predicate IsAwayFrom(stage: Stage, b: Body, threat: Vec3, spot: Vec3) {
    var origin := b.actor.origin;
    if Remaining(stage.space, threat, origin) > EPSILON
    then Remaining(stage.space, threat, spot) == Remaining(stage.space, threat, origin) + 320.0
    else spot == origin.Plus(stage.space.forward(b.actor.yaw).Times(320.0))
  }

  /** Running to as good a cover as the mover reaches. */
  ghost predicate RunsToCover(stage: Stage, b: Body, threat: Vec3, after: Body) {
    exists spot: Vec3 ::
      && IsAwayFrom(stage, b, threat, spot)
      && var cover := stage.space.reach(b.actor.hull, b.actor.origin, spot);
         after == b.(ai := b.ai.(cover := Some(cover), moveTarget := Some(cover), route := Route([cover], 0, cover),
                                 stuck := 0, moveSpeed := stage.brain.runSpeed))
  }

  function Threat(stage: Stage, b: Body): Option<Vec3> {
    if stage.enemyPosition.Some? then stage.enemyPosition
    else if stage.lastKnown.Some? then stage.lastKnown
    else b.ai.moveTarget
  }

  lemma RunsToKnownCover(stage: Stage, b: Body, cover: Vec3)
    requires Scales(stage.space.length) && b.ai.cover == Some(cover)
    ensures BegunInTurn(stage, b, [TakeCover, RunPath]) ==
            Some(b.(ai := b.ai.(moveTarget := Some(cover), route := Route([cover], 0, cover), stuck := 0,
                                moveSpeed := stage.brain.runSpeed)))
  {
    hide StartRoute, BegunInTurn, StopsShort;
    RouteLeadsThere(stage, b, Some(cover), 0.0);
    NoShortStop(stage, b, cover);
    var headed := StartRoute(stage, b, Some(cover), 0.0).0;
    InTurn(stage, b, TakeCover, [RunPath]);
    assert [TakeCover] + [RunPath] == [TakeCover, RunPath];
    RunIsSet(stage, headed);
    InTurn(stage, headed, RunPath, []);
    assert [RunPath] + [] == [RunPath];
    NothingInTurn(stage, BeginTask(stage, headed, RunPath).0);
  }

  lemma CoverIsRunTo(stage: Stage, b: Body)
    requires Scales(stage.space.length)
    ensures var after := BegunInTurn(stage, b, [FindCover, TakeCover, RunPath]);
            match Threat(stage, b)
            case None => after == None
            case Some(threat) => after.Some? && RunsToCover(stage, b, threat, after.value)
  {
    hide BeginTask, BegunInTurn, FindCoverFrom, IsAwayFrom;
    InTurn(stage, b, FindCover, [TakeCover, RunPath]);
    assert [FindCover] + [TakeCover, RunPath] == [FindCover, TakeCover, RunPath];
    var threat := Threat(stage, b);
    CoverIsFound(stage, b);
    if threat.Some? {
      var spot: Vec3 :| IsAwayFrom(stage, b, threat.value, spot) && BeginTask(stage, b, FindCover).0 ==
        b.(ai := b.ai.(cover := Some(stage.space.reach(b.actor.hull, b.actor.origin, spot))));
      var cover := stage.space.reach(b.actor.hull, b.actor.origin, spot);
      RunsToKnownCover(stage, BeginTask(stage, b, FindCover).0, cover);
    }
  }

  lemma CoverIsFound(stage: Stage, b: Body)
    requires Scales(stage.space.length)
    ensures match Threat(stage, b)
            case None => BeginTask(stage, b, FindCover).1 == Failed
            case Some(threat) =>
              && BeginTask(stage, b, FindCover).1 == Complete
              && exists spot: Vec3 ::
                   IsAwayFrom(stage, b, threat, spot) && BeginTask(stage, b, FindCover).0 ==
                   b.(ai := b.ai.(cover := Some(stage.space.reach(b.actor.hull, b.actor.origin, spot))))
  {
    hide FindCoverFrom;
    if Threat(stage, b).Some? {
      var threat := Threat(stage, b).value;
      CoverIsAway(stage, b, threat);
      var hidden := FindCoverFrom(stage, b, Some(threat)).0;
      var spot: Vec3 :| IsAwayFrom(stage, b, threat, spot) &&
        hidden == b.(ai := b.ai.(cover := Some(stage.space.reach(b.actor.hull, b.actor.origin, spot))));
    } else {
      NoThreatNoCover(stage, b);
    }
  }

  lemma NoThreatNoCover(stage: Stage, b: Body)
    requires Threat(stage, b).None?
    ensures BeginTask(stage, b, FindCover).1 == Failed
  {
  }

  lemma NoShortStop(stage: Stage, b: Body, goal: Vec3)
    ensures StartRoute(stage, b, Some(goal), 0.0).0.ai.moveTarget == Some(goal)
  {
  }

  /** Taking cover from danger is running to cover from the enemy, or else from
      where it was last known to be, or else from what was last headed for. */
  lemma TakesCoverFromDanger(stage: Stage, b: Body)
    requires Scales(stage.space.length)
    ensures var tasks := Brains.TasksOf(Brains.TakeCoverFromDanger);
            var posed := BeginTask(stage, b, SetActivity(Covering)).0;
            var after := BegunInTurn(stage, b, tasks[..4]);
            && tasks[4..] == [WaitForMovement, FaceLastKnownPosition]
            && posed.ai == b.ai.(activity := Covering) && posed.actor == b.actor
            && match Threat(stage, b)
               case None => after == None
               case Some(threat) => after.Some? && RunsToCover(stage, posed, threat, after.value)
  {
    hide BegunInTurn, RunsToCover, BeginTask;
    var tasks := Brains.TasksOf(Brains.TakeCoverFromDanger);
    assert tasks[..4] == [SetActivity(Covering)] + [FindCover, TakeCover, RunPath];
    ActivityIsSet(stage, b, Covering);
    InTurn(stage, b, SetActivity(Covering), [FindCover, TakeCover, RunPath]);
    CoverIsRunTo(stage, BeginTask(stage, b, SetActivity(Covering)).0);
  }

  lemma SoundIsEmitted(stage: Stage, b: Body, kind: SoundKind, radius: real)
    ensures var (after, status) := BeginTask(stage, b, EmitSound(kind, radius));
            && status == Complete && after.ai == b.ai && after.actor == b.actor
            && after.sounds == Pushed(b.sounds, SoundEvent(kind, b.actor.origin, radius, Some(stage.entity), 0.1))
  {
    hide Pushed;
  }

  /** Fleeing is crying out, to be heard 384 units around, and then running to
      cover in the same way. */
  lemma Flees(stage: Stage, b: Body)
    requires Scales(stage.space.length)
    ensures var tasks := Brains.TasksOf(Brains.Flee);
            var cry := SoundEvent(CombatSound, b.actor.origin, 384.0, Some(stage.entity), 0.1);
            var after := BegunInTurn(stage, b, tasks[..5]);
            && tasks[5..] == [WaitForMovement]
            && match Threat(stage, b)
               case None => after == None
               case Some(threat) =>
                 exists cried: Body ::
                   && cried.ai == b.ai.(activity := Running) && cried.actor == b.actor
                   && cried.sounds == Pushed(b.sounds, cry)
                   && after.Some? && RunsToCover(stage, cried, threat, after.value)
  {
    hide BegunInTurn, RunsToCover, BeginTask, Pushed;
    var tasks := Brains.TasksOf(Brains.Flee);
    var cover := [FindCover, TakeCover, RunPath];
    assert tasks[..5] == [SetActivity(Running)] + ([EmitSound(CombatSound, 384.0)] + cover);
    ActivityIsSet(stage, b, Running);
    InTurn(stage, b, SetActivity(Running), [EmitSound(CombatSound, 384.0)] + cover);
    var posed := BeginTask(stage, b, SetActivity(Running)).0;
    SoundIsEmitted(stage, posed, CombatSound, 384.0);
    InTurn(stage, posed, EmitSound(CombatSound, 384.0), cover);
    CoverIsRunTo(stage, BeginTask(stage, posed, EmitSound(CombatSound, 384.0)).0);
  }

  // ---- Standing ----

  /** The published schedules that are carried out standing. */
  predicate IsStanding(which: Brains.Listed) {
    which in [Brains.IdleStand, Brains.AlertStand, Brains.InvestigateSound, Brains.MeleeAttack, Brains.RangeAttack,
              Brains.ReloadWeapon, Brains.DieDown, Brains.FailTask]
  }

  lemma HaltIsSet(stage: Stage, b: Body)
    ensures BeginTask(stage, b, StopMoving) ==
            (b.(ai := b.ai.(moveSpeed := 0.0, route := NO_ROUTE, stuck := 0)), Complete)
  {
  }

  /** They halt the monster before anything else but a change of posture. */
  lemma StandsStill(stage: Stage, b: Body, which: Brains.Listed)
    requires IsStanding(which)
    ensures var tasks := Brains.TasksOf(which);
            var halts: nat := if tasks[0] == StopMoving then 0 else 1;
            && |tasks| > halts
            && var after := BegunInTurn(stage, b, tasks[..halts + 1]);
               && after.Some? && after.value.actor == b.actor
               && !UnderWay(after.value.ai) && after.value.ai.route == NO_ROUTE
  {
    hide BeginTask, BegunInTurn;
    var tasks := Brains.TasksOf(which);
    assert [StopMoving] + [] == [StopMoving];
    if tasks[0] == StopMoving {
      assert tasks[..1] == [StopMoving];
      HaltInTurn(stage, b);
    } else {
      var activity := tasks[0].activity;
      assert tasks[..2] == [SetActivity(activity)] + [StopMoving];
      ActivityIsSet(stage, b, activity);
      InTurn(stage, b, tasks[0], [StopMoving]);
      HaltInTurn(stage, BeginTask(stage, b, tasks[0]).0);
    }
  }

  lemma HaltInTurn(stage: Stage, b: Body)
    ensures BegunInTurn(stage, b, [StopMoving]) ==
            Some(b.(ai := b.ai.(moveSpeed := 0.0, route := NO_ROUTE, stuck := 0)))
  {
    hide BeginTask, BegunInTurn;
    assert [StopMoving] + [] == [StopMoving];
    HaltIsSet(stage, b);
    InTurn(stage, b, StopMoving, []);
    NothingInTurn(stage, BeginTask(stage, b, StopMoving).0);
  }

  /** Dying leaves a monster dead, without health, way or speed. */
  lemma DiesDown(stage: Stage, b: Body)
    ensures var after := BegunInTurn(stage, b, Brains.TasksOf(Brains.DieDown));
            && after.Some? && after.value.actor == b.actor.(alive := false, health := 0.0)
            && after.value.ai
               == b.ai.(moveSpeed := 0.0, route := NO_ROUTE, stuck := 0, activity := Dying, state := Dead)
            && (|b.events| + 2 < MAX_EVENTS_PER_TICK ==> AiEvent(stage.entity, Died) in after.value.events)
  {
    hide BegunInTurn, BeginTask;
    var tasks := Brains.TasksOf(Brains.DieDown);
    assert tasks == [StopMoving] + ([SetActivity(Dying)] + ([Die] + ([SetState(Dead)] + [])));
    var b1 := BeginTask(stage, b, StopMoving).0;
    HaltIsSet(stage, b);
    InTurn(stage, b, StopMoving, [SetActivity(Dying)] + ([Die] + ([SetState(Dead)] + [])));
    ActivityIsSet(stage, b1, Dying);
    AtMostOneEvent(stage, b1, SetActivity(Dying));
    InTurn(stage, b1, SetActivity(Dying), [Die] + ([SetState(Dead)] + []));
    var b2 := BeginTask(stage, b1, SetActivity(Dying)).0;
    DeathIsSet(stage, b2);
    InTurn(stage, b2, Die, [SetState(Dead)] + []);
    var b3 := BeginTask(stage, b2, Die).0;
    StateIsSet(stage, b3, Dead);
    InTurn(stage, b3, SetState(Dead), []);
    NothingInTurn(stage, BeginTask(stage, b3, SetState(Dead)).0);
  }

  lemma AtMostOneEvent(stage: Stage, b: Body, task: Task)
    requires task.SetActivity?
    ensures |BeginTask(stage, b, task).0.events| <= |b.events| + 1
  {
  }

  lemma DeathIsSet(stage: Stage, b: Body)
    ensures var (after, status) := BeginTask(stage, b, Die);
            && status == Complete && after.actor == b.actor.(alive := false, health := 0.0)
            && after.ai == b.ai.(moveSpeed := 0.0) && after.sounds == b.sounds
            && (|b.events| < MAX_EVENTS_PER_TICK ==> after.events == b.events + [AiEvent(stage.entity, Died)])
  {
  }

  lemma StateIsSet(stage: Stage, b: Body, state: MonsterState)
    ensures var (after, status) := BeginTask(stage, b, SetState(state));
            && status == Complete && after.actor == b.actor && after.ai == b.ai.(state := state)
            && forall e | e in b.events :: e in after.events
  {
  }

  /** An attack reports itself, with whom it is aimed at; reloading too. */
  lemma Strikes(stage: Stage, b: Body, which: Brains.Listed)
    requires which.MeleeAttack? || which.RangeAttack? || which.ReloadWeapon?
    ensures var tasks := Brains.TasksOf(which);
            var i := if which.ReloadWeapon? then 2 else 3;
            var kind := match which
                        case MeleeAttack => Attack(Melee1, stage.enemy)
                        case RangeAttack => Attack(Range1, stage.enemy)
                        case _ => Reloaded;
            && i < |tasks| && BeginTask(stage, b, tasks[i]).1 == Complete
            && (|b.events| < MAX_EVENTS_PER_TICK ==>
                  BeginTask(stage, b, tasks[i]).0 == b.(events := b.events + [AiEvent(stage.entity, kind)]))
  {
  }

  /** Posture, state and enemy: a task that sets one leaves it so, and reports
      it exactly if it was not so before. */
  lemma ChangesAreReported(stage: Stage, b: Body, task: Task)
    requires task.SetActivity? || task.SetState? || task.ClearEnemy?
    requires |b.events| < MAX_EVENTS_PER_TICK
    ensures var (after, status) := BeginTask(stage, b, task);
            var ai := match task
                      case SetActivity(activity) => b.ai.(activity := activity)
                      case SetState(state) => b.ai.(state := state)
                      case _ => b.ai.(memory := None);
            var kind := match task
                        case SetActivity(activity) => ActivityChanged(activity)
                        case SetState(state) => StateChanged(b.ai.state, state)
                        case _ => EnemyLost;
            && status == Complete
            && after == b.(ai := ai, events := b.events + if ai == b.ai then [] else [AiEvent(stage.entity, kind)])
  {
  }

  /** The second attacks and a sequence report themselves as the first do; a
      node is nowhere to go, and failing fails. */
  lemma OtherTasks(stage: Stage, b: Body, sequence: string, node: nat)
    requires |b.events| < MAX_EVENTS_PER_TICK
    ensures BeginTask(stage, b, MeleeAttack2) ==
            (b.(events := b.events + [AiEvent(stage.entity, Attack(Melee2, stage.enemy))]), Complete)
    ensures BeginTask(stage, b, RangeAttack2) ==
            (b.(events := b.events + [AiEvent(stage.entity, Attack(Range2, stage.enemy))]), Complete)
    ensures BeginTask(stage, b, PlaySequence(sequence)) ==
            (b.(events := b.events + [AiEvent(stage.entity, SequencePlayed(sequence))]), Complete)
    ensures BeginTask(stage, b, MoveToNode(node)) == BeginTask(stage, b, Fail) == (b, Failed)
    ensures BeginTask(stage, b, WalkPath) ==
            if b.ai.route.IsFinished() then (b, Failed)
            else (b.(ai := b.ai.(moveSpeed := stage.brain.walkSpeed, stuck := 0)), Complete)
  {
  }

  // ---- Waiting, facing and wandering ----

  /** Waiting for movement ends when the way does, and fails after 25 ticks in
      which the monster did not get on. */
  lemma AwaitsItsArrival(stage: Stage, b: Body)
    ensures BeginTask(stage, b, WaitForMovement) == ResumeTask(stage, b, WaitForMovement)
    ensures var (after, status) := BeginTask(stage, b, WaitForMovement);
            var arrived, stuck := b.ai.route.current >= |b.ai.route.waypoints|, b.ai.stuck >= 25;
            && after == b
            && (status == Complete <==> arrived)
            && (status == Failed <==> !arrived && stuck)
            && (status == Ongoing <==> !arrived && !stuck)
  {
  }

  /** What a facing task faces. */
  function Faced(stage: Stage, b: Body, task: Task): Option<Vec3>
    requires task.FaceEnemy? || task.FaceTarget? || task.FaceLastKnownPosition?
  {
    match task
    case FaceEnemy => if stage.enemyPosition.Some? then stage.enemyPosition else stage.lastKnown
    case FaceTarget => b.ai.moveTarget
    case _ => if stage.lastKnown.Some? then stage.lastKnown else b.ai.moveTarget
  }

  /** It aims at the direction of what it faces, turns at once at up to 300
      degrees a second, and goes on doing so; with nothing to face it fails. */
  lemma TurnsToWhatItFaces(stage: Stage, b: Body, task: Task)
    requires task.FaceEnemy? || task.FaceTarget? || task.FaceLastKnownPosition?
    ensures var (after, status) := BeginTask(stage, b, task);
            match Faced(stage, b, task)
            case None => (after, status) == (b, Failed)
            case Some(position) =>
              match stage.space.yawToward(b.actor.origin, position)
              case None => (after, status) == (b, Complete)
              case Some(yaw) =>
                && after.ai == b.ai.(idealYaw := yaw)
                && after == b.(ai := after.ai, actor := b.actor.(yaw := after.actor.yaw))
                && after.actor.yaw == Turning.TurnToward(b.actor.yaw, yaw, 300.0 * stage.dt).0
                && (after, status) == ResumeTask(stage, b.(ai := after.ai), task)
  {
    hide Turning.TurnToward, Turning.Normalized;
  }

  /** Wandering is heading for as much of the way drawn as can be walked, if
      that is at least 16 units. */
  lemma WandersWhereItCan(stage: Stage, b: Body, distance: real)
    ensures var (after, status) := BeginTask(stage, b, Wander(distance));
            var origin := b.actor.origin;
            var drawn := origin.Plus(stage.space.forward(WanderYaw(stage)).Times(distance));
            var goal := stage.space.walkable(b.actor.hull, origin, drawn);
            && (status == Complete <==> distance > 0.0 && Remaining(stage.space, origin, goal) >= 16.0)
            && (status == Complete ==>
                  after == b.(ai := b.ai.(moveTarget := Some(goal), route := Route([goal], 0, goal), stuck := 0)))
            && (status != Complete ==> status == Failed && after == b)
  {
    hide WanderYaw;
  }

  /** The way is drawn from all directions, by a generator of the tick's and
      the monster's own. */
  lemma WanderYawIsDrawn(stage: Stage)
    ensures var g := Pcg32.Seeded(stage.tickCount % Pcg32.M64, stage.entity.id % Pcg32.M64);
            WanderYaw(stage) == 360.0 * Pcg32.Unit(Pcg32.Output(g.state)) - 180.0
  {
    hide Pcg32.Seeded, Pcg32.Unit, Pcg32.Output;
  }

  /** What a monster acts on: where its enemy is now, if that can be told, and
      where it last knew it to be. */
  lemma ActsOnWhatItKnows(
      space: Space, entity: Entity, brain: Brains.Brain, known: map<Entity, Seeable>, m: Mind, dt: real,
      tickCount: nat)
    ensures var stage := StageOf(space, entity, brain, known, m, dt, tickCount);
            match m.ai.memory
            case None => stage.enemy == None && stage.enemyPosition == None && stage.lastKnown == None
            case Some(memory) =>
              && stage.enemy == Some(memory.entity) && stage.lastKnown == Some(memory.lastKnownPosition)
              && (stage.enemyPosition.Some? <==> memory.entity in known)
              && (stage.enemyPosition.Some? ==> stage.enemyPosition.value == known[memory.entity].origin)
  {
  }

  // ---- Deciding ----

  /** A monster goes into the state its brain decides on, and if it has no
      schedule begins what the brain selects in that state; it reports both. */
  lemma DecidesAndBegins(entity: Entity, brain: Brains.Brain, m: Mind)
    ensures var after := Scheduled(entity, brain, Decided(entity, brain, m));
            var next := brain.nextState(m.ai.state, m.conditions);
            var chosen := brain.selectSchedule(next, m.conditions);
            var begins := m.ai.runner.schedule.None?;
            && after.ai == m.ai.(state := next, runner := if begins then Begun(chosen) else m.ai.runner)
            && after.actor == m.actor && after.conditions == m.conditions
            && after.events == m.events
                               + (if next == m.ai.state then [] else [AiEvent(entity, StateChanged(m.ai.state, next))])
                               + if begins then [AiEvent(entity, ScheduleStarted(chosen.name))] else []
  {
  }

  // ---- What follows a schedule ----

  /** The state a monster's task leaves it in. */
  function StateAfterTask(stage: Stage, m: Mind, sounds: seq<SoundEvent>): MonsterState {
    Answered(m.ai.runner, stage.dt, m.conditions, ExecutorOf(stage), Body(m.actor, m.ai, sounds, m.events)).0.ai.state
  }

  /** A schedule that ended or was given up is reported, and followed by what
      the brain selects knowing which; a schedule that goes on is kept. */
  lemma ScheduleIsFollowed(stage: Stage, m: Mind, sounds: seq<SoundEvent>, rng: Pcg32.Generator, told: Conditions)
    requires m.ai.runner.schedule.Some?
    requires var outcome := Prisoners.OutcomeOf(stage, m, sounds, rng);
             told == m.conditions + (if outcome.GaveUp? then {TaskFailed}
                                     else if outcome.Done? then {ScheduleDone} else {})
    ensures var outcome := Prisoners.OutcomeOf(stage, m, sounds, rng);
            var after := Acted(stage, m, sounds, rng).0;
            var next := stage.brain.selectSchedule(StateAfterTask(stage, m, sounds), told);
            if outcome.Interrupted? || outcome.Done? || outcome.GaveUp? then
              && after.ai.runner == Begun(next)
              && |after.events| >= 2
              && after.events[|after.events| - 2]
                 == AiEvent(stage.entity, ScheduleEnded(m.ai.runner.schedule.value.name, outcome))
              && after.events[|after.events| - 1] == AiEvent(stage.entity, ScheduleStarted(next.name))
            else
              after.ai.runner.schedule == m.ai.runner.schedule
  {
    hide Answered, ExecutorOf, Counted;
  }

  /** With a default brain a calm monster whose task failed gives up for a
      while, unless a sound or a lost enemy gives it something better to do. */
  lemma FailureIsAnswered(
      stage: Stage, m: Mind, sounds: seq<SoundEvent>, rng: Pcg32.Generator, senses: Senses, hasRange: bool)
    requires m.ai.runner.schedule.Some? && stage.brain == Brains.DefaultBrain(senses, hasRange)
    requires Prisoners.OutcomeOf(stage, m, sounds, rng) == GaveUp
    requires HearDanger !in m.conditions && SeeFear !in m.conditions
    requires StateAfterTask(stage, m, sounds).Idle? ||
             (StateAfterTask(stage, m, sounds).Alert? && EnemyOccluded !in m.conditions &&
              HearSound !in m.conditions && HearCombat !in m.conditions && Smell !in m.conditions)
    ensures Acted(stage, m, sounds, rng).0.ai.runner == Begun(Brains.Published(Brains.FailTask))
  {
    hide Answered, ExecutorOf, Acted, Brains.Select, Brains.Published, Prisoners.OutcomeOf, StateAfterTask;
    var told := m.conditions + {TaskFailed};
    ScheduleIsFollowed(stage, m, sounds, rng, told);
    Brains.SelectMeans(hasRange, StateAfterTask(stage, m, sounds), told);
  }
}

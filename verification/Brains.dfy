/** The default state machine and the published schedules. */
module Brains {
  import opened Wrappers
  import opened Geometry
  import opened MonsterStates
  import opened Schedules
  import Senses

  const NOTICE: Conditions := ALL_SIGHT + ALL_SOUND + ALL_DAMAGE + {Provoked}
  const COMBAT_NOTICE: Conditions :=
    ALL_ATTACK + ALL_DAMAGE + {HearDanger, EnemyDead, NewEnemy} + GENERAL_INTERRUPTS

  /** The published schedules. */
  datatype Listed =
    | IdleStand | AlertStand | InvestigateSound | TakeCoverFromDanger | ChaseEnemy | HuntEnemy
    | MeleeAttack | RangeAttack | ReloadWeapon | Flee | DieDown | FailTask | Inert

  const ALL: seq<Listed> := [
    IdleStand, AlertStand, InvestigateSound, TakeCoverFromDanger, ChaseEnemy, HuntEnemy, MeleeAttack, RangeAttack,
    ReloadWeapon, Flee, DieDown, FailTask, Inert]

  function NameOf(which: Listed): string {
    match which
    case IdleStand => "ohl/idle_stand"
    case AlertStand => "ohl/alert_stand"
    case InvestigateSound => "ohl/investigate_sound"
    case TakeCoverFromDanger => "ohl/take_cover_from_danger"
    case ChaseEnemy => "ohl/chase_enemy"
    case HuntEnemy => "ohl/hunt_enemy"
    case MeleeAttack => "ohl/melee_attack"
    case RangeAttack => "ohl/range_attack"
    case ReloadWeapon => "ohl/reload"
    case Flee => "ohl/flee"
    case DieDown => "ohl/die"
    case FailTask => "ohl/fail"
    case Inert => "ohl/inert"
  }

  function TasksOf(which: Listed): seq<Task> {
    match which
    case IdleStand => [SetActivity(Idling), StopMoving, WaitRandom(1.0, 4.0)]
    case AlertStand => [SetActivity(Alerted), StopMoving, FaceLastKnownPosition, WaitRandom(1.0, 3.0)]
    case InvestigateSound => [SetActivity(Alerted), StopMoving, FaceTarget, Wait(0.5)]
    case TakeCoverFromDanger =>
      [SetActivity(Covering), FindCover, TakeCover, RunPath, WaitForMovement, FaceLastKnownPosition]
    case ChaseEnemy => [SetActivity(Running), MoveToEnemy(56.0), RunPath, WaitForMovement, FaceEnemy]
    case HuntEnemy =>
      [SetActivity(Running), MoveToLastKnownPosition, RunPath, WaitForMovement, FaceLastKnownPosition, Wait(0.5)]
    case MeleeAttack => [StopMoving, FaceEnemy, SetActivity(Swinging), MeleeAttack1]
    case RangeAttack => [StopMoving, FaceEnemy, SetActivity(Firing), RangeAttack1, Wait(0.2)]
    case ReloadWeapon => [StopMoving, SetActivity(Reloading), Reload]
    case Flee => [SetActivity(Running), EmitSound(CombatSound, 384.0), FindCover, TakeCover, RunPath, WaitForMovement]
    case DieDown => [StopMoving, SetActivity(Dying), Die, SetState(Dead)]
    case FailTask => [StopMoving, SetActivity(Alerted), Wait(0.5)]
    case Inert => [Wait(1.0)]
  }

  function MaskOf(which: Listed): Conditions {
    match which
    case IdleStand => NOTICE
    case AlertStand => NOTICE + GENERAL_INTERRUPTS
    case InvestigateSound => ALL_SIGHT + ALL_DAMAGE + {HearDanger} + GENERAL_INTERRUPTS
    case TakeCoverFromDanger => GENERAL_INTERRUPTS + {HeavyDamage}
    case ChaseEnemy => COMBAT_NOTICE
    case HuntEnemy => {SeeEnemy} + ALL_DAMAGE + {HearDanger} + GENERAL_INTERRUPTS
    case MeleeAttack => {EnemyDead, EnemyOccluded, HearDanger} + GENERAL_INTERRUPTS
    case RangeAttack => {EnemyDead, EnemyOccluded, HearDanger, HeavyDamage} + GENERAL_INTERRUPTS
    case ReloadWeapon => {HeavyDamage, HearDanger} + GENERAL_INTERRUPTS
    case Flee => GENERAL_INTERRUPTS
    case _ => {}
  }

  function Published(which: Listed): Schedule {
    Schedule(NameOf(which), TasksOf(which), MaskOf(which))
  }

  ghost predicate IsPublished(schedule: Schedule) {
    exists which: Listed :: schedule == Published(which)
  }

  /** The schedule of a name: the first listed that bears it. */
  function Named(listed: seq<Listed>, name: string): Option<Schedule> {
    if listed == [] then None
    else if NameOf(listed[0]) == name then Some(Published(listed[0]))
    else Named(listed[1..], name)
  }

  function ScheduleByName(name: string): Option<Schedule> {
    Named(ALL, name)
  }

  // ---- Deciding ----

  function DefaultNextState(state: MonsterState, conditions: Conditions): MonsterState {
    if state.Dead? || state.Script? || state.PlayDead? then state
    else if SeeEnemy in conditions then Combat
    else if EnemyOccluded in conditions then Alert
    else if Intersects(conditions, ALL_SIGHT + ALL_SOUND + ALL_DAMAGE + {Provoked}) then Alert
    else
      match state
      case Combat => Alert
      case Hunt => Alert
      case Alert => Alert
      case Unset => Idle
      case other => other
  }

  function CombatSchedule(hasRange: bool, conditions: Conditions): Listed {
    if NoAmmoLoaded in conditions then ReloadWeapon
    else if CanMeleeAttack1 in conditions then MeleeAttack
    else if hasRange && CanRangeAttack1 in conditions then RangeAttack
    else ChaseEnemy
  }

  function Select(hasRange: bool, state: MonsterState, conditions: Conditions): Listed {
    if HearDanger in conditions then TakeCoverFromDanger
    else if SeeFear in conditions then Flee
    else
      match state
      case Combat => CombatSchedule(hasRange, conditions)
      case Hunt => HuntEnemy
      case Alert =>
        if EnemyOccluded in conditions then HuntEnemy
        else if Intersects(conditions, ALL_SOUND) then InvestigateSound
        else if TaskFailed in conditions then FailTask
        else AlertStand
      case Unset => if TaskFailed in conditions then FailTask else IdleStand
      case Idle => if TaskFailed in conditions then FailTask else IdleStand
      case _ => Inert
  }

  function SelectSchedule(hasRange: bool, state: MonsterState, conditions: Conditions): Schedule {
    Published(Select(hasRange, state, conditions))
  }

  /** Whatever decides for a kind of monster. */
  datatype Brain = Brain(
    senses: Senses.Senses,
    nextState: (MonsterState, Conditions) -> MonsterState,
    selectSchedule: (MonsterState, Conditions) -> Schedule,
    heavyDamageThreshold: real,
    hasMelee: bool,
    meleeInReach: (Vec3, Vec3, real) -> bool,
    choosesEnemyInReach: bool,
    hasRange: bool,
    rangeAttackRange: real,
    walkSpeed: real,
    runSpeed: real)

  const MELEE_RANGE: real := 64.0

  function DefaultBrain(senses: Senses.Senses, hasRange: bool): Brain {
    Brain(
      senses,
      (state, conditions) => DefaultNextState(state, conditions),
      (state, conditions) => SelectSchedule(hasRange, state, conditions),
      20.0, true, (origin, enemy, distance) => distance <= MELEE_RANGE, false, hasRange, 1024.0, 40.0, 160.0)
  }

  /** Whether a brain is a default one. */
  ghost predicate IsDefault(brain: Brain) {
    exists senses: Senses.Senses, hasRange: bool :: brain == DefaultBrain(senses, hasRange)
  }

  // ---- What the default brain promises ----

  predicate Attacking(schedule: Schedule) {
    exists t | t in schedule.tasks :: t.Attacks()
  }

  /** Nobody fights without having seen an enemy. */
  lemma CombatNeedsASighting(state: MonsterState, conditions: Conditions)
    ensures DefaultNextState(state, conditions).Combat? <==>
              SeeEnemy in conditions && !state.Dead? && !state.Script? && !state.PlayDead?
  {
  }

  /** What the default brain decides on, choice by choice: danger before fear,
      fear before everything else, then what its state calls for. */
  lemma SelectMeans(hasRange: bool, state: MonsterState, conditions: Conditions)
    ensures var chosen := Select(hasRange, state, conditions);
            var calm := HearDanger !in conditions && SeeFear !in conditions;
            var fighting := calm && state.Combat? && NoAmmoLoaded !in conditions;
            var close, far := CanMeleeAttack1 in conditions, hasRange && CanRangeAttack1 in conditions;
            var lostSight := EnemyOccluded in conditions;
            var heard := exists c | c in [HearSound, HearDanger, HearCombat, Smell] :: c in conditions;
            var resting := state.Idle? || state.Unset? || (state.Alert? && !lostSight && !heard);
            && (chosen == TakeCoverFromDanger <==> HearDanger in conditions)
            && (chosen == Flee <==> HearDanger !in conditions && SeeFear in conditions)
            && (chosen == ReloadWeapon <==> calm && state.Combat? && NoAmmoLoaded in conditions)
            && (chosen == MeleeAttack <==> fighting && close)
            && (chosen == RangeAttack <==> fighting && !close && far)
            && (chosen == ChaseEnemy <==> fighting && !close && !far)
            && (chosen == HuntEnemy <==> calm && (state.Hunt? || (state.Alert? && lostSight)))
            && (chosen == InvestigateSound <==> calm && state.Alert? && !lostSight && heard)
            && (chosen == FailTask <==> calm && resting && TaskFailed in conditions)
            && (chosen == AlertStand <==> calm && resting && state.Alert? && TaskFailed !in conditions)
            && (chosen == IdleStand <==> calm && resting && !state.Alert? && TaskFailed !in conditions)
            && (chosen == Inert <==> calm && state !in {Combat, Hunt, Alert, Unset, Idle})
  {
    HearingMeans(conditions);
  }

  lemma HearingMeans(conditions: Conditions)
    ensures Intersects(conditions, ALL_SOUND) <==>
            exists c | c in [HearSound, HearDanger, HearCombat, Smell] :: c in conditions
  {
    if Intersects(conditions, ALL_SOUND) {
      var c :| c in conditions * ALL_SOUND;
      assert c in [HearSound, HearDanger, HearCombat, Smell];
    }
    if c :| c in [HearSound, HearDanger, HearCombat, Smell] && c in conditions {
      assert c in conditions * ALL_SOUND;
    }
  }

  /** What the default brain's state becomes, outside the states it never
      leaves: alert for anything noticed, and never idle again. */
  lemma NextStateMeans(state: MonsterState, conditions: Conditions)
    requires !state.Dead? && !state.Script? && !state.PlayDead?
    ensures var next := DefaultNextState(state, conditions);
            var noticed := EnemyOccluded in conditions || exists c | c in NOTICE :: c in conditions;
            && (next.Combat? <==> SeeEnemy in conditions)
            && (next.Alert? <==> SeeEnemy !in conditions && (noticed || state in {Combat, Hunt, Alert}))
            && (next.Idle? <==> !noticed && state in {Unset, Idle})
            && (!next.Combat? && !next.Alert? && !next.Idle? ==> next == state && !noticed)
  {
    if c :| c in NOTICE && c in conditions {
      assert c in conditions * NOTICE;
    }
    if Intersects(conditions, NOTICE) {
      var c :| c in conditions * NOTICE;
    }
  }

  lemma OthersAreQuiet(which: Listed, i: nat)
    requires !which.MeleeAttack? && !which.RangeAttack? && i < |TasksOf(which)|
    ensures !TasksOf(which)[i].Attacks()
  {
  }

  lemma ListedAttack(which: Listed)
    ensures Attacking(Published(which)) <==> which.MeleeAttack? || which.RangeAttack?
  {
    hide NameOf, MaskOf, TasksOf;
    var tasks := TasksOf(which);
    if which.MeleeAttack? || which.RangeAttack? {
      TheFourthAttacks(which);
      assert tasks[3] in tasks;
    } else {
      forall t | t in tasks ensures !t.Attacks() {
        var i :| 0 <= i < |tasks| && tasks[i] == t;
        OthersAreQuiet(which, i);
      }
    }
  }

  lemma TheFourthAttacks(which: Listed)
    requires which.MeleeAttack? || which.RangeAttack?
    ensures |TasksOf(which)| > 3 && TasksOf(which)[3].Attacks()
  {
  }

  /** The default brain attacks exactly in combat, with something in reach and
      nothing more pressing. */
  lemma AttackingIffChosen(hasRange: bool, state: MonsterState, conditions: Conditions)
    ensures Attacking(SelectSchedule(hasRange, state, conditions)) <==>
              state.Combat? && HearDanger !in conditions && SeeFear !in conditions && NoAmmoLoaded !in conditions &&
              (CanMeleeAttack1 in conditions || (hasRange && CanRangeAttack1 in conditions))
  {
    hide Attacking, Published;
    ListedAttack(Select(hasRange, state, conditions));
  }

  /** The only state a published schedule sets is death. */
  lemma PublishedSetOnlyDeath(which: Listed, task: Task)
    requires task in Published(which).tasks && task.SetState?
    ensures task.state.Dead?
  {
    hide NameOf, MaskOf;
  }

  predicate Rests(which: Listed) {
    which.IdleStand? || which.AlertStand? || which.InvestigateSound?
  }

  predicate Endures(which: Listed) {
    which.DieDown? || which.FailTask? || which.Inert?
  }

  predicate Fights(which: Listed) {
    which.MeleeAttack? || which.RangeAttack?
  }

  /** Danger interrupts all but what already escapes it and what nothing
      interrupts; heavy damage all but that, a blow and flight; light damage
      only what does not fight or escape. */
  lemma HarmInterrupts(which: Listed)
    ensures HearDanger in MaskOf(which) <==> !which.TakeCoverFromDanger? && !which.Flee? && !Endures(which)
    ensures HeavyDamage in MaskOf(which) <==> !which.MeleeAttack? && !which.Flee? && !Endures(which)
    ensures LightDamage in MaskOf(which) <==> Rests(which) || which.ChaseEnemy? || which.HuntEnemy?
  {
  }

  /** An obstacle interrupts whatever is not idle. */
  lemma ObstacleInterrupts(which: Listed)
    ensures Blocked in MaskOf(which) <==> !which.IdleStand? && !Endures(which)
  {
  }

  /** What is seen interrupts those at rest; an enemy also those that hunt it. */
  lemma SightInterrupts(which: Listed)
    ensures SeeFear in MaskOf(which) <==> Rests(which)
    ensures SeeEnemy in MaskOf(which) <==> Rests(which) || which.HuntEnemy?
  {
  }

  /** A sound interrupts those that only stand. */
  lemma SoundInterrupts(which: Listed)
    ensures HearSound in MaskOf(which) <==> which.IdleStand? || which.AlertStand?
  {
  }

  /** An enemy's death ends chase and fight. */
  lemma DeathInterrupts(which: Listed)
    ensures EnemyDead in MaskOf(which) <==> which.ChaseEnemy? || Fights(which)
  {
  }

  /** Losing sight of the enemy ends the fight. */
  lemma LossInterrupts(which: Listed)
    ensures EnemyOccluded in MaskOf(which) <==> Fights(which)
  {
  }

  /** A chase ends with a new enemy, or one in reach. */
  lemma ReachInterrupts(which: Listed)
    ensures NewEnemy in MaskOf(which) <==> which.ChaseEnemy?
    ensures CanRangeAttack1 in MaskOf(which) <==> which.ChaseEnemy?
  {
  }

  /** A default monster walks at 40 and runs at 160 units a second, strikes what
      is within 64 units, shoots, if it shoots at all, what is within 1024, and
      takes 20 for heavy damage. */
  lemma DefaultBrainIs(senses: Senses.Senses, hasRange: bool, origin: Vec3, enemy: Vec3, distance: real)
    ensures var brain := DefaultBrain(senses, hasRange);
            && brain.walkSpeed == 40.0 && brain.runSpeed == 160.0 && brain.heavyDamageThreshold == 20.0
            && brain.hasMelee && (brain.meleeInReach(origin, enemy, distance) <==> distance <= 64.0)
            && (brain.hasRange <==> hasRange) && brain.rangeAttackRange == 1024.0 && !brain.choosesEnemyInReach
  {
  }

  // ---- Saving and restoring ----

  /** A name's length and two of its letters. */
  function Mark(name: string): (nat, char, char)
    requires |name| >= 6
  {
    (|name|, name[4], name[5])
  }

  function MarkOf(which: Listed): (nat, char, char) {
    match which
    case IdleStand => (14, 'i', 'd')
    case AlertStand => (15, 'a', 'l')
    case InvestigateSound => (21, 'i', 'n')
    case TakeCoverFromDanger => (26, 't', 'a')
    case ChaseEnemy => (15, 'c', 'h')
    case HuntEnemy => (14, 'h', 'u')
    case MeleeAttack => (16, 'm', 'e')
    case RangeAttack => (16, 'r', 'a')
    case ReloadWeapon => (10, 'r', 'e')
    case Flee => (8, 'f', 'l')
    case DieDown => (7, 'd', 'i')
    case FailTask => (8, 'f', 'a')
    case Inert => (9, 'i', 'n')
  }

  lemma NameBearsMark(which: Listed)
    ensures |NameOf(which)| >= 6 && Mark(NameOf(which)) == MarkOf(which)
  {
  }

  /** The published names are distinct. */
  lemma NamesDiffer(a: Listed, b: Listed)
    requires NameOf(a) == NameOf(b)
    ensures a == b
  {
    hide NameOf, Mark;
    NameBearsMark(a);
    NameBearsMark(b);
  }

  lemma {:induction false} NamedFindsIt(listed: seq<Listed>, which: Listed)
    requires which in listed
    ensures Named(listed, NameOf(which)) == Some(Published(which))
  {
    hide NameOf, Published;
    if NameOf(listed[0]) == NameOf(which) {
      NamesDiffer(listed[0], which);
    } else {
      assert listed == [listed[0]] + listed[1..];
      NamedFindsIt(listed[1..], which);
    }
  }

  lemma EveryoneIsListed(which: Listed)
    ensures which in ALL
  {
    assert ALL[0] == IdleStand && ALL[1] == AlertStand && ALL[2] == InvestigateSound;
    assert ALL[3] == TakeCoverFromDanger && ALL[4] == ChaseEnemy && ALL[5] == HuntEnemy;
    assert ALL[6] == MeleeAttack && ALL[7] == RangeAttack && ALL[8] == ReloadWeapon && ALL[9] == Flee;
    assert ALL[10] == DieDown && ALL[11] == FailTask && ALL[12] == Inert;
  }

  lemma {:induction false} NamedIsPublished(listed: seq<Listed>, name: string)
    ensures Named(listed, name).Some? ==> IsPublished(Named(listed, name).value)
  {
    hide NameOf, Published;
    if listed != [] {
      NamedIsPublished(listed[1..], name);
    }
  }

  /** A schedule's name finds the schedule again. */
  lemma NameFindsSchedule(which: Listed)
    ensures ScheduleByName(NameOf(which)) == Some(Published(which))
  {
    hide NameOf, Published, Named;
    EveryoneIsListed(which);
    NamedFindsIt(ALL, which);
  }

  /** A runner in the middle of a published schedule survives being saved by
      name and restored. */
  lemma RestoreRoundTrip(r: Runner)
    requires r.schedule.Some? && IsPublished(r.schedule.value) && r.timer >= 0.0
    requires r.taskIndex < |r.schedule.value.tasks|
    ensures Restored(ScheduleByName, r.schedule.value.name, r.taskIndex, r.started, r.timer) == r
  {
    hide ScheduleByName, NameOf, TasksOf, MaskOf;
    var which: Listed :| r.schedule.value == Published(which);
    NameFindsSchedule(which);
  }

  /** Whatever a save says, a restored runner runs nothing but a published
      schedule. */
  lemma RestoredIsPublished(name: string, taskIndex: nat, started: bool, timer: real)
    ensures var r := Restored(ScheduleByName, name, taskIndex, started, timer);
            r.schedule.Some? ==> IsPublished(r.schedule.value)
  {
    hide Named, NameOf, Published;
    NamedIsPublished(ALL, name);
  }
}

/** Monster states, factions, relationships and conditions. */
module MonsterStates {
  datatype MonsterState = Unset | Idle | Alert | Combat | Hunt | Prone | Script | PlayDead | Dead

  datatype Classification =
    | Unclassified | Machine | Player | HumanPassive | HumanMilitary | AlienMilitary | AlienPassive
    | AlienMonster | AlienPrey | AlienPredator | Insect | PlayerAlly | PlayerBioweapon | AlienBioweapon
    | Barnacle

  datatype Relationship = Fear | Ally | NoRelationship | Dislike | Hate | Nemesis {
    predicate IsHostile() {
      Dislike? || Hate? || Nemesis?
    }

    /** The order enemies are preferred in. */
    function Rank(): nat {
      match this
      case Fear => 0
      case Ally => 1
      case NoRelationship => 2
      case Dislike => 3
      case Hate => 4
      case Nemesis => 5
    }

    function SightingCondition(): Conditions {
      match this
      case Fear => {SeeFear}
      case Dislike => {SeeDislike}
      case Hate => {SeeHate}
      case Nemesis => {SeeNemesis}
      case _ => {}
    }
  }

  const CLASSES: nat := 15

  /** Where a classification stands in the table. */
  function IndexOf(c: Classification): (i: nat)
    ensures i < CLASSES
  {
    match c
    case Unclassified => 0
    case Machine => 1
    case Player => 2
    case HumanPassive => 3
    case HumanMilitary => 4
    case AlienMilitary => 5
    case AlienPassive => 6
    case AlienMonster => 7
    case AlienPrey => 8
    case AlienPredator => 9
    case Insect => 10
    case PlayerAlly => 11
    case PlayerBioweapon => 12
    case AlienBioweapon => 13
    case Barnacle => 14
  }

  /** What each classification is to each other, row by row. */
  type RelationshipTable = t: seq<Relationship> | |t| == CLASSES * CLASSES
    witness seq(CLASSES * CLASSES, _ => NoRelationship)

  function Regard(table: RelationshipTable, viewer: Classification, seen: Classification): Relationship {
    table[IndexOf(viewer) * CLASSES + IndexOf(seen)]
  }

  datatype Condition =
    | SeeEnemy | SeeHate | SeeFear | SeeDislike | SeeClient | SeeNemesis
    | EnemyOccluded | EnemyTooFar | NewEnemy | EnemyFacingMe | EnemyDead
    | HearSound | HearDanger | HearCombat | Smell
    | LightDamage | HeavyDamage
    | CanMeleeAttack1 | CanMeleeAttack2 | CanRangeAttack1 | CanRangeAttack2
    | TaskFailed | ScheduleDone | Provoked | NoAmmoLoaded | Blocked | InDanger | Special1 | Special2

  type Conditions = set<Condition>

  const ALL_SIGHT: Conditions := {SeeEnemy, SeeHate, SeeFear, SeeDislike, SeeClient, SeeNemesis}
  const ALL_SOUND: Conditions := {HearSound, HearDanger, HearCombat, Smell}
  const ALL_DAMAGE: Conditions := {LightDamage, HeavyDamage}
  const ALL_ATTACK: Conditions := {CanMeleeAttack1, CanMeleeAttack2, CanRangeAttack1, CanRangeAttack2}
  const GENERAL_INTERRUPTS: Conditions := {TaskFailed, Blocked}

  predicate Intersects(a: Conditions, b: Conditions) {
    a * b != {}
  }
}

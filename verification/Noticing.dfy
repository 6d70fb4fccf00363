/** What a monster notices in a tick: for every condition exactly what gives
    rise to it. */
module Noticing {
  import opened Wrappers
  import opened Geometry
  import opened MonsterStates
  import opened Schedules
  import opened Senses
  import opened AiTick
  import Brains
  import Ordering
  import Squads

  // ---- Hearing ----

  /** Whether a sound of this kind is noticed as this. */
  predicate Announces(kind: SoundKind, c: Condition) {
    match c
    case Smell => kind.Carcass? || kind.Meat? || kind.Garbage?
    case HearSound => !kind.Carcass? && !kind.Meat? && !kind.Garbage?
    case HearCombat => kind.CombatSound?
    case HearDanger => kind.DangerSound?
    case _ => false
  }

  /** Some sound that carries to these ears is noticed as this. */
  ghost predicate IsHeard(space: Space, ears: Vec3, senses: Senses, sounds: seq<SoundEvent>, c: Condition) {
    exists s | s in sounds ::
      senses.hearingSensitivity > 0.0 && space.length(s.position.Minus(ears)) <= s.radius * senses.hearingSensitivity
      && Announces(s.kind, c)
  }

  lemma HearingAnnounces(kind: SoundKind, c: Condition)
    ensures c in HearingCondition(kind) <==> Announces(kind, c)
  {
  }

  lemma {:induction false} HearsIff(space: Space, ears: Vec3, senses: Senses, sounds: seq<SoundEvent>, c: Condition)
    ensures c in Listened(space, ears, senses, sounds).conditions <==> IsHeard(space, ears, senses, sounds, c)
  {
    hide HearingCondition, Announces, IsMoreInteresting;
    if sounds != [] {
      var n := |sounds| - 1;
      assert sounds == sounds[..n] + [sounds[n]];
      HearsIff(space, ears, senses, sounds[..n], c);
      HearingAnnounces(sounds[n].kind, c);
      assert forall s :: s in sounds <==> s in sounds[..n] || s == sounds[n];
    }
  }

  // ---- Sight ----

  /** Within sight: not itself, near enough, inside the view cone, and nothing
      in between. */
  predicate InSight(space: Space, viewer: Viewer, senses: Senses, c: Seeable) {
    var line := c.Eye().Minus(viewer.Eye());
    && c.entity != viewer.entity && space.length(line) <= senses.lookDistance
    && space.inCone(senses.fovCos, viewer.forward, line) && space.clear(viewer.Eye(), c.Eye())
  }

  /** What the sight of something is noticed as. Hostility does not count
      between a prisoner and anybody, or toward what cannot be hurt. */
  predicate Shows(table: RelationshipTable, viewer: Viewer, seen: Seeable, c: Condition) {
    var regard := Regard(table, viewer.classification, seen.classification);
    var spared := viewer.prisoner || seen.prisoner || seen.impervious;
    match c
    case SeeFear => regard == Fear
    case SeeDislike => regard == Dislike && !spared
    case SeeHate => regard == Hate && !spared
    case SeeNemesis => regard == Nemesis && !spared
    case SeeClient => seen.isClient
    case SeeEnemy => regard in {Dislike, Hate, Nemesis} && !spared && seen.alive
    case _ => false
  }

  ghost predicate IsSeen(
      space: Space, viewer: Viewer, senses: Senses, table: RelationshipTable, candidates: seq<Seeable>, c: Condition)
  {
    exists s | s in candidates :: InSight(space, viewer, senses, s) && Shows(table, viewer, s, c)
  }

  lemma SightShows(space: Space, viewer: Viewer, table: RelationshipTable, s: Seeable, c: Condition)
    ensures c in SightConditions(space, viewer, table, s) <==> c != SeeEnemy && Shows(table, viewer, s, c)
    ensures IsPossibleEnemy(Sight(space, viewer, table, s)) <==> Shows(table, viewer, s, SeeEnemy)
  {
    hide Regard;
  }

  lemma {:induction false} NoticesIff(
      space: Space, viewer: Viewer, senses: Senses, table: RelationshipTable, candidates: seq<Seeable>, c: Condition)
    ensures c in Noticed(space, viewer, senses, table, candidates) <==>
              c != SeeEnemy && IsSeen(space, viewer, senses, table, candidates, c)
  {
    hide SightConditions, Shows, InSight, Sees;
    if candidates != [] {
      var n := |candidates| - 1;
      var last := candidates[n];
      assert candidates == candidates[..n] + [last];
      NoticesIff(space, viewer, senses, table, candidates[..n], c);
      SightShows(space, viewer, table, last, c);
      SeesIsInSight(space, viewer, senses, last);
      assert forall s :: s in candidates <==> s in candidates[..n] || s == last;
    }
  }

  lemma {:induction false} EnemiesAreSeen(
      space: Space, viewer: Viewer, senses: Senses, table: RelationshipTable, candidates: seq<Seeable>)
    ensures (exists s | s in Visible(space, viewer, senses, table, candidates) :: IsPossibleEnemy(s)) <==>
              IsSeen(space, viewer, senses, table, candidates, SeeEnemy)
  {
    hide Sight, IsPossibleEnemy, Shows, InSight, Sees;
    if candidates != [] {
      var n := |candidates| - 1;
      var last := candidates[n];
      assert candidates == candidates[..n] + [last];
      EnemiesAreSeen(space, viewer, senses, table, candidates[..n]);
      SightShows(space, viewer, table, last, SeeEnemy);
      SeesIsInSight(space, viewer, senses, last);
      assert forall s :: s in candidates <==> s in candidates[..n] || s == last;
      var before := Visible(space, viewer, senses, table, candidates[..n]);
      var all := Visible(space, viewer, senses, table, candidates);
      assert forall s :: s in all <==>
        s in before || (Sees(space, viewer, senses, last) && s == Sight(space, viewer, table, last));
    }
  }

  lemma SeesIff(
      space: Space, viewer: Viewer, senses: Senses, table: RelationshipTable, candidates: seq<Seeable>, c: Condition)
    ensures c in Looked(space, viewer, senses, table, candidates).conditions <==>
              senses.lookDistance > 0.0 && IsSeen(space, viewer, senses, table, candidates, c)
  {
    hide Noticed, Visible, IsPossibleEnemy, IsSeen;
    NoticesIff(space, viewer, senses, table, candidates, c);
    EnemiesAreSeen(space, viewer, senses, table, candidates);
  }

  /** What is seen of what is within sight: how it is regarded, where it is and
      how far, whether it lives, and whether it faces the viewer. */
  lemma {:induction false} SightingsAreExact(
      space: Space, viewer: Viewer, senses: Senses, table: RelationshipTable, candidates: seq<Seeable>, s: Sighting)
    ensures s in Visible(space, viewer, senses, table, candidates) <==>
              exists c | c in candidates ::
                && InSight(space, viewer, senses, c) && s.entity == c.entity && s.origin == c.origin
                && s.distance == space.length(c.Eye().Minus(viewer.Eye())) && s.alive == c.alive
                && s.facingViewer == space.facing(c.forward, viewer.Eye().Minus(c.Eye()))
                && var regard := Regard(table, viewer.classification, c.classification);
                   var spared := viewer.prisoner || c.prisoner || c.impervious;
                   s.relationship == if spared && regard in {Dislike, Hate, Nemesis} then NoRelationship else regard
  {
    hide Regard, Sees;
    if candidates != [] {
      var n := |candidates| - 1;
      assert candidates == candidates[..n] + [candidates[n]];
      SightingsAreExact(space, viewer, senses, table, candidates[..n], s);
      SeesIsInSight(space, viewer, senses, candidates[n]);
    }
  }

  lemma SeesIsInSight(space: Space, viewer: Viewer, senses: Senses, c: Seeable)
    ensures Sees(space, viewer, senses, c) <==> InSight(space, viewer, senses, c)
  {
  }

  // ---- What there is to see ----

  /** An entity as the snapshot before the tick shows it. */
  ghost predicate IsShown(space: Space, entity: Entity, slots: Slots, c: Seeable) {
    && c.entity == entity && slots.actor.Some?
    && var actor := slots.actor.value;
       && c.classification == actor.classification && c.origin == actor.origin && c.viewOfs == actor.viewOfs
       && c.forward == space.forward(actor.yaw) && c.alive == actor.alive && c.isClient == actor.isClient
       && c.prisoner == slots.prisoner && c.impervious == slots.impervious
  }

  lemma {:induction false} KnownFrom(candidates: seq<Seeable>, c: Seeable)
    requires c in candidates
    requires forall a, b | a in candidates && b in candidates && a.entity == b.entity :: a == b
    ensures c.entity in Known(candidates) && Known(candidates)[c.entity] == c
  {
    var n := |candidates| - 1;
    assert candidates == candidates[..n] + [candidates[n]];
    if c in candidates[..n] {
      KnownFrom(candidates[..n], c);
    }
  }

  lemma {:induction false} KnownComesFrom(candidates: seq<Seeable>, entity: Entity)
    requires entity in Known(candidates)
    ensures exists c | c in candidates :: c.entity == entity
  {
    var n := |candidates| - 1;
    assert candidates == candidates[..n] + [candidates[n]];
    if entity == candidates[n].entity {
      assert candidates[n] in candidates;
    } else {
      KnownComesFrom(candidates[..n], entity);
    }
  }

  /** The snapshot shows exactly the listed entities, each as it is before the
      tick. */
  lemma SnapshotHolds(space: Space, world: World, listing: seq<Entity>, c: Seeable)
    requires forall e | e in listing :: e in world && world[e].actor.Some?
    ensures c in Snapshot(space, world, listing) <==>
              c.entity in listing && IsShown(space, c.entity, world[c.entity], c)
  {
    hide IsShown, SeeableOf;
    var rows := SeenRows(space, world, listing);
    var sorted := Ordering.Sorted(rows);
    Ordering.SortedKeeps(rows);
    if c in Snapshot(space, world, listing) {
      var i :| 0 <= i < |sorted| && sorted[i].value == c;
      assert sorted[i] in rows;
      var j :| 0 <= j < |rows| && rows[j] == sorted[i];
      ShownIs(space, listing[j], world[listing[j]]);
      assert c.entity == listing[j] by { ShownHasItsEntity(space, listing[j], world[listing[j]], c); }
    }
    if c.entity in listing && IsShown(space, c.entity, world[c.entity], c) {
      var j :| 0 <= j < |listing| && listing[j] == c.entity;
      ShownIs(space, c.entity, world[c.entity]);
      assert rows[j].value == c && rows[j] in sorted;
      var i :| 0 <= i < |sorted| && sorted[i] == rows[j];
      assert Snapshot(space, world, listing)[i] == c;
    }
  }

  lemma ShownHasItsEntity(space: Space, entity: Entity, slots: Slots, c: Seeable)
    requires IsShown(space, entity, slots, c)
    ensures c.entity == entity
  {
  }

  lemma ShownIs(space: Space, entity: Entity, slots: Slots)
    requires slots.actor.Some?
    ensures IsShown(space, entity, slots, SeeableOf(space, entity, slots))
    ensures forall c | IsShown(space, entity, slots, c) :: c == SeeableOf(space, entity, slots)
  {
  }

  // ---- The enemy ----

  /** The enemy is no longer there, or no longer alive. */
  predicate IsGone(known: map<Entity, Seeable>, enemy: Entity) {
    enemy !in known || !known[enemy].alive
  }

  /** Its squad tells it of an enemy other than itself that is still alive. */
  predicate IsTold(entity: Entity, prisoner: bool, known: map<Entity, Seeable>, squads: Squads.Roster) {
    var shared := Squads.SharedEnemy(squads.squads, entity);
    !prisoner && shared.Some? && shared.value.0 != entity && !IsGone(known, shared.value.0)
  }

  /** What a monster notices of its enemy: of one it sees, of one it remembers,
      or of one its squad tells it of, in this order. */
  predicate Dawns(
      space: Space, entity: Entity, prisoner: bool, brain: Brains.Brain, known: map<Entity, Seeable>,
      squads: Squads.Roster, enemy: Option<Sighting>, memory: Option<EnemyMemory>, origin: Vec3, c: Condition)
  {
    if enemy.Some? then
      var seen := enemy.value;
      match c
      case NewEnemy => memory.None? || memory.value.entity != seen.entity
      case EnemyFacingMe => seen.facingViewer
      case CanMeleeAttack1 => brain.hasMelee && brain.meleeInReach(origin, seen.origin, seen.distance)
      case CanRangeAttack1 => brain.hasRange && seen.distance <= brain.rangeAttackRange
      case _ => false
    else if memory.Some? then
      var gone := IsGone(known, memory.value.entity);
      match c
      case EnemyDead => gone
      case EnemyOccluded => !gone
      case EnemyTooFar =>
        !gone && space.length(known[memory.value.entity].origin.Minus(origin)) > brain.senses.lookDistance
      case _ => false
    else c in {NewEnemy, EnemyOccluded} && IsTold(entity, prisoner, known, squads)
  }

  lemma SightDawns(
      entity: Entity, brain: Brains.Brain, m: Mind, seen: Sighting, c: Condition, space: Space, prisoner: bool,
      known: map<Entity, Seeable>, squads: Squads.Roster)
    ensures c in SeesEnemyNow(entity, brain, m, seen).conditions <==>
              c in m.conditions ||
              Dawns(space, entity, prisoner, brain, known, squads, Some(seen), m.ai.memory, m.actor.origin, c)
  {
    hide IsTold;
  }

  lemma LossDawns(
      space: Space, entity: Entity, prisoner: bool, brain: Brains.Brain, known: map<Entity, Seeable>,
      squads: Squads.Roster, m: Mind, dt: real, c: Condition)
    requires m.ai.memory.Some?
    ensures c in LosesSight(space, entity, brain, known, m, dt).conditions <==>
              c in m.conditions ||
              Dawns(space, entity, prisoner, brain, known, squads, None, m.ai.memory, m.actor.origin, c)
  {
    hide IsTold;
  }

  lemma NewsDawns(
      space: Space, entity: Entity, prisoner: bool, brain: Brains.Brain, known: map<Entity, Seeable>,
      squads: Squads.Roster, m: Mind, c: Condition)
    requires m.ai.memory.None?
    ensures var shared := if prisoner then None else Squads.SharedEnemy(squads.squads, entity);
            c in JoinsSquad(space, entity, known, m, shared).conditions <==>
              c in m.conditions ||
              Dawns(space, entity, prisoner, brain, known, squads, None, m.ai.memory, m.actor.origin, c)
  {
    hide Squads.SharedEnemy;
  }

  lemma AcquiredDawns(
      space: Space, entity: Entity, prisoner: bool, brain: Brains.Brain, known: map<Entity, Seeable>,
      squads: Squads.Roster, enemy: Option<Sighting>, m: Mind, dt: real, c: Condition)
    ensures c in Acquired(space, entity, prisoner, brain, known, squads, enemy, m, dt).0.conditions <==>
              c in m.conditions ||
              Dawns(space, entity, prisoner, brain, known, squads, enemy, m.ai.memory, m.actor.origin, c)
  {
    hide Squads.Shared, Squads.SharedEnemy, SeesEnemyNow, LosesSight, JoinsSquad, Dawns;
    if enemy.Some? {
      SightDawns(entity, brain, m, enemy.value, c, space, prisoner, known, squads);
    } else if m.ai.memory.Some? {
      LossDawns(space, entity, prisoner, brain, known, squads, m, dt, c);
    } else {
      NewsDawns(space, entity, prisoner, brain, known, squads, m, c);
    }
  }

  // ---- Damage ----

  /** What the damage of the tick is noticed as. */
  predicate Hurts(brain: Brains.Brain, hurt: Option<Hurt>, c: Condition) {
    hurt.Some? &&
    match c
    case HeavyDamage => hurt.value.total >= brain.heavyDamageThreshold
    case LightDamage => hurt.value.total < brain.heavyDamageThreshold
    case Provoked => hurt.value.provokes
    case _ => false
  }

  lemma StruckHurts(
      space: Space, entity: Entity, prisoner: bool, brain: Brains.Brain, hurt: Option<Hurt>, m: Mind, c: Condition)
    ensures c in Struck(space, entity, prisoner, brain, hurt, m).conditions <==>
              c in m.conditions || Hurts(brain, hurt, c)
  {
    hide Hurts;
    if hurt.Some? {
      var h := hurt.value;
      var weight := if h.total >= brain.heavyDamageThreshold then HeavyDamage else LightDamage;
      var blame: Conditions := if h.provokes then {Provoked} else {};
      assert Struck(space, entity, prisoner, brain, hurt, m).conditions == m.conditions + {weight} + blame;
      HurtsIs(brain, h, c);
    } else {
      assert !Hurts(brain, hurt, c) by { NoHurt(brain, c); }
    }
  }

  lemma HurtsIs(brain: Brains.Brain, h: Hurt, c: Condition)
    ensures Hurts(brain, Some(h), c) <==>
              || c == (if h.total >= brain.heavyDamageThreshold then HeavyDamage else LightDamage)
              || (c == Provoked && h.provokes)
  {
  }

  lemma NoHurt(brain: Brains.Brain, c: Condition)
    ensures !Hurts(brain, None, c)
  {
  }

  // ---- All together ----

  /** The enemy a monster remembers when its tick begins: a prisoner forgets. */
  function Remembered(slots: Slots): Option<EnemyMemory>
    requires slots.Thinks()
  {
    if slots.prisoner then None else slots.ai.value.memory
  }

  lemma WakesWith(entity: Entity, slots: Slots, events: seq<AiEvent>)
    requires slots.Thinks()
    ensures var m := Disarmed(entity, slots.prisoner, Woken(entity, slots.actor.value, slots.ai.value, events));
            && m.conditions == slots.ai.value.pending && m.ai.memory == Remembered(slots)
            && m.ai.stuck == slots.ai.value.stuck && m.ai.moveTarget == slots.ai.value.moveTarget
            && m.actor == slots.actor.value.(alive := m.actor.alive)
  {
    hide Brains.Attacking;
  }

  /** A monster without life or health is dead, which it reports once. */
  lemma DeathIsNoticed(entity: Entity, actor: Actor, ai: MonsterAi, events: seq<AiEvent>)
    ensures var m := Woken(entity, actor, ai, events);
            if actor.alive && actor.health > 0.0 then
              m.actor == actor && m.ai.state == ai.state && m.events == events
            else
              && m.actor == actor.(alive := false) && m.ai.state == Dead
              && m.events == events + if ai.state == Dead then [] else [AiEvent(entity, StateChanged(ai.state, Dead))]
  {
  }

  lemma AcquiresWithoutMoving(
      space: Space, entity: Entity, prisoner: bool, brain: Brains.Brain, known: map<Entity, Seeable>,
      squads: Squads.Roster, enemy: Option<Sighting>, m: Mind, dt: real)
    ensures var after := Acquired(space, entity, prisoner, brain, known, squads, enemy, m, dt).0;
            after.ai.stuck == m.ai.stuck && after.ai.moveTarget == m.ai.moveTarget
  {
    hide Squads.Shared, Squads.SharedEnemy, Occluded;
  }

  /** A monster's viewer, look and enemy in a tick. */
  function ViewerIn(space: Space, entity: Entity, slots: Slots): Viewer
    requires slots.Thinks()
  {
    var actor := slots.actor.value;
    Viewer(entity, actor.origin, actor.viewOfs, space.forward(actor.yaw), actor.classification, slots.prisoner)
  }

  function EnemyIn(
      space: Space, sim: Sim, entity: Entity, slots: Slots, brain: Brains.Brain, candidates: seq<Seeable>)
    : Option<Sighting>
    requires slots.Thinks()
  {
    ChosenEnemy(brain, slots.actor.value.origin,
                Looked(space, ViewerIn(space, entity, slots), brain.senses, sim.relationships, candidates))
  }

  /** Everything a monster notices in a tick: what was pending, what it sees and
      hears, what dawns on it of its enemy, what hurts it, and that it is stuck;
      and nothing else. It heads for the most interesting sound it hears. */
  lemma NoticesExactly(
      space: Space, sim: Sim, entity: Entity, slots: Slots, brain: Brains.Brain, candidates: seq<Seeable>,
      known: map<Entity, Seeable>, events: seq<AiEvent>, dt: real, c: Condition)
    requires slots.Thinks()
    ensures var m := Sensed(space, sim, entity, slots, brain, candidates, known, events, dt).0;
            var viewer := ViewerIn(space, entity, slots);
            var enemy := EnemyIn(space, sim, entity, slots, brain, candidates);
            var best := Listened(space, viewer.Eye(), brain.senses, sim.sounds).best;
            && m.ai.conditions == m.conditions
            && m.ai.moveTarget == (if best.Some? then Some(best.value.position) else slots.ai.value.moveTarget)
            && (c in m.conditions <==>
                  || c in slots.ai.value.pending
                  || (brain.senses.lookDistance > 0.0 &&
                      IsSeen(space, viewer, brain.senses, sim.relationships, candidates, c))
                  || IsHeard(space, viewer.Eye(), brain.senses, sim.sounds, c)
                  || Dawns(space, entity, slots.prisoner, brain, known, sim.squads, enemy, Remembered(slots),
                           slots.actor.value.origin, c)
                  || Hurts(brain, HurtOf(sim.damage, entity), c)
                  || (c == Blocked && slots.ai.value.stuck >= 25))
  {
    hide Looked, Listened, ChosenEnemy, Woken, Disarmed, Acquired, Struck, Dawns, Hurts, IsSeen, IsHeard;
    var prisoner := slots.prisoner;
    var m := Disarmed(entity, prisoner, Woken(entity, slots.actor.value, slots.ai.value, events));
    WakesWith(entity, slots, events);
    var viewer := ViewerOf(space, entity, m.actor, prisoner);
    assert viewer == ViewerIn(space, entity, slots);
    SeesIff(space, viewer, brain.senses, sim.relationships, candidates, c);
    HearsIff(space, viewer.Eye(), brain.senses, sim.sounds, c);
    var look := Looked(space, viewer, brain.senses, sim.relationships, candidates);
    var heard := Heard(m, look, Listened(space, viewer.Eye(), brain.senses, sim.sounds));
    var enemy := ChosenEnemy(brain, heard.actor.origin, look);
    AcquiredDawns(space, entity, prisoner, brain, known, sim.squads, enemy, heard, dt, c);
    AcquiresWithoutMoving(space, entity, prisoner, brain, known, sim.squads, enemy, heard, dt);
    var acquired := Acquired(space, entity, prisoner, brain, known, sim.squads, enemy, heard, dt).0;
    StruckHurts(space, entity, prisoner, brain, HurtOf(sim.damage, entity), acquired, c);
    StruckStays(space, entity, prisoner, brain, HurtOf(sim.damage, entity), acquired);
  }

  lemma StruckStays(space: Space, entity: Entity, prisoner: bool, brain: Brains.Brain, hurt: Option<Hurt>, m: Mind)
    ensures Struck(space, entity, prisoner, brain, hurt, m).ai.moveTarget == m.ai.moveTarget
    ensures Struck(space, entity, prisoner, brain, hurt, m).ai.stuck == m.ai.stuck
  {
  }

  // ---- Memory ----

  function Told(space: Space, origin: Vec3, enemy: Entity, position: Vec3): EnemyMemory {
    EnemyMemory(enemy, position, 0.0, true, space.length(position.Minus(origin)))
  }

  /** Whom a monster without an enemy takes for one: whoever hurt it, unless
      it did so itself or is a prisoner. */
  function Blamed(space: Space, entity: Entity, prisoner: bool, hurt: Option<Hurt>, origin: Vec3): Option<EnemyMemory> {
    if hurt.Some? && hurt.value.attacker.Some? && hurt.value.attacker.value != entity && !prisoner
    then Some(Told(space, origin, hurt.value.attacker.value, hurt.value.position))
    else None
  }

  /** Whom a monster remembers: the enemy it sees, the one out of sight that
      is alive within 256 units, the one its squad tells it of, or the one it
      blames, in this order. */
  function Recalled(
      space: Space, entity: Entity, prisoner: bool, known: map<Entity, Seeable>, squads: Squads.Roster,
      enemy: Option<Sighting>, hurt: Option<Hurt>, memory: Option<EnemyMemory>, origin: Vec3, dt: real)
    : Option<EnemyMemory>
  {
    if enemy.Some? then
      Some(EnemyMemory(enemy.value.entity, enemy.value.origin, 0.0, false, enemy.value.distance))
    else if memory.Some? && !IsGone(known, memory.value.entity) &&
            space.length(known[memory.value.entity].origin.Minus(origin)) <= 256.0 then
      Some(EnemyMemory(memory.value.entity, memory.value.lastKnownPosition, memory.value.timeSinceSeen + dt, true,
                       space.length(known[memory.value.entity].origin.Minus(origin))))
    else if memory.None? && IsTold(entity, prisoner, known, squads) then
      var shared := Squads.SharedEnemy(squads.squads, entity).value;
      Some(Told(space, origin, shared.0, shared.1))
    else Blamed(space, entity, prisoner, hurt, origin)
  }

  lemma AcquiresAndBlames(
      space: Space, entity: Entity, prisoner: bool, brain: Brains.Brain, known: map<Entity, Seeable>,
      squads: Squads.Roster, enemy: Option<Sighting>, hurt: Option<Hurt>, m: Mind, dt: real)
    ensures Struck(space, entity, prisoner, brain, hurt,
                   Acquired(space, entity, prisoner, brain, known, squads, enemy, m, dt).0).ai.memory
            == Recalled(space, entity, prisoner, known, squads, enemy, hurt, m.ai.memory, m.actor.origin, dt)
  {
    hide Squads.Shared, Squads.SharedEnemy;
  }

  /** What a monster remembers after a tick's senses is exactly that. */
  lemma RemembersExactly(
      space: Space, sim: Sim, entity: Entity, slots: Slots, brain: Brains.Brain, candidates: seq<Seeable>,
      known: map<Entity, Seeable>, events: seq<AiEvent>, dt: real)
    requires slots.Thinks()
    ensures Sensed(space, sim, entity, slots, brain, candidates, known, events, dt).0.ai.memory ==
            Recalled(space, entity, slots.prisoner, known, sim.squads,
                     EnemyIn(space, sim, entity, slots, brain, candidates), HurtOf(sim.damage, entity),
                     Remembered(slots), slots.actor.value.origin, dt)
  {
    hide Looked, Listened, ChosenEnemy, Woken, Disarmed, Acquired, Struck, Recalled;
    var prisoner := slots.prisoner;
    var m := Disarmed(entity, prisoner, Woken(entity, slots.actor.value, slots.ai.value, events));
    WakesWith(entity, slots, events);
    var viewer := ViewerOf(space, entity, m.actor, prisoner);
    assert viewer == ViewerIn(space, entity, slots);
    var look := Looked(space, viewer, brain.senses, sim.relationships, candidates);
    var heard := Heard(m, look, Listened(space, viewer.Eye(), brain.senses, sim.sounds));
    var enemy := ChosenEnemy(brain, heard.actor.origin, look);
    AcquiresAndBlames(space, entity, prisoner, brain, known, sim.squads, enemy, HurtOf(sim.damage, entity), heard, dt);
  }

  function EntityOf(memory: Option<EnemyMemory>): Option<Entity> {
    if memory.Some? then Some(memory.value.entity) else None
  }

  /** A change of the remembered enemy is the last thing reported. */
  ghost predicate IsReported(
      entity: Entity, before: Option<EnemyMemory>, after: Option<EnemyMemory>, events: seq<AiEvent>)
  {
    EntityOf(after) != EntityOf(before) ==>
      && events != []
      && events[|events| - 1] ==
         AiEvent(entity, if after.Some? then EnemyAcquired(after.value.entity) else EnemyLost)
  }

  lemma AcquiresAloud(
      space: Space, entity: Entity, prisoner: bool, brain: Brains.Brain, known: map<Entity, Seeable>,
      squads: Squads.Roster, enemy: Option<Sighting>, m: Mind, dt: real)
    ensures var after := Acquired(space, entity, prisoner, brain, known, squads, enemy, m, dt).0;
            IsReported(entity, m.ai.memory, after.ai.memory, after.events)
  {
    hide Squads.Shared, Squads.SharedEnemy;
  }

  lemma BlamesAloud(
      space: Space, entity: Entity, prisoner: bool, brain: Brains.Brain, hurt: Option<Hurt>, m: Mind)
    ensures var after := Struck(space, entity, prisoner, brain, hurt, m);
            && IsReported(entity, m.ai.memory, after.ai.memory, after.events)
            && (EntityOf(after.ai.memory) == EntityOf(m.ai.memory) ==> after.events == m.events)
  {
  }

  /** Gaining, changing and losing an enemy is reported. */
  lemma EnemyIsReported(
      space: Space, sim: Sim, entity: Entity, slots: Slots, brain: Brains.Brain, candidates: seq<Seeable>,
      known: map<Entity, Seeable>, events: seq<AiEvent>, dt: real)
    requires slots.Thinks()
    ensures var m := Sensed(space, sim, entity, slots, brain, candidates, known, events, dt).0;
            IsReported(entity, Remembered(slots), m.ai.memory, m.events)
  {
    hide Looked, Listened, ChosenEnemy, Woken, Disarmed, Acquired, Struck;
    var prisoner := slots.prisoner;
    var m := Disarmed(entity, prisoner, Woken(entity, slots.actor.value, slots.ai.value, events));
    WakesWith(entity, slots, events);
    var viewer := ViewerOf(space, entity, m.actor, prisoner);
    var look := Looked(space, viewer, brain.senses, sim.relationships, candidates);
    var heard := Heard(m, look, Listened(space, viewer.Eye(), brain.senses, sim.sounds));
    var enemy := ChosenEnemy(brain, heard.actor.origin, look);
    AcquiresAloud(space, entity, prisoner, brain, known, sim.squads, enemy, heard, dt);
    var acquired := Acquired(space, entity, prisoner, brain, known, sim.squads, enemy, heard, dt).0;
    BlamesAloud(space, entity, prisoner, brain, HurtOf(sim.damage, entity), acquired);
  }

  // ---- From one tick to the next ----

  /** A sound is added at the end while there is room for it among 128 and it
      carries at all, and is dropped otherwise. */
  lemma SoundsAreBounded(sounds: seq<SoundEvent>, sound: SoundEvent)
    ensures var after := Pushed(sounds, sound);
            && (after == sounds + [sound] <==> sound.radius > 0.0 && |sounds| < 128)
            && (after == sounds <==> sound.radius <= 0.0 || |sounds| >= 128)
            && (|sounds| <= 128 ==> |after| <= 128)
  {
    assert sounds + [sound] != sounds;
  }

  /** The sounds left after some ticks, if none is added. */
  function LeftAfter(sounds: seq<SoundEvent>, dt: real, n: nat): seq<SoundEvent> {
    if n == 0 then sounds else Expired(LeftAfter(sounds, dt, n - 1), dt)
  }

  lemma {:induction false} ExpiredAges(sounds: seq<SoundEvent>, dt: real, s: SoundEvent)
    ensures s in Expired(sounds, dt) <==>
              s.lifetime > 0.0 && s.(lifetime := s.lifetime + dt) in sounds
  {
    if sounds != [] {
      var n := |sounds| - 1;
      var last := sounds[n];
      assert sounds == sounds[..n] + [last];
      ExpiredAges(sounds[..n], dt, s);
      var aged := last.(lifetime := last.lifetime - dt);
      assert s == aged <==> s.(lifetime := s.lifetime + dt) == last;
      assert forall x :: x in sounds <==> x in sounds[..n] || x == last;
    }
  }

  lemma {:induction false} StillThere(sounds: seq<SoundEvent>, dt: real, n: nat, s: SoundEvent, age: real)
    requires dt >= 0.0 && n > 0 && age == n as real * dt
    ensures s in LeftAfter(sounds, dt, n) <==> s.lifetime > 0.0 && s.(lifetime := s.lifetime + age) in sounds
  {
    hide Expired;
    ExpiredAges(LeftAfter(sounds, dt, n - 1), dt, s);
    if n == 1 {
      assert LeftAfter(sounds, dt, 0) == sounds;
      assert n as real == 1.0 && age == dt;
    } else {
      var before := s.(lifetime := s.lifetime + dt);
      assert age - dt == (n - 1) as real * dt;
      StillThere(sounds, dt, n - 1, before, age - dt);
      assert before.lifetime + (age - dt) == s.lifetime + age;
    }
  }

  /** A sound lasts as long as its lifetime says, and no longer. */
  lemma SoundsLast(sounds: seq<SoundEvent>, dt: real, n: nat, s: SoundEvent)
    requires dt >= 0.0 && n > 0
    ensures s in LeftAfter(sounds, dt, n) <==>
              s.lifetime > 0.0 && s.(lifetime := s.lifetime + n as real * dt) in sounds
  {
    StillThere(sounds, dt, n, s, n as real * dt);
  }

  /** A tick leaves no damage for the next one, counts itself, lets sounds age
      and reports its first 4096 events. */
  lemma TickCloses(space: Space, sim: Sim, world: World, q: Queries, dt: real)
    requires Answers(world, q)
    ensures var step := if dt > 0.0 then dt else 0.0;
            var rebuilt := sim.(squads := Rebuilt(sim.squads, Offers(world, q.tagged)));
            var candidates := Snapshot(space, world, q.seen);
            var each := TickedEach(space, Whole(rebuilt, world, []), Order(q.thinking), candidates,
                                   Known(candidates), step);
            var after := TickedWorld(space, sim, world, q, dt);
            && after.sim.damage == map[] && after.sim.tickCount == each.sim.tickCount + 1
            && after.sim.sounds == LeftAfter(each.sim.sounds, step, 1) && after.sim.rng == each.sim.rng
            && after.world == each.world && |after.events| <= 4096 && after.events <= each.events
            && (|each.events| <= 4096 ==> after.events == each.events)
            && (|each.events| > 4096 ==> |after.events| == 4096)
  {
    hide TickedEach, Snapshot, Known, Offers, Order, Rebuilt, Expired;
  }
}

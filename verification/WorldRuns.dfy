/** The promises about prisoners over whole ticks and over whole runs. */
module WorldRuns {
  import opened Wrappers
  import opened Geometry
  import opened MonsterStates
  import opened Schedules
  import opened Senses
  import opened Sequences
  import opened Steps
  import opened AiTick
  import opened Prisoners
  import opened Enmity
  import Brains
  import Ordering
  import Squads

  // ---- The order monsters are ticked in ----

  ghost predicate ThinkingAre(world: World, listing: seq<Entity>) {
    Distinct(listing) && forall e :: e in listing <==> e in world && world[e].Thinks()
  }

  lemma ThinkingRowsDistinct(world: World, listing: seq<Entity>)
    requires DistinctSlots(world) && ThinkingAre(world, listing)
    ensures Ordering.DistinctIds(ThinkingRows(listing))
  {
    var rows := ThinkingRows(listing);
    forall i, j | 0 <= i < j < |rows| ensures rows[i].id != rows[j].id {
      assert listing[i] in listing && listing[j] in listing;
    }
  }

  lemma RowsCarryTheirEntity(listing: seq<Entity>)
    ensures forall r | r in ThinkingRows(listing) :: r.id == r.value.id && r.value in listing
    ensures forall e | e in listing :: Ordering.Row(e.id, e) in ThinkingRows(listing)
  {
    var rows := ThinkingRows(listing);
    forall e | e in listing ensures Ordering.Row(e.id, e) in rows {
      var i :| 0 <= i < |listing| && listing[i] == e;
      assert rows[i] == Ordering.Row(e.id, e);
    }
  }

  /** Every thinking monster is ticked exactly once. */
  lemma OrderIsEveryoneOnce(world: World, listing: seq<Entity>)
    requires DistinctSlots(world) && ThinkingAre(world, listing)
    ensures ThinkingAre(world, Order(listing))
  {
    hide Ordering.Sorted;
    var rows := ThinkingRows(listing);
    var sorted := Ordering.Sorted(rows);
    ThinkingRowsDistinct(world, listing);
    RowsCarryTheirEntity(listing);
    Ordering.SortedKeeps(rows);
    Ordering.SortedAscends(rows);
    var order := Order(listing);
    forall i, j | 0 <= i < j < |order| ensures order[i] != order[j] {
      assert sorted[i] in rows && sorted[j] in rows && sorted[i].id < sorted[j].id;
    }
    forall e ensures e in order <==> e in listing {
      if e in listing {
        var row := Ordering.Row(e.id, e);
        assert row in sorted;
        var i :| 0 <= i < |sorted| && sorted[i] == row;
        assert order[i] == e;
      }
      if e in order {
        var i :| 0 <= i < |order| && order[i] == e;
        assert sorted[i] in rows;
      }
    }
  }

  lemma AnswersThinking(world: World, q: Queries)
    requires Answers(world, q)
    ensures ThinkingAre(world, q.thinking)
  {
  }

  // ---- The flags that a snapshot shows ----

  ghost predicate FlagsAre(world: World, prisoners: iset<Entity>) {
    forall e | e in world :: world[e].prisoner <==> e in prisoners
  }

  lemma SnapshotIsFlagged(space: Space, world: World, listing: seq<Entity>, prisoners: iset<Entity>)
    requires FlagsAre(world, prisoners) && forall e | e in listing :: e in world && world[e].actor.Some?
    ensures Flagged(Snapshot(space, world, listing), prisoners)
  {
    hide Ordering.Sorted;
    var rows := SeenRows(space, world, listing);
    var sorted := Ordering.Sorted(rows);
    Ordering.SortedKeeps(rows);
    forall c | c in Snapshot(space, world, listing) ensures c.prisoner <==> c.entity in prisoners {
      var i :| 0 <= i < |sorted| && sorted[i].value == c;
      assert sorted[i] in rows;
      var j :| 0 <= j < |rows| && rows[j] == sorted[i];
      assert listing[j] in listing && c == SeeableOf(space, listing[j], world[listing[j]]);
    }
  }

  lemma {:induction false} PreviousIsShared(squads: seq<Squads.Squad>, prisoners: iset<Entity>, name: string)
    requires NoneShared(squads, prisoners) && name in Previous(squads) && Previous(squads)[name].0.Some?
    ensures Previous(squads)[name].0.value !in prisoners
  {
    var n := |squads| - 1;
    assert squads[n] in squads;
    if squads[n].name != name {
      assert forall s | s in squads[..n] :: s in squads;
      PreviousIsShared(squads[..n], prisoners, name);
    }
  }

  /** Forming the squads anew shares no prisoner either. */
  lemma RebuiltSharesNone(squads: Squads.Roster, offers: seq<Squads.Candidate>, prisoners: iset<Entity>)
    requires NoneShared(squads.squads, prisoners)
    ensures NoneShared(Rebuilt(squads, offers).squads, prisoners)
  {
    hide Previous, Squads.InTurn;
    var built := Squads.Built(Squads.InTurn(offers)).squads;
    forall name | name in Previous(squads.squads) && Previous(squads.squads)[name].0.Some?
      ensures Previous(squads.squads)[name].0.value !in prisoners
    {
      PreviousIsShared(squads.squads, prisoners, name);
    }
    var rebuilt := Rebuilt(squads, offers).squads;
    forall s | s in rebuilt && s.enemy.Some? ensures s.enemy.value !in prisoners {
      var i :| 0 <= i < |rebuilt| && rebuilt[i] == s;
      assert built[i].enemy == None;
    }
  }

  // ---- A tick's monsters, one after the other ----

  /** How the world stands when `done` have been ticked. */
  ghost predicate Underway(start: Whole, w: Whole, done: seq<Entity>, prisoners: iset<Entity>) {
    && w.world.Keys == start.world.Keys
    && w.sim.brains == start.sim.brains && w.sim.damage == start.sim.damage
    && NoneShared(w.sim.squads.squads, prisoners)
    && (forall e | e in w.world && e !in done :: w.world[e] == start.world[e])
    && (forall e | e in w.world && e in done && start.world[e].Thinks() ::
          && w.world[e].Thinks()
          && w.world[e] == start.world[e].(actor := w.world[e].actor, ai := w.world[e].ai)
          && Traced(prisoners, start.world[e].ai.value.memory, HurtOf(start.sim.damage, e), w.world[e].ai.value.memory))
  }

  lemma NextUnderway(
      space: Space, start: Whole, w: Whole, done: seq<Entity>, entity: Entity, candidates: seq<Seeable>,
      known: map<Entity, Seeable>, dt: real, prisoners: iset<Entity>)
    requires Underway(start, w, done, prisoners) && Flagged(candidates, prisoners)
    requires entity !in done && entity in start.world && start.world[entity].Thinks()
    ensures Underway(start, TickedNext(space, w, entity, candidates, known, dt), done + [entity], prisoners)
    ensures Own(entity, w.events, TickedNext(space, w, entity, candidates, known, dt).events)
  {
    hide NoneShared, Flagged, Traced, TickedOne, Own;
    EnemiesAreTraced(space, w.sim, entity, w.world[entity], candidates, known, w.events, dt, prisoners);
    assert forall e :: e in done + [entity] <==> e in done || e == entity;
  }

  lemma {:induction false} EachUnderway(
      space: Space, start: Whole, order: seq<Entity>, candidates: seq<Seeable>, known: map<Entity, Seeable>, dt: real,
      prisoners: iset<Entity>)
    requires NoneShared(start.sim.squads.squads, prisoners) && Flagged(candidates, prisoners) && Distinct(order)
    requires forall e | e in order :: e in start.world && start.world[e].Thinks()
    ensures Underway(start, TickedEach(space, start, order, candidates, known, dt), order, prisoners)
    decreases |order|
  {
    hide NoneShared, Flagged, Traced, TickedNext, Underway;
    if order == [] {
      NobodyYet(start, prisoners);
    } else {
      var n := |order| - 1;
      EachUnderway(space, start, order[..n], candidates, known, dt, prisoners);
      var w := TickedEach(space, start, order[..n], candidates, known, dt);
      assert order == order[..n] + [order[n]];
      NextUnderway(space, start, w, order[..n], order[n], candidates, known, dt, prisoners);
    }
  }

  lemma NobodyYet(start: Whole, prisoners: iset<Entity>)
    requires NoneShared(start.sim.squads.squads, prisoners)
    ensures Underway(start, start, [], prisoners)
  {
  }

  /** What a whole tick does to everyone's enemies: a monster that remembers a
      prisoner afterwards remembered it before or was hurt by it in this tick,
      and no squad shares a prisoner. */
  lemma TickTracesEnemies(space: Space, sim: Sim, world: World, q: Queries, dt: real, prisoners: iset<Entity>)
    requires DistinctSlots(world) && Answers(world, q) && FlagsAre(world, prisoners)
    requires NoneShared(sim.squads.squads, prisoners)
    ensures var after := TickedWorld(space, sim, world, q, dt);
            && NoneShared(after.sim.squads.squads, prisoners) && FlagsAre(after.world, prisoners)
            && after.world.Keys == world.Keys && after.sim.brains == sim.brains
            && (forall e | e in world && !world[e].Thinks() :: after.world[e] == world[e])
            && forall e | e in world && world[e].Thinks() ::
                 && after.world[e].Thinks()
                 && Traced(prisoners, world[e].ai.value.memory, HurtOf(sim.damage, e), after.world[e].ai.value.memory)
  {
    hide NoneShared, Flagged, Traced, TickedEach, Snapshot, Order, Rebuilt, Expired, Answers, Known, Offers;
    AnswersListed(world, q);
    AnswersThinking(world, q);
    OrderIsEveryoneOnce(world, q.thinking);
    SnapshotIsFlagged(space, world, q.seen, prisoners);
    RebuiltSharesNone(sim.squads, Offers(world, q.tagged), prisoners);
    var candidates := Snapshot(space, world, q.seen);
    var start := Whole(sim.(squads := Rebuilt(sim.squads, Offers(world, q.tagged))), world, []);
    EachUnderway(space, start, Order(q.thinking), candidates, Known(candidates), AtLeastZero(dt), prisoners);
  }

  // ---- A tick's prisoners ----

  /** Every prisoner that thinks does so with a default brain, and runs a
      published schedule or none. What it remembers, what it was told and the
      state it is in are free. */
  ghost predicate Ready(sim: Sim, world: World) {
    forall e | e in world && world[e].prisoner && world[e].Thinks() :: PrisonerReady(sim, world[e])
  }

  ghost predicate PrisonerReady(sim: Sim, slots: Slots) {
    slots.Thinks() && PublishedRunner(slots.ai.value.runner) && slots.ai.value.brain < |sim.brains| &&
    Brains.IsDefault(sim.brains[slots.ai.value.brain])
  }

  /** Whether a prisoner's tick ends in combat, told from what it brings to it:
      one that a script holds stays in the state it is in, and any other has to
      be told of an enemy from outside. */
  predicate WillFight(slots: Slots)
    requires slots.Thinks()
  {
    var actor, ai := slots.actor.value, slots.ai.value;
    && actor.alive && actor.health > 0.0
    && if slots.held then ai.state.Combat?
       else SeeEnemy in ai.pending && !ai.state.Dead? && !ai.state.Script? && !ai.state.PlayDead? &&
            !SetsStateNow(ai.runner)
  }

  /** How a prisoner leaves its tick: without an enemy whatever it brought, and
      in combat exactly when it was to be. */
  ghost predicate AtPeace(slots: Slots, after: Slots) {
    && slots.Thinks() && Disarms(slots, after)
    && (after.ai.value.state.Combat? <==> WillFight(slots))
    && (AttackingRunner(after.ai.value.runner) ==> !slots.held && WillFight(slots))
  }

  lemma PrisonerLeavesAtPeace(
      space: Space, sim: Sim, entity: Entity, slots: Slots, candidates: seq<Seeable>, known: map<Entity, Seeable>,
      events: seq<AiEvent>, dt: real)
    requires PrisonerReady(sim, slots) && slots.prisoner
    ensures var after := TickedOne(space, sim, entity, slots, candidates, known, events, dt);
            AtPeace(slots, after.slots) && Quiet(entity, events, after.events)
  {
    hide TickedOne, Quiet, Brains.DefaultBrain, PublishedRunner, AttackingRunner, ToldToAttack, Sensed, SetsStateNow;
    hide RunnerOutcome;
    PrisonerTick(space, sim, entity, slots, candidates, known, events, dt);
    if slots.held {
      HeldPrisonerTick(space, sim, entity, slots, candidates, known, events, dt);
      NoScheduleSetsNothing(CLEARED);
    } else {
      var brain := sim.brains[slots.ai.value.brain];
      var senses: Senses, hasRange: bool :| brain == Brains.DefaultBrain(senses, hasRange);
      PrisonerFightsIffTold(space, sim, entity, slots, senses, hasRange, candidates, known, events, dt);
    }
  }

  ghost predicate NoPrisonerAttacks(events: seq<AiEvent>, prisoners: iset<Entity>) {
    forall ev | ev in events && ev.kind.Attack? :: ev.entity !in prisoners
  }

  ghost predicate PeaceSoFar(start: Whole, w: Whole, done: seq<Entity>, prisoners: iset<Entity>) {
    && NoPrisonerAttacks(w.events, prisoners)
    && forall e | e in done && e in start.world && e in prisoners && start.world[e].Thinks() ::
         e in w.world && AtPeace(start.world[e], w.world[e])
  }

  lemma QuietNoAttack(entity: Entity, before: seq<AiEvent>, after: seq<AiEvent>, prisoners: iset<Entity>)
    requires NoPrisonerAttacks(before, prisoners)
    requires if entity in prisoners then Quiet(entity, before, after) else Own(entity, before, after)
    ensures NoPrisonerAttacks(after, prisoners)
  {
    forall ev | ev in after && ev.kind.Attack? ensures ev.entity !in prisoners {
      var i :| 0 <= i < |after| && after[i] == ev;
      if i < |before| {
        assert before[i] == ev && ev in before;
      }
    }
  }

  lemma NextInPeace(
      space: Space, start: Whole, w: Whole, done: seq<Entity>, entity: Entity, candidates: seq<Seeable>,
      known: map<Entity, Seeable>, dt: real, prisoners: iset<Entity>)
    requires Underway(start, w, done, prisoners) && PeaceSoFar(start, w, done, prisoners)
    requires Flagged(candidates, prisoners) && FlagsAre(start.world, prisoners) && Ready(start.sim, start.world)
    requires entity !in done && entity in start.world && start.world[entity].Thinks()
    ensures PeaceSoFar(start, TickedNext(space, w, entity, candidates, known, dt), done + [entity], prisoners)
  {
    hide NoneShared, Flagged, Traced, TickedOne, Own, Quiet, AtPeace, NoPrisonerAttacks, PublishedRunner;
    NextUnderway(space, start, w, done, entity, candidates, known, dt, prisoners);
    var next := TickedNext(space, w, entity, candidates, known, dt);
    if entity in prisoners {
      assert PrisonerReady(start.sim, start.world[entity]);
      PrisonerLeavesAtPeace(space, w.sim, entity, w.world[entity], candidates, known, w.events, dt);
    }
    QuietNoAttack(entity, w.events, next.events, prisoners);
    assert forall e :: e in done + [entity] <==> e in done || e == entity;
  }

  lemma {:induction false} EachInPeace(
      space: Space, start: Whole, order: seq<Entity>, candidates: seq<Seeable>, known: map<Entity, Seeable>, dt: real,
      prisoners: iset<Entity>)
    requires NoneShared(start.sim.squads.squads, prisoners) && Flagged(candidates, prisoners) && Distinct(order)
    requires FlagsAre(start.world, prisoners) && Ready(start.sim, start.world) && start.events == []
    requires forall e | e in order :: e in start.world && start.world[e].Thinks()
    ensures PeaceSoFar(start, TickedEach(space, start, order, candidates, known, dt), order, prisoners)
    decreases |order|
  {
    hide NoneShared, Flagged, Traced, TickedNext, Underway, Ready, FlagsAre, PeaceSoFar;
    if order == [] {
      PeaceAtFirst(start, prisoners);
    } else {
      var n := |order| - 1;
      EachInPeace(space, start, order[..n], candidates, known, dt, prisoners);
      EachUnderway(space, start, order[..n], candidates, known, dt, prisoners);
      var w := TickedEach(space, start, order[..n], candidates, known, dt);
      assert order == order[..n] + [order[n]];
      NextInPeace(space, start, w, order[..n], order[n], candidates, known, dt, prisoners);
    }
  }

  lemma PeaceAtFirst(start: Whole, prisoners: iset<Entity>)
    requires start.events == []
    ensures PeaceSoFar(start, start, [], prisoners)
  {
  }

  /** After a tick every prisoner that thinks is at peace, and the tick reported
      no attack by a prisoner. */
  ghost predicate Peace(world: World, after: Whole, prisoners: iset<Entity>) {
    && NoPrisonerAttacks(after.events, prisoners)
    && forall e | e in world && e in prisoners && world[e].Thinks() ::
         e in after.world && AtPeace(world[e], after.world[e])
  }

  lemma ClosingKeepsPeace(world: World, w: Whole, dt: real, prisoners: iset<Entity>)
    requires Peace(world, w, prisoners)
    ensures Peace(world, Closed(w, dt), prisoners)
  {
    hide AtPeace, Expired;
    var events := Closed(w, dt).events;
    assert forall ev | ev in events :: ev in w.events;
  }

  lemma TickKeepsPeace(space: Space, sim: Sim, world: World, q: Queries, dt: real, prisoners: iset<Entity>)
    requires DistinctSlots(world) && Answers(world, q) && FlagsAre(world, prisoners) && Ready(sim, world)
    requires NoneShared(sim.squads.squads, prisoners)
    ensures Peace(world, TickedWorld(space, sim, world, q, dt), prisoners)
  {
    hide NoneShared, Flagged, TickedEach, Snapshot, Order, Rebuilt, Answers, Known, Offers, AtPeace, Closed;
    hide NoPrisonerAttacks, PublishedRunner;
    AnswersListed(world, q);
    AnswersThinking(world, q);
    OrderIsEveryoneOnce(world, q.thinking);
    SnapshotIsFlagged(space, world, q.seen, prisoners);
    RebuiltSharesNone(sim.squads, Offers(world, q.tagged), prisoners);
    var candidates := Snapshot(space, world, q.seen);
    var start := Whole(sim.(squads := Rebuilt(sim.squads, Offers(world, q.tagged))), world, []);
    assert Ready(start.sim, world);
    EachInPeace(space, start, Order(q.thinking), candidates, Known(candidates), AtLeastZero(dt), prisoners);
    ClosingKeepsPeace(
      world, TickedEach(space, start, Order(q.thinking), candidates, Known(candidates), AtLeastZero(dt)),
      AtLeastZero(dt), prisoners);
  }

  lemma PeaceIsReady(sim: Sim, world: World, after: Whole, prisoners: iset<Entity>)
    requires Peace(world, after, prisoners) && Ready(sim, world) && FlagsAre(world, prisoners)
    requires after.world.Keys == world.Keys && FlagsAre(after.world, prisoners) && after.sim.brains == sim.brains
    requires forall e | e in world && !world[e].Thinks() :: !after.world[e].Thinks()
    ensures Ready(after.sim, after.world)
  {
    hide PublishedRunner, AttackingRunner, WillFight;
    forall e | e in after.world && after.world[e].prisoner && after.world[e].Thinks()
      ensures PrisonerReady(after.sim, after.world[e])
    {
      assert AtPeace(world[e], after.world[e]);
      assert PrisonerReady(sim, world[e]);
    }
  }

  // ---- Runs ----

  /** A state in which no squad shares a prisoner and every prisoner is ready. */
  ghost predicate Lawful(w: Whole, prisoners: iset<Entity>) {
    DistinctSlots(w.world) && FlagsAre(w.world, prisoners) && Ready(w.sim, w.world) &&
    NoneShared(w.sim.squads.squads, prisoners)
  }

  ghost predicate Ticks(a: Whole, b: Whole, space: Space, q: Queries, dt: real) {
    Answers(a.world, q) && b == TickedWorld(space, a.sim, a.world, q, dt)
  }

  ghost predicate SomeTick(a: Whole, b: Whole) {
    exists space: Space, q: Queries, dt: real :: Ticks(a, b, space, q, dt)
  }

  /** Between ticks the host may do anything, to the damage, the sounds, the
      generator, the relationships, the squads and every entity, its memory and
      pending conditions included, short of sharing a prisoner with a squad, of
      changing the prisoner flags, and of what makes a prisoner ready. */
  ghost predicate HostMoves(b: Whole, prisoners: iset<Entity>) {
    && NoneShared(b.sim.squads.squads, prisoners)
    && DistinctSlots(b.world) && FlagsAre(b.world, prisoners) && Ready(b.sim, b.world)
  }

  ghost predicate IsRun(run: seq<Whole>, prisoners: iset<Entity>) {
    && run != [] && Lawful(run[0], prisoners)
    && forall i | 0 <= i < |run| - 1 :: SomeTick(run[i], run[i + 1]) || HostMoves(run[i + 1], prisoners)
  }

  lemma TickIsLawful(a: Whole, b: Whole, prisoners: iset<Entity>)
    requires Lawful(a, prisoners) && SomeTick(a, b)
    ensures Lawful(b, prisoners) && Peace(a.world, b, prisoners)
    ensures forall e | e in a.world && a.world[e].Thinks() ::
              e in b.world && b.world[e].Thinks() &&
              Traced(prisoners, a.world[e].ai.value.memory, HurtOf(a.sim.damage, e), b.world[e].ai.value.memory)
  {
    hide TickedWorld, NoneShared, Peace, Ready, Traced, Answers;
    var space: Space, q: Queries, dt: real :| Ticks(a, b, space, q, dt);
    TickTracesEnemies(space, a.sim, a.world, q, dt, prisoners);
    TickKeepsPeace(space, a.sim, a.world, q, dt, prisoners);
    PeaceIsReady(a.sim, a.world, b, prisoners);
  }

  lemma {:induction false} RunIsLawful(run: seq<Whole>, prisoners: iset<Entity>, i: nat)
    requires IsRun(run, prisoners) && i < |run|
    ensures Lawful(run[i], prisoners)
    decreases i
  {
    hide NoneShared, Ready, SomeTick, FlagsAre;
    if i > 0 {
      RunIsLawful(run, prisoners, i - 1);
      assert SomeTick(run[i - 1], run[i - 1 + 1]) || HostMoves(run[i - 1 + 1], prisoners);
      if SomeTick(run[i - 1], run[i]) {
        TickIsLawful(run[i - 1], run[i], prisoners);
      }
    }
  }

  /** In every tick of every run a prisoner ends without an enemy and reports no
      attack, is in combat exactly when it was told from outside or a script
      holds it there, and has an attacking schedule only then; and nobody has
      come to take a prisoner for an enemy but by being hurt by it. */
  lemma PrisonersNeverFight(run: seq<Whole>, prisoners: iset<Entity>, i: nat)
    requires IsRun(run, prisoners) && i + 1 < |run| && SomeTick(run[i], run[i + 1])
    ensures Peace(run[i].world, run[i + 1], prisoners)
    ensures NoneShared(run[i + 1].sim.squads.squads, prisoners)
    ensures forall e | e in run[i].world && run[i].world[e].Thinks() ::
              e in run[i + 1].world && run[i + 1].world[e].Thinks() &&
              Traced(prisoners, run[i].world[e].ai.value.memory, HurtOf(run[i].sim.damage, e),
                     run[i + 1].world[e].ai.value.memory)
  {
    hide NoneShared, Ready, SomeTick, FlagsAre, Peace, Traced, IsRun;
    RunIsLawful(run, prisoners, i);
    TickIsLawful(run[i], run[i + 1], prisoners);
  }
}

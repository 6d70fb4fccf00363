/** A tick, and what is fed to the digest of a world, do not depend on the
    order in which the entity store answers its queries. */
module Determinism {
  import opened Wrappers
  import opened Geometry
  import opened MonsterStates
  import opened Schedules
  import opened Senses
  import opened Sequences
  import opened AiTick
  import opened WorldRuns
  import Ordering
  import Pcg32
  import Squads

  // ---- Rows of any listing ----

  ghost predicate SameEntities(a: seq<Entity>, b: seq<Entity>) {
    Distinct(a) && Distinct(b) && forall e :: e in a <==> e in b
  }

  ghost predicate OneRowEach<T>(listing: seq<Entity>, rows: seq<Ordering.Row<T>>, row: Entity -> Ordering.Row<T>) {
    && |rows| == |listing|
    && forall i | 0 <= i < |rows| :: rows[i] == row(listing[i]) && rows[i].id == listing[i].id
  }

  /** Rows made one by one of a world's entities sort to the same rows. */
  lemma RowsSortAlike<T(!new)>(
      world: World, a: seq<Entity>, b: seq<Entity>, rowsA: seq<Ordering.Row<T>>, rowsB: seq<Ordering.Row<T>>,
      row: Entity -> Ordering.Row<T>)
    requires DistinctSlots(world) && SameEntities(a, b) && forall e | e in a :: e in world
    requires OneRowEach(a, rowsA, row) && OneRowEach(b, rowsB, row)
    ensures Ordering.Sorted(rowsA) == Ordering.Sorted(rowsB)
  {
    RowsDistinct(world, a, rowsA, row);
    RowsDistinct(world, b, rowsB, row);
    RowsIncluded(a, b, rowsA, rowsB, row);
    RowsIncluded(b, a, rowsB, rowsA, row);
    Ordering.SortedIsUnique(rowsA, rowsB);
  }

  lemma RowsDistinct<T>(
      world: World, listing: seq<Entity>, rows: seq<Ordering.Row<T>>, row: Entity -> Ordering.Row<T>)
    requires DistinctSlots(world) && Distinct(listing) && forall e | e in listing :: e in world
    requires OneRowEach(listing, rows, row)
    ensures Ordering.DistinctIds(rows)
  {
    forall i, j | 0 <= i < j < |rows| ensures rows[i].id != rows[j].id {
      assert listing[i] in listing && listing[j] in listing;
    }
  }

  lemma RowsIncluded<T(!new)>(
      a: seq<Entity>, b: seq<Entity>, rowsA: seq<Ordering.Row<T>>, rowsB: seq<Ordering.Row<T>>,
      row: Entity -> Ordering.Row<T>)
    requires OneRowEach(a, rowsA, row) && OneRowEach(b, rowsB, row) && forall e | e in a :: e in b
    ensures forall r | r in rowsA :: r in rowsB
  {
    forall r | r in rowsA ensures r in rowsB {
      var i :| 0 <= i < |rowsA| && rowsA[i] == r;
      assert a[i] in b;
      var j :| 0 <= j < |b| && b[j] == a[i];
      assert rowsB[j] == r;
    }
  }

  // ---- The three queries of a tick ----

  lemma SnapshotIgnoresOrder(space: Space, world: World, a: seq<Entity>, b: seq<Entity>)
    requires DistinctSlots(world) && SameEntities(a, b)
    requires forall e | e in a || e in b :: e in world && world[e].actor.Some?
    ensures Snapshot(space, world, a) == Snapshot(space, world, b)
  {
    hide Ordering.Sorted;
    var row := (e: Entity) =>
      if e in world && world[e].actor.Some? then Ordering.Row(e.id, SeeableOf(space, e, world[e]))
      else Ordering.Row(e.id, Seeable(e, Unclassified, ZERO, ZERO, ZERO, false, false, false, false));
    assert forall i | 0 <= i < |a| :: a[i] in a;
    assert forall i | 0 <= i < |b| :: b[i] in b;
    RowsSortAlike(world, a, b, SeenRows(space, world, a), SeenRows(space, world, b), row);
  }

  lemma OrderIgnoresOrder(world: World, a: seq<Entity>, b: seq<Entity>)
    requires DistinctSlots(world) && SameEntities(a, b) && forall e | e in a :: e in world
    ensures Order(a) == Order(b)
  {
    hide Ordering.Sorted;
    RowsSortAlike(world, a, b, ThinkingRows(a), ThinkingRows(b), (e: Entity) => Ordering.Row(e.id, e));
  }

  /** The rows of the named squad candidates, exactly. */
  ghost predicate IsOffer(world: World, listing: seq<Entity>, row: Ordering.Row<Squads.Candidate>) {
    var e := row.value.entity;
    e in listing && e in world && IsTagged(world[e]) && row.value == OfferOf(e, world[e]) && row.id == e.id &&
    row.value.squadName != ""
  }

  lemma {:induction false} OfferRowsExactly(world: World, listing: seq<Entity>, row: Ordering.Row<Squads.Candidate>)
    requires forall e | e in listing :: e in world && IsTagged(world[e])
    ensures row in OfferRows(world, listing) <==> IsOffer(world, listing, row)
  {
    if listing != [] {
      var n := |listing| - 1;
      assert listing == listing[..n] + [listing[n]];
      assert listing[n] in listing;
      OfferRowsExactly(world, listing[..n], row);
    }
  }

  lemma {:induction false} OfferRowsDistinct(world: World, listing: seq<Entity>)
    requires DistinctSlots(world) && Distinct(listing)
    requires forall e | e in listing :: e in world && IsTagged(world[e])
    ensures Ordering.DistinctIds(OfferRows(world, listing))
  {
    if listing != [] {
      var n := |listing| - 1;
      assert listing == listing[..n] + [listing[n]];
      assert listing[n] in listing;
      OfferRowsDistinct(world, listing[..n]);
      forall row | row in OfferRows(world, listing[..n]) ensures row.id != listing[n].id {
        OfferRowsExactly(world, listing[..n], row);
      }
      assert forall i | 0 <= i < |OfferRows(world, listing[..n])| ::
          OfferRows(world, listing[..n])[i] in OfferRows(world, listing[..n]);
    }
  }

  lemma OffersIgnoreOrder(world: World, a: seq<Entity>, b: seq<Entity>)
    requires DistinctSlots(world) && SameEntities(a, b)
    requires forall e | e in a || e in b :: e in world && IsTagged(world[e])
    ensures Offers(world, a) == Offers(world, b)
  {
    hide Ordering.Sorted, OfferRows;
    OfferRowsDistinct(world, a);
    OfferRowsDistinct(world, b);
    forall row ensures row in OfferRows(world, a) <==> row in OfferRows(world, b) {
      OfferRowsExactly(world, a, row);
      OfferRowsExactly(world, b, row);
    }
    Ordering.SortedIsUnique(OfferRows(world, a), OfferRows(world, b));
  }

  lemma AnswersAgree(world: World, q: Queries, r: Queries)
    requires Answers(world, q) && Answers(world, r)
    ensures SameEntities(q.seen, r.seen) && SameEntities(q.tagged, r.tagged) && SameEntities(q.thinking, r.thinking)
    ensures forall e | e in q.thinking :: e in world
  {
  }

  /** For any two orders the store may answer in, a tick leaves the same world,
      events, squads, sounds and generator. */
  lemma TickIgnoresOrder(space: Space, sim: Sim, world: World, q: Queries, r: Queries, dt: real)
    requires DistinctSlots(world) && Answers(world, q) && Answers(world, r)
    ensures TickedWorld(space, sim, world, q, dt) == TickedWorld(space, sim, world, r, dt)
  {
    hide Answers, SameEntities, Snapshot, Offers, Order, TickedEach, Rebuilt, Known, DistinctSlots, Expired;
    AnswersListed(world, q);
    AnswersListed(world, r);
    AnswersAgree(world, q, r);
    SnapshotIgnoresOrder(space, world, q.seen, r.seen);
    OffersIgnoreOrder(world, q.tagged, r.tagged);
    OrderIgnoresOrder(world, q.thinking, r.thinking);
  }

  // ---- What is fed to the digest ----

  datatype MindRow = MindRow(
    state: MonsterState,
    conditions: Conditions,
    pending: Conditions,
    scheduleName: string,
    taskIndex: nat,
    timer: real,
    activity: Activity,
    moveSpeed: real,
    idealYaw: real,
    stuck: nat,
    memory: Option<(nat, Vec3, bool)>,
    current: nat,
    waypoints: seq<Vec3>)

  datatype Fed =
    | FedTick(count: nat)
    | FedGenerator(generator: Pcg32.Generator)
    | FedRelationships(table: RelationshipTable)
    | FedSounds(count: nat)
    | FedActor(id: nat, actor: Actor)
    | FedMind(id: nat, mind: MindRow)
    | FedSquad(name: string, leader: nat, members: seq<nat>, shares: bool)

  /** The name a runner's schedule goes by, or none. */
  function RunnerName(r: Runner): string {
    if r.schedule.Some? then r.schedule.value.name else ""
  }

  function MindOf(ai: MonsterAi): MindRow {
    MindRow(
      ai.state, ai.conditions, ai.pending, RunnerName(ai.runner),
      ai.runner.taskIndex, ai.runner.timer, ai.activity, ai.moveSpeed, ai.idealYaw, ai.stuck,
      if ai.memory.None? then None
      else Some((ai.memory.value.entity.id, ai.memory.value.lastKnownPosition, ai.memory.value.occluded)),
      ai.route.current, ai.route.waypoints)
  }

  function ActorRows(world: World, listing: seq<Entity>): seq<Ordering.Row<Fed>>
    requires forall e | e in listing :: e in world && world[e].actor.Some?
  {
    seq(|listing|, i requires 0 <= i < |listing| =>
      Ordering.Row(listing[i].id, FedActor(listing[i].id, world[listing[i]].actor.value)))
  }

  function MindRows(world: World, listing: seq<Entity>): seq<Ordering.Row<Fed>>
    requires forall e | e in listing :: e in world && world[e].ai.Some?
  {
    seq(|listing|, i requires 0 <= i < |listing| =>
      Ordering.Row(listing[i].id, FedMind(listing[i].id, MindOf(world[listing[i]].ai.value))))
  }

  function Ids(entities: seq<Entity>): seq<nat> {
    seq(|entities|, (i: nat) requires i < |entities| => entities[i].id)
  }

  function SquadFed(squads: seq<Squads.Squad>): seq<Fed> {
    seq(|squads|, i requires 0 <= i < |squads| =>
      FedSquad(squads[i].name, squads[i].leader.id, Ids(squads[i].members), squads[i].enemy.Some?))
  }

  /** The answers to the digest's two queries: the actors, and the minds. */
  ghost predicate DigestAnswers(world: World, actors: seq<Entity>, minds: seq<Entity>) {
    && Lists(actors, iset e | e in world && world[e].actor.Some?)
    && Lists(minds, iset e | e in world && world[e].ai.Some?)
  }

  function HashFed(sim: Sim, world: World, actors: seq<Entity>, minds: seq<Entity>): seq<Fed>
    requires forall e | e in actors :: e in world && world[e].actor.Some?
    requires forall e | e in minds :: e in world && world[e].ai.Some?
  {
    [FedTick(sim.tickCount), FedGenerator(sim.rng), FedRelationships(sim.relationships), FedSounds(|sim.sounds|)]
    + Values(Ordering.Sorted(ActorRows(world, actors)))
    + Values(Ordering.Sorted(MindRows(world, minds)))
    + SquadFed(sim.squads.squads)
  }

  lemma DigestAnswersAgree(world: World, actors: seq<Entity>, minds: seq<Entity>, a: seq<Entity>, m: seq<Entity>)
    requires DigestAnswers(world, actors, minds) && DigestAnswers(world, a, m)
    ensures SameEntities(actors, a) && SameEntities(minds, m)
    ensures forall e | e in actors || e in a :: e in world && world[e].actor.Some?
    ensures forall e | e in minds || e in m :: e in world && world[e].ai.Some?
  {
  }

  lemma ActorsSortAlike(world: World, a: seq<Entity>, b: seq<Entity>)
    requires DistinctSlots(world) && SameEntities(a, b)
    requires forall e | e in a || e in b :: e in world && world[e].actor.Some?
    ensures Ordering.Sorted(ActorRows(world, a)) == Ordering.Sorted(ActorRows(world, b))
  {
    hide Ordering.Sorted;
    var row := (e: Entity) =>
      Ordering.Row(e.id, if e in world && world[e].actor.Some? then FedActor(e.id, world[e].actor.value)
                         else FedTick(0));
    assert forall i | 0 <= i < |a| :: a[i] in a;
    assert forall i | 0 <= i < |b| :: b[i] in b;
    RowsSortAlike(world, a, b, ActorRows(world, a), ActorRows(world, b), row);
  }

  lemma MindsSortAlike(world: World, a: seq<Entity>, b: seq<Entity>)
    requires DistinctSlots(world) && SameEntities(a, b)
    requires forall e | e in a || e in b :: e in world && world[e].ai.Some?
    ensures Ordering.Sorted(MindRows(world, a)) == Ordering.Sorted(MindRows(world, b))
  {
    hide Ordering.Sorted, MindOf;
    var row := (e: Entity) =>
      Ordering.Row(e.id, if e in world && world[e].ai.Some? then FedMind(e.id, MindOf(world[e].ai.value))
                         else FedTick(0));
    assert forall i | 0 <= i < |a| :: a[i] in a;
    assert forall i | 0 <= i < |b| :: b[i] in b;
    RowsSortAlike(world, a, b, MindRows(world, a), MindRows(world, b), row);
  }

  /** The digest is fed the same whatever order its queries are answered in. */
  lemma DigestIgnoresOrder(
      sim: Sim, world: World, actors: seq<Entity>, minds: seq<Entity>, a: seq<Entity>, m: seq<Entity>)
    requires DistinctSlots(world) && DigestAnswers(world, actors, minds) && DigestAnswers(world, a, m)
    ensures (forall e | e in actors || e in a :: e in world && world[e].actor.Some?) &&
            (forall e | e in minds || e in m :: e in world && world[e].ai.Some?)
    ensures HashFed(sim, world, actors, minds) == HashFed(sim, world, a, m)
  {
    hide Ordering.Sorted, SquadFed, ActorRows, MindRows, SameEntities, DistinctSlots, DigestAnswers;
    DigestAnswersAgree(world, actors, minds, a, m);
    ActorsSortAlike(world, actors, a);
    MindsSortAlike(world, minds, m);
  }
}

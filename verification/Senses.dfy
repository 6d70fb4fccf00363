/** Sight and hearing, and what a monster remembers of its enemy. */
module Senses {
  import opened Wrappers
  import opened Geometry
  import opened MonsterStates
  import opened Schedules
  import opened Sequences

  const MAX_SOUNDS: nat := 128
  const OCCLUDED_MEMORY_DISTANCE: real := 256.0

  /** The spacing of 32-bit floats at one, 2^-23. */
  const EPSILON: real := 1.0 / 8388608.0

  /** The geometry that is not looked into: lengths, directions, what the view
      cone and the world let through, and how a mover gets on. */
  datatype Space = Space(
    length: Vec3 -> real,
    forward: real -> Vec3,
    inCone: (real, Vec3, Vec3) -> bool,
    clear: (Vec3, Vec3) -> bool,
    facing: (Vec3, Vec3) -> bool,
    yawToward: (Vec3, Vec3) -> Option<real>,
    step: (nat, Vec3, Vec3, real, real) -> (Vec3, real),
    reach: (nat, Vec3, Vec3) -> Vec3,
    walkable: (nat, Vec3, Vec3) -> Vec3)

  datatype Senses = Senses(lookDistance: real, fovCos: real, hearingSensitivity: real)

  datatype Viewer = Viewer(
    entity: Entity,
    origin: Vec3,
    viewOfs: Vec3,
    forward: Vec3,
    classification: Classification,
    prisoner: bool)
  {
    function Eye(): Vec3 {
      origin.Plus(viewOfs)
    }
  }

  datatype Seeable = Seeable(
    entity: Entity,
    classification: Classification,
    origin: Vec3,
    viewOfs: Vec3,
    forward: Vec3,
    alive: bool,
    isClient: bool,
    prisoner: bool,
    impervious: bool)
  {
    function Eye(): Vec3 {
      origin.Plus(viewOfs)
    }
  }

  datatype Sighting = Sighting(
    entity: Entity,
    relationship: Relationship,
    origin: Vec3,
    distance: real,
    alive: bool,
    facingViewer: bool)

  // ---- Sight ----

  /** The one hostility rule: with a prisoner on either end, or a subject that
      cannot be hurt, a hostile relationship reads as none. */
  function SightingRelationship(
      table: RelationshipTable, viewer: Classification, seen: Classification, prisonerInvolved: bool)
    : (r: Relationship)
    ensures prisonerInvolved ==> !r.IsHostile()
    ensures !prisonerInvolved || !Regard(table, viewer, seen).IsHostile() ==> r == Regard(table, viewer, seen)
  {
    var r := Regard(table, viewer, seen);
    if prisonerInvolved && r.IsHostile() then NoRelationship else r
  }

  /** Whether a viewer sees something at all. */
  predicate Sees(space: Space, viewer: Viewer, senses: Senses, c: Seeable) {
    var toTarget := c.Eye().Minus(viewer.Eye());
    && c.entity != viewer.entity
    && space.length(toTarget) <= senses.lookDistance
    && space.inCone(senses.fovCos, viewer.forward, toTarget)
    && space.clear(viewer.Eye(), c.Eye())
  }

  function Sight(space: Space, viewer: Viewer, table: RelationshipTable, c: Seeable): Sighting {
    Sighting(
      c.entity,
      SightingRelationship(
        table, viewer.classification, c.classification, viewer.prisoner || c.prisoner || c.impervious),
      c.origin,
      space.length(c.Eye().Minus(viewer.Eye())),
      c.alive,
      space.facing(c.forward, viewer.Eye().Minus(c.Eye())))
  }

  function SightConditions(space: Space, viewer: Viewer, table: RelationshipTable, c: Seeable): Conditions {
    Sight(space, viewer, table, c).relationship.SightingCondition() + if c.isClient then {SeeClient} else {}
  }

  /** Everything a viewer sees, in the order it is given. */
  function Visible(
      space: Space, viewer: Viewer, senses: Senses, table: RelationshipTable, candidates: seq<Seeable>)
    : seq<Sighting>
  {
    if candidates == [] then []
    else
      var n := |candidates| - 1;
      Visible(space, viewer, senses, table, candidates[..n])
      + if Sees(space, viewer, senses, candidates[n]) then [Sight(space, viewer, table, candidates[n])] else []
  }

  function Noticed(
      space: Space, viewer: Viewer, senses: Senses, table: RelationshipTable, candidates: seq<Seeable>)
    : Conditions
  {
    if candidates == [] then {}
    else
      var n := |candidates| - 1;
      Noticed(space, viewer, senses, table, candidates[..n])
      + if Sees(space, viewer, senses, candidates[n]) then SightConditions(space, viewer, table, candidates[n]) else {}
  }

  /** Whether one possible enemy is preferred to another: the worse regarded,
      then the nearer beyond a tolerance, then the lower slot. */
  predicate Better(candidate: Sighting, best: Sighting) {
    if candidate.relationship.Rank() != best.relationship.Rank() then
      candidate.relationship.Rank() > best.relationship.Rank()
    else if candidate.distance - best.distance > EPSILON || best.distance - candidate.distance > EPSILON then
      candidate.distance < best.distance
    else candidate.entity.id < best.entity.id
  }

  predicate IsPossibleEnemy(s: Sighting) {
    s.relationship.IsHostile() && s.alive
  }

  function SelectEnemy(visible: seq<Sighting>): (enemy: Option<Sighting>)
    ensures enemy.None? <==> forall s | s in visible :: !IsPossibleEnemy(s)
    ensures enemy.Some? ==> enemy.value in visible && IsPossibleEnemy(enemy.value)
  {
    if visible == [] then None
    else
      var n := |visible| - 1;
      var best := SelectEnemy(visible[..n]);
      assert visible == visible[..n] + [visible[n]];
      if !IsPossibleEnemy(visible[n]) then best
      else if best.None? || Better(visible[n], best.value) then Some(visible[n])
      else best
  }

  datatype LookResult = LookResult(conditions: Conditions, visible: seq<Sighting>, enemy: Option<Sighting>)

  function Looked(
      space: Space, viewer: Viewer, senses: Senses, table: RelationshipTable, candidates: seq<Seeable>)
    : LookResult
  {
    if senses.lookDistance <= 0.0 then LookResult({}, [], None)
    else
      var visible := Visible(space, viewer, senses, table, candidates);
      var enemy := SelectEnemy(visible);
      LookResult(
        Noticed(space, viewer, senses, table, candidates) + if enemy.Some? then {SeeEnemy} else {}, visible, enemy)
  }

  method Look(space: Space, viewer: Viewer, senses: Senses, table: RelationshipTable, candidates: seq<Seeable>)
    returns (result: LookResult)
    ensures result == Looked(space, viewer, senses, table, candidates)
  {
    hide Sees, Sight, SightConditions;
    if senses.lookDistance <= 0.0 {
      return LookResult({}, [], None);
    }
    var conditions: Conditions, visible: seq<Sighting> := {}, [];
    for i := 0 to |candidates|
      invariant visible == Visible(space, viewer, senses, table, candidates[..i])
      invariant conditions == Noticed(space, viewer, senses, table, candidates[..i])
    {
      assert candidates[..i + 1][..i] == candidates[..i];
      if Sees(space, viewer, senses, candidates[i]) {
        conditions := conditions + SightConditions(space, viewer, table, candidates[i]);
        visible := visible + [Sight(space, viewer, table, candidates[i])];
      }
    }
    assert candidates[..|candidates|] == candidates;
    var enemy := SelectedEnemy(visible);
    result := LookResult(conditions + if enemy.Some? then {SeeEnemy} else {}, visible, enemy);
  }

  method SelectedEnemy(visible: seq<Sighting>) returns (best: Option<Sighting>)
    ensures best == SelectEnemy(visible)
  {
    hide Better, IsPossibleEnemy;
    best := None;
    for i := 0 to |visible|
      invariant best == SelectEnemy(visible[..i])
    {
      assert visible[..i + 1][..i] == visible[..i];
      if IsPossibleEnemy(visible[i]) && (best.None? || Better(visible[i], best.value)) {
        best := Some(visible[i]);
      }
    }
    assert visible[..|visible|] == visible;
  }

  // ---- What sight promises ----

  lemma {:induction false} VisibleComesFrom(
      space: Space, viewer: Viewer, senses: Senses, table: RelationshipTable, candidates: seq<Seeable>, s: Sighting)
    requires s in Visible(space, viewer, senses, table, candidates)
    ensures exists c | c in candidates :: Sees(space, viewer, senses, c) && s == Sight(space, viewer, table, c)
  {
    hide Sees, Sight;
    var n := |candidates| - 1;
    if Sees(space, viewer, senses, candidates[n]) && s == Sight(space, viewer, table, candidates[n]) {
      assert candidates[n] in candidates;
    } else {
      VisibleComesFrom(space, viewer, senses, table, candidates[..n], s);
      var c :| c in candidates[..n] && Sees(space, viewer, senses, c) && s == Sight(space, viewer, table, c);
      assert c in candidates;
    }
  }

  /** Nobody takes a prisoner, or something that cannot be hurt, for an enemy
      by sight; and a prisoner takes nobody. */
  lemma SightSparesPrisoners(
      space: Space, viewer: Viewer, senses: Senses, table: RelationshipTable, candidates: seq<Seeable>, s: Sighting)
    requires s in Visible(space, viewer, senses, table, candidates) && IsPossibleEnemy(s)
    ensures !viewer.prisoner
    ensures exists c | c in candidates :: c.entity == s.entity && !c.prisoner && !c.impervious && c.alive
  {
    VisibleComesFrom(space, viewer, senses, table, candidates, s);
  }

  lemma {:induction false} OnlySightConditions(
      space: Space, viewer: Viewer, senses: Senses, table: RelationshipTable, candidates: seq<Seeable>)
    ensures Noticed(space, viewer, senses, table, candidates) <= ALL_SIGHT - {SeeEnemy}
  {
    hide Sees;
    if candidates != [] {
      OnlySightConditions(space, viewer, senses, table, candidates[..|candidates| - 1]);
    }
  }

  /** Sight reports an enemy seen exactly when it chooses one. */
  lemma SeeEnemyIffChosen(
      space: Space, viewer: Viewer, senses: Senses, table: RelationshipTable, candidates: seq<Seeable>)
    ensures var look := Looked(space, viewer, senses, table, candidates);
            SeeEnemy in look.conditions <==> look.enemy.Some?
  {
    OnlySightConditions(space, viewer, senses, table, candidates);
  }

  // ---- Which enemy is chosen ----

  /** The choice is among the worst regarded: a nemesis if there is one, or
      else somebody hated. */
  lemma {:induction false} ChoiceIsWorstRegarded(visible: seq<Sighting>, s: Sighting)
    requires s in visible && IsPossibleEnemy(s)
    ensures SelectEnemy(visible).Some? && SelectEnemy(visible).value.relationship.Rank() >= s.relationship.Rank()
    ensures s.relationship.Nemesis? ==> SelectEnemy(visible).value.relationship.Nemesis?
    ensures s.relationship.Hate? ==> !SelectEnemy(visible).value.relationship.Dislike?
  {
    var n := |visible| - 1;
    assert visible == visible[..n] + [visible[n]];
    if s in visible[..n] {
      ChoiceIsWorstRegarded(visible[..n], s);
    }
  }

  /** A possible enemy that is better than every other. */
  ghost predicate IsWinner(visible: seq<Sighting>, w: Sighting) {
    && w in visible && IsPossibleEnemy(w)
    && forall s | s in visible && IsPossibleEnemy(s) && s != w :: Better(w, s)
  }

  /** The possible enemies occupy different slots. */
  ghost predicate DistinctEnemies(visible: seq<Sighting>) {
    forall i, j | 0 <= i < j < |visible| && IsPossibleEnemy(visible[i]) && IsPossibleEnemy(visible[j]) ::
      visible[i].entity.id != visible[j].entity.id
  }

  /** A winner is always chosen. */
  lemma {:induction false} WinnerIsChosen(visible: seq<Sighting>, w: Sighting)
    requires IsWinner(visible, w)
    ensures SelectEnemy(visible) == Some(w)
  {
    var n := |visible| - 1;
    assert visible == visible[..n] + [visible[n]];
    if w in visible[..n] {
      WinnerIsChosen(visible[..n], w);
    }
  }

  /** Something put last, behind everything else. */
  function PutLast(visible: seq<Sighting>, i: nat): seq<Sighting>
    requires i < |visible|
  {
    visible[..i] + visible[i + 1..] + [visible[i]]
  }

  lemma PutLastIsReordered(visible: seq<Sighting>, i: nat)
    requires i < |visible|
    ensures multiset(PutLast(visible, i)) == multiset(visible)
  {
    assert visible == visible[..i] + [visible[i]] + visible[i + 1..];
  }

  /** Whoever comes last is chosen, or does not beat the one that is. */
  lemma LastIsChosenOrBeaten(rest: seq<Sighting>, s: Sighting)
    requires IsPossibleEnemy(s)
    ensures SelectEnemy(rest + [s]).Some?
    ensures SelectEnemy(rest + [s]).value == s || !Better(s, SelectEnemy(rest + [s]).value)
  {
    hide Better;
    assert (rest + [s])[..|rest|] == rest;
  }

  lemma NobodyBeatsThemselves(s: Sighting)
    ensures !Better(s, s)
  {
  }

  /** A choice that somebody beats changes when that one is put last. */
  lemma BeatenWhenLast(visible: seq<Sighting>, i: nat) returns (other: seq<Sighting>)
    requires i < |visible| && IsPossibleEnemy(visible[i])
    requires SelectEnemy(visible).Some? && Better(visible[i], SelectEnemy(visible).value)
    ensures multiset(other) == multiset(visible) && SelectEnemy(other) != SelectEnemy(visible)
  {
    hide Better, SelectEnemy;
    other := PutLast(visible, i);
    PutLastIsReordered(visible, i);
    LastIsChosenOrBeaten(visible[..i] + visible[i + 1..], visible[i]);
    NobodyBeatsThemselves(visible[i]);
  }

  lemma Outdone(visible: seq<Sighting>, c: Sighting) returns (i: nat)
    requires DistinctEnemies(visible) && c in visible && IsPossibleEnemy(c) && !IsWinner(visible, c)
    ensures i < |visible| && IsPossibleEnemy(visible[i]) && Better(visible[i], c)
  {
    var s :| s in visible && IsPossibleEnemy(s) && s != c && !Better(c, s);
    i :| 0 <= i < |visible| && visible[i] == s;
    var j :| 0 <= j < |visible| && visible[j] == c;
    assert i < j || j < i;
  }

  ghost predicate OrderIsIgnored(visible: seq<Sighting>) {
    forall other: seq<Sighting> | multiset(other) == multiset(visible) :: SelectEnemy(other) == SelectEnemy(visible)
  }

  /** The choice is the same in every order exactly when there is nobody to
      choose, or one possible enemy is better than every other. */
  lemma ChoiceIgnoresOrderIff(visible: seq<Sighting>)
    requires DistinctEnemies(visible)
    ensures OrderIsIgnored(visible) <==>
              (forall s | s in visible :: !IsPossibleEnemy(s)) || exists w | w in visible :: IsWinner(visible, w)
  {
    hide Better, IsPossibleEnemy;
    if w :| w in visible && IsWinner(visible, w) {
      forall other: seq<Sighting> | multiset(other) == multiset(visible)
        ensures SelectEnemy(other) == SelectEnemy(visible)
      {
        SameMembers(visible, other);
        WinnerIsChosen(visible, w);
        WinnerIsChosen(other, w);
      }
    } else if SelectEnemy(visible).Some? {
      var i := Outdone(visible, SelectEnemy(visible).value);
      var other := BeatenWhenLast(visible, i);
    } else {
      forall other: seq<Sighting> | multiset(other) == multiset(visible) ensures SelectEnemy(other).None? {
        SameMembers(visible, other);
      }
    }
  }

  /** Equally regarded things are equally near or apart by more than the
      tolerance, and occupy different slots. */
  ghost predicate Separated(visible: seq<Sighting>) {
    forall a, b | a in visible && b in visible && IsPossibleEnemy(a) && IsPossibleEnemy(b) && a != b ::
      a.entity.id != b.entity.id &&
      (a.distance == b.distance || a.distance - b.distance > EPSILON || b.distance - a.distance > EPSILON)
  }

  /** Among separated things the one chosen is a winner. */
  lemma {:induction false} ChoiceIsBest(visible: seq<Sighting>, s: Sighting)
    requires Separated(visible) && s in visible && IsPossibleEnemy(s)
    ensures SelectEnemy(visible).Some?
    ensures SelectEnemy(visible).value == s || Better(SelectEnemy(visible).value, s)
  {
    var n := |visible| - 1;
    var earlier, last := visible[..n], visible[n];
    assert visible == earlier + [last];
    var best := SelectEnemy(earlier);
    if s in earlier {
      ChoiceIsBest(earlier, s);
    }
  }

  /** So separated things are chosen alike in any order. */
  lemma ChoiceIgnoresOrder(a: seq<Sighting>, b: seq<Sighting>)
    requires Separated(a) && forall s :: s in a <==> s in b
    ensures SelectEnemy(a) == SelectEnemy(b)
  {
    if SelectEnemy(a).Some? {
      ChoiceIsBest(a, SelectEnemy(a).value);
      assert SelectEnemy(b).Some?;
      ChoiceIsBest(a, SelectEnemy(b).value);
      ChoiceIsBest(b, SelectEnemy(a).value);
    }
  }

  /** Three sightings, at distances that are next to one another among 32-bit
      floats, that go round in a circle. */
  lemma ToleranceDependsOnOrder(relationship: Relationship, origin: Vec3)
    requires relationship.IsHostile()
    ensures exists a: Sighting, b: Sighting, c: Sighting ::
              && a.distance == 1.0 && b.distance == 1.0 + EPSILON && c.distance == 1.0 + 2.0 * EPSILON
              && DistinctEnemies([a, b, c]) && !OrderIsIgnored([a, b, c])
  {
    var a := Sighting(Entity(3, 0), relationship, origin, 1.0, true, false);
    var b := Sighting(Entity(2, 0), relationship, origin, 1.0 + EPSILON, true, false);
    var c := Sighting(Entity(1, 0), relationship, origin, 1.0 + 2.0 * EPSILON, true, false);
    NearerOrLower(b, a);
    NearerOrLower(c, b);
    NearerOrLower(a, c);
    InACircle(a, b, c);
  }

  /** Which of two things equally regarded is preferred. */
  lemma NearerOrLower(s: Sighting, t: Sighting)
    requires s.relationship == t.relationship
    requires t.distance - s.distance > EPSILON ||
             (-EPSILON <= t.distance - s.distance <= EPSILON && s.entity.id < t.entity.id)
    ensures Better(s, t)
  {
  }

  lemma InACircle(a: Sighting, b: Sighting, c: Sighting)
    requires IsPossibleEnemy(a) && IsPossibleEnemy(b) && IsPossibleEnemy(c)
    requires Better(b, a) && Better(c, b) && Better(a, c)
    ensures !OrderIsIgnored([a, b, c])
  {
    hide Better, IsPossibleEnemy, SelectEnemy;
    LastOfThree(a, b, c);
    var other := BeatenWhenLast([a, b, c], 0);
  }

  lemma LastOfThree(a: Sighting, b: Sighting, c: Sighting)
    requires IsPossibleEnemy(a) && IsPossibleEnemy(b) && IsPossibleEnemy(c)
    requires Better(b, a) && Better(c, b)
    ensures SelectEnemy([a, b, c]) == Some(c)
  {
    hide Better, IsPossibleEnemy, SelectEnemy;
    assert [a] == [] + [a] && [a, b] == [a] + [b] && [a, b, c] == [a, b] + [c];
    SelectsNobody();
    OneMoreToChoose([], a);
    OneMoreToChoose([a], b);
    OneMoreToChoose([a, b], c);
  }

  lemma SelectsNobody()
    ensures SelectEnemy([]) == None
  {
  }

  /** One more possible enemy is chosen when it beats the one chosen so far. */
  lemma OneMoreToChoose(rest: seq<Sighting>, s: Sighting)
    requires IsPossibleEnemy(s)
    ensures var best := SelectEnemy(rest);
            SelectEnemy(rest + [s]) == if best.None? || Better(s, best.value) then Some(s) else best
  {
    hide Better, IsPossibleEnemy;
    assert (rest + [s])[..|rest|] == rest;
  }

  // ---- Hearing ----

  datatype SoundEvent = SoundEvent(
    kind: SoundKind, position: Vec3, radius: real, emitter: Option<Entity>, lifetime: real)

  predicate IsScent(kind: SoundKind) {
    kind.Carcass? || kind.Meat? || kind.Garbage?
  }

  function HearingCondition(kind: SoundKind): Conditions {
    (if IsScent(kind) then {Smell} else {HearSound})
    + match kind
      case CombatSound => {HearCombat}
      case DangerSound => {HearDanger}
      case _ => {}
  }

  /** The sound list after one more sound, unless it is full or has no radius. */
  function Pushed(sounds: seq<SoundEvent>, sound: SoundEvent): seq<SoundEvent> {
    if sound.radius <= 0.0 || |sounds| >= MAX_SOUNDS then sounds else sounds + [sound]
  }

  function Expired(sounds: seq<SoundEvent>, dt: real): seq<SoundEvent> {
    if sounds == [] then []
    else
      var n := |sounds| - 1;
      var aged := sounds[n].(lifetime := sounds[n].lifetime - dt);
      Expired(sounds[..n], dt) + if aged.lifetime > 0.0 then [aged] else []
  }

  predicate Audible(space: Space, ears: Vec3, senses: Senses, sound: SoundEvent) {
    senses.hearingSensitivity > 0.0 &&
    space.length(sound.position.Minus(ears)) <= sound.radius * senses.hearingSensitivity
  }

  datatype ListenResult = ListenResult(conditions: Conditions, best: Option<SoundEvent>)

  predicate IsMoreInteresting(space: Space, ears: Vec3, sound: SoundEvent, best: SoundEvent) {
    if sound.kind.DangerSound? != best.kind.DangerSound? then sound.kind.DangerSound?
    else space.length(sound.position.Minus(ears)) < space.length(best.position.Minus(ears))
  }

  function Listened(space: Space, ears: Vec3, senses: Senses, sounds: seq<SoundEvent>): ListenResult {
    if sounds == [] then ListenResult({}, None)
    else
      var n := |sounds| - 1;
      var before := Listened(space, ears, senses, sounds[..n]);
      if !Audible(space, ears, senses, sounds[n]) then before
      else
        ListenResult(
          before.conditions + HearingCondition(sounds[n].kind),
          if before.best.None? || IsMoreInteresting(space, ears, sounds[n], before.best.value) then Some(sounds[n])
          else before.best)
  }

  method Listen(space: Space, ears: Vec3, senses: Senses, sounds: seq<SoundEvent>) returns (result: ListenResult)
    ensures result == Listened(space, ears, senses, sounds)
  {
    hide Audible, HearingCondition, IsMoreInteresting;
    result := ListenResult({}, None);
    for i := 0 to |sounds|
      invariant result == Listened(space, ears, senses, sounds[..i])
    {
      assert sounds[..i + 1][..i] == sounds[..i];
      if Audible(space, ears, senses, sounds[i]) {
        var conditions := result.conditions + HearingCondition(sounds[i].kind);
        var better := result.best.None? || IsMoreInteresting(space, ears, sounds[i], result.best.value);
        result := ListenResult(conditions, if better then Some(sounds[i]) else result.best);
      }
    }
    assert sounds[..|sounds|] == sounds;
  }

  /** The sound a monster turns to is audible; a danger is chosen whenever one
      is audible; and among its kind it is the nearest. */
  lemma {:induction false} HearsTheMostInteresting(
      space: Space, ears: Vec3, senses: Senses, sounds: seq<SoundEvent>, sound: SoundEvent)
    requires sound in sounds && Audible(space, ears, senses, sound)
    ensures var best := Listened(space, ears, senses, sounds).best;
            && best.Some? && best.value in sounds && Audible(space, ears, senses, best.value)
            && (sound.kind.DangerSound? ==> best.value.kind.DangerSound?)
            && ((sound.kind.DangerSound? <==> best.value.kind.DangerSound?) ==>
                  space.length(best.value.position.Minus(ears)) <= space.length(sound.position.Minus(ears)))
  {
    hide Audible;
    var n := |sounds| - 1;
    var earlier := sounds[..n];
    assert sounds == earlier + [sounds[n]];
    if sound in earlier {
      HearsTheMostInteresting(space, ears, senses, earlier, sound);
    }
    BestIsHeard(space, ears, senses, earlier);
  }

  lemma {:induction false} BestIsHeard(space: Space, ears: Vec3, senses: Senses, sounds: seq<SoundEvent>)
    ensures var best := Listened(space, ears, senses, sounds).best;
            best.Some? ==> best.value in sounds && Audible(space, ears, senses, best.value)
    ensures Listened(space, ears, senses, sounds).conditions <= ALL_SOUND
  {
    hide Audible, IsMoreInteresting;
    if sounds != [] {
      var n := |sounds| - 1;
      assert sounds == sounds[..n] + [sounds[n]];
      BestIsHeard(space, ears, senses, sounds[..n]);
    }
  }

  // ---- Memory ----

  datatype EnemyMemory = EnemyMemory(
    entity: Entity,
    lastKnownPosition: Vec3,
    timeSinceSeen: real,
    occluded: bool,
    lastKnownDistance: real)

  function SeenMemory(s: Sighting): EnemyMemory {
    EnemyMemory(s.entity, s.origin, 0.0, false, s.distance)
  }

  /** A memory `dt` later with the enemy out of sight. */
  function Occluded(m: EnemyMemory, dt: real, distance: Option<real>): EnemyMemory {
    m.(occluded := true, timeSinceSeen := m.timeSinceSeen + dt,
       lastKnownDistance := if distance.Some? then distance.value else m.lastKnownDistance)
  }
}

/** Squads: named groups of at most four monsters that share an enemy. */
module Squads {
  import opened Wrappers
  import opened Geometry

  const MAX_SQUAD_SIZE: nat := 4
  const MAX_SQUADS: nat := 256

  datatype Candidate = Candidate(entity: Entity, squadName: string, isLeader: bool)

  datatype Squad = Squad(
    name: string,
    leader: Entity,
    members: seq<Entity>,
    enemy: Option<Entity>,
    enemyPosition: Option<Vec3>)

  datatype Roster = Roster(squads: seq<Squad>, byName: map<string, nat>, rejected: seq<Entity>)

  const EMPTY: Roster := Roster([], map[], [])

  // ---- The roster as a value ----

  predicate Indexed(r: Roster) {
    forall name | name in r.byName :: r.byName[name] < |r.squads|
  }

  function Founded(c: Candidate): Squad {
    Squad(c.squadName, c.entity, [c.entity], None, None)
  }

  /** The roster after one candidate has offered itself. */
  function Enlisted(r: Roster, c: Candidate): Roster
    requires Indexed(r)
  {
    if c.squadName == "" then r
    else if c.squadName in r.byName then
      var index := r.byName[c.squadName];
      var squad := r.squads[index];
      if c.entity in squad.members then r
      else if |squad.members| < MAX_SQUAD_SIZE then
        r.(squads := r.squads[index := squad.(members := squad.members + [c.entity])])
      else r.(rejected := r.rejected + [c.entity])
    else if |r.squads| >= MAX_SQUADS then r.(rejected := r.rejected + [c.entity])
    else
      r.(byName := r.byName[c.squadName := |r.squads|], squads := r.squads + [Founded(c)])
  }

  /** The candidates in the order they are considered: declared leaders first. */
  function InTurn(candidates: seq<Candidate>): seq<Candidate> {
    Choose(candidates, true) + Choose(candidates, false)
  }

  function Choose(candidates: seq<Candidate>, leaders: bool): seq<Candidate> {
    if candidates == [] then []
    else
      var n := |candidates| - 1;
      Choose(candidates[..n], leaders) + if candidates[n].isLeader == leaders then [candidates[n]] else []
  }

  // ---- What the roster should be ----

  /** The distinct values of a sequence, in order of first occurrence. */
  function Uniques<T(==, !new)>(s: seq<T>): (u: seq<T>)
    ensures forall x :: x in u <==> x in s
    ensures forall i, j | 0 <= i < j < |u| :: u[i] != u[j]
  {
    if s == [] then []
    else
      var n := |s| - 1;
      var before := Uniques(s[..n]);
      assert s == s[..n] + [s[n]];
      if s[n] in before then before else before + [s[n]]
  }

  function First<T>(s: seq<T>, n: nat): seq<T> {
    if |s| <= n then s else s[..n]
  }

  /** The non-empty names on offer. */
  function NamesOn(offers: seq<Candidate>): seq<string> {
    if offers == [] then []
    else
      var n := |offers| - 1;
      NamesOn(offers[..n]) + if offers[n].squadName == "" then [] else [offers[n].squadName]
  }

  /** The monsters on offer under one name. */
  function Under(offers: seq<Candidate>, name: string): seq<Entity> {
    if offers == [] then []
    else
      var n := |offers| - 1;
      Under(offers[..n], name) + if offers[n].squadName == name then [offers[n].entity] else []
  }

  /** The names that get a squad. */
  function Tracked(offers: seq<Candidate>): seq<string> {
    First(Uniques(NamesOn(offers)), MAX_SQUADS)
  }

  /** The monsters that get into the squad of a name. */
  function Members(offers: seq<Candidate>, name: string): seq<Entity> {
    First(Uniques(Under(offers, name)), MAX_SQUAD_SIZE)
  }

  /** Whether the last of the offers gets into a squad. */
  predicate Placed(offers: seq<Candidate>, c: Candidate) {
    c.squadName in Tracked(offers) && c.entity in Members(offers, c.squadName)
  }

  function Rejected(offers: seq<Candidate>): seq<Entity> {
    if offers == [] then []
    else
      var n := |offers| - 1;
      Rejected(offers[..n])
      + if offers[n].squadName == "" || Placed(offers, offers[n]) then [] else [offers[n].entity]
  }

  /** The declarative form: each of the first 256 distinct names, with the
      first four distinct monsters on offer under it, the first of them its
      leader; the exact index of the names; and everyone who was left over. */
  ghost predicate Declares(offers: seq<Candidate>, r: Roster) {
    var names := Tracked(offers);
    && |r.squads| == |names|
    && (forall i | 0 <= i < |names| ::
          var members := Members(offers, names[i]);
          && members != []
          && r.squads[i] == Squad(names[i], members[0], members, None, None))
    && (forall name :: name in r.byName <==> name in names)
    && (forall name | name in r.byName :: r.byName[name] < |names| && names[r.byName[name]] == name)
    && r.rejected == Rejected(offers)
  }

  /** The roster after everyone has offered themselves in turn. */
  function Built(offers: seq<Candidate>): (r: Roster)
    ensures Declares(offers, r) && Indexed(r)
  {
    if offers == [] then
      NothingDeclared();
      EMPTY
    else
      var n := |offers| - 1;
      var before := Built(offers[..n]);
      assert offers == offers[..n] + [offers[n]];
      EnlistedDeclares(offers[..n], before, offers[n]);
      Enlisted(before, offers[n])
  }

  // ---- The roster as the program holds it ----

  class SquadRoster {
    var squads: seq<Squad>
    var byName: map<string, nat>
    var rejected: seq<Entity>

    function Value(): Roster
      reads this
    {
      Roster(squads, byName, rejected)
    }

    constructor ()
      ensures Value() == EMPTY
    {
      squads, byName, rejected := [], map[], [];
    }

    constructor Build(candidates: seq<Candidate>)
      ensures Value() == Built(InTurn(candidates))
      ensures Declares(InTurn(candidates), Value())
    {
      squads, byName, rejected := [], map[], [];
      new;
      hide Choose, Declares, Enlisted;
      NothingBuilt();
      for i := 0 to |candidates|
        invariant Value() == Built(Choose(candidates[..i], true))
      {
        ChooseOneMore(candidates, i, true);
        if candidates[i].isLeader {
          Enlist(candidates[i]);
          BuiltOneMore(Choose(candidates[..i], true), candidates[i]);
        } else {
          assert Choose(candidates[..i], true) + [] == Choose(candidates[..i], true);
        }
      }
      assert candidates[..|candidates|] == candidates;
      NoneChosen(candidates);
      for i := 0 to |candidates|
        invariant Value() == Built(Choose(candidates, true) + Choose(candidates[..i], false))
      {
        ChooseOneMore(candidates, i, false);
        var offers := Choose(candidates, true) + Choose(candidates[..i], false);
        if !candidates[i].isLeader {
          assert Choose(candidates, true) + (Choose(candidates[..i], false) + [candidates[i]])
              == offers + [candidates[i]];
          Enlist(candidates[i]);
          BuiltOneMore(offers, candidates[i]);
        } else {
          assert Choose(candidates[..i], false) + [] == Choose(candidates[..i], false);
        }
      }
      assert candidates[..|candidates|] == candidates;
    }

    method Enlist(candidate: Candidate)
      requires Indexed(Value())
      modifies this
      ensures Value() == Enlisted(old(Value()), candidate)
    {
      if candidate.squadName == "" {
        return;
      }
      if candidate.squadName in byName {
        var index := byName[candidate.squadName];
        var squad := squads[index];
        if candidate.entity in squad.members {
          return;
        }
        if |squad.members| < MAX_SQUAD_SIZE {
          squads := squads[index := squad.(members := squad.members + [candidate.entity])];
        } else {
          rejected := rejected + [candidate.entity];
        }
        return;
      }
      if |squads| >= MAX_SQUADS {
        rejected := rejected + [candidate.entity];
        return;
      }
      byName := byName[candidate.squadName := |squads|];
      squads := squads + [Founded(candidate)];
    }

    /** Tells the squad of `entity` about an enemy, if it has one. */
    method ShareEnemy(entity: Entity, enemy: Entity, position: Vec3) returns (shared: bool)
      modifies this`squads
      ensures shared <==> InSomeSquad(old(squads), entity)
      ensures squads == Shared(old(squads), entity, enemy, position)
    {
      var index := SquadIndex(squads, entity);
      shared := index < |squads|;
      if shared {
        var squad := squads[index];
        squads := squads[index := squad.(enemy := Some(enemy), enemyPosition := Some(position))];
      }
    }

    method ClearEnemies()
      modifies this`squads
      ensures squads == Cleared(old(squads))
    {
      for i := 0 to |squads|
        invariant |squads| == |old(squads)|
        invariant forall j | 0 <= j < i :: squads[j] == old(squads)[j].(enemy := None, enemyPosition := None)
        invariant forall j | i <= j < |squads| :: squads[j] == old(squads)[j]
      {
        squads := squads[i := squads[i].(enemy := None, enemyPosition := None)];
      }
    }
  }

  // ---- One more candidate ----

  lemma NothingDeclared()
    ensures Declares(Choose([], true), EMPTY)
  {
  }

  lemma NothingBuilt()
    ensures Built(Choose([], true)) == EMPTY
  {
  }

  lemma BuiltOneMore(offers: seq<Candidate>, c: Candidate)
    ensures Built(offers + [c]) == Enlisted(Built(offers), c)
  {
    hide Enlisted;
    assert (offers + [c])[..|offers|] == offers;
  }

  lemma ChooseOneMore(candidates: seq<Candidate>, i: nat, leaders: bool)
    requires i < |candidates|
    ensures Choose(candidates[..i + 1], leaders)
            == Choose(candidates[..i], leaders) + if candidates[i].isLeader == leaders then [candidates[i]] else []
  {
    assert candidates[..i + 1][..i] == candidates[..i];
  }

  lemma NoneChosen(candidates: seq<Candidate>)
    ensures Choose(candidates, true) + Choose(candidates[..0], false) == Choose(candidates, true)
  {
  }

  lemma NamesOnOneMore(offers: seq<Candidate>, c: Candidate)
    ensures NamesOn(offers + [c]) == NamesOn(offers) + if c.squadName == "" then [] else [c.squadName]
  {
    assert (offers + [c])[..|offers|] == offers;
  }

  lemma UnderOneMore(offers: seq<Candidate>, c: Candidate, name: string)
    ensures Under(offers + [c], name) == Under(offers, name) + if c.squadName == name then [c.entity] else []
  {
    assert (offers + [c])[..|offers|] == offers;
  }

  lemma UniquesOneMore<T(!new)>(s: seq<T>, x: T)
    ensures Uniques(s + [x]) == if x in Uniques(s) then Uniques(s) else Uniques(s) + [x]
  {
    assert (s + [x])[..|s|] == s;
  }

  lemma RejectedOneMore(offers: seq<Candidate>, c: Candidate)
    ensures Rejected(offers + [c])
            == Rejected(offers) + if c.squadName == "" || Placed(offers + [c], c) then [] else [c.entity]
  {
    hide Placed;
    assert (offers + [c])[..|offers|] == offers;
  }

  /** How the tracked names grow. */
  lemma TrackedOneMore(offers: seq<Candidate>, c: Candidate)
    ensures Tracked(offers + [c])
            == if c.squadName == "" || c.squadName in Tracked(offers) || |Tracked(offers)| >= MAX_SQUADS
               then Tracked(offers)
               else Tracked(offers) + [c.squadName]
  {
    hide NamesOn, Uniques;
    NamesOnOneMore(offers, c);
    var names := NamesOn(offers);
    assert names + [] == names;
    UniquesOneMore(names, c.squadName);
  }

  /** How the members under a name grow. */
  lemma MembersOneMore(offers: seq<Candidate>, c: Candidate, name: string)
    ensures Members(offers + [c], name)
            == if c.squadName != name || c.entity in Members(offers, name) ||
                  |Members(offers, name)| >= MAX_SQUAD_SIZE
               then Members(offers, name)
               else Members(offers, name) + [c.entity]
  {
    hide Under, Uniques;
    UnderOneMore(offers, c, name);
    var under := Under(offers, name);
    assert under + [] == under;
    UniquesOneMore(under, c.entity);
  }

  lemma NamedLast(offers: seq<Candidate>)
    requires offers != []
    ensures var c := offers[|offers| - 1]; c.squadName != "" ==> c.squadName in NamesOn(offers)
  {
    var c := offers[|offers| - 1];
    if c.squadName != "" {
      assert NamesOn(offers)[|NamesOn(offers)| - 1] == c.squadName;
    }
  }

  lemma {:induction false} UntrackedHasNoneUnder(offers: seq<Candidate>, name: string)
    requires name != "" && name !in NamesOn(offers)
    ensures Under(offers, name) == []
  {
    if offers != [] {
      var n := |offers| - 1;
      NamedLast(offers);
      assert NamesOn(offers[..n]) <= NamesOn(offers);
      UntrackedHasNoneUnder(offers[..n], name);
    }
  }

  lemma NewNameIsUnknown(offers: seq<Candidate>, name: string)
    requires name != "" && name !in Tracked(offers) && |Tracked(offers)| < MAX_SQUADS
    ensures Members(offers, name) == []
  {
    hide NamesOn, Under;
    UntrackedHasNoneUnder(offers, name);
  }

  lemma TrackedDistinct(offers: seq<Candidate>)
    ensures forall i, j | 0 <= i < j < |Tracked(offers)| :: Tracked(offers)[i] != Tracked(offers)[j]
    ensures |Tracked(offers)| <= MAX_SQUADS
  {
  }

  lemma TrackedAreNamed(offers: seq<Candidate>)
    ensures forall name | name in Tracked(offers) :: name != ""
  {
    NamesAreNamed(offers);
    forall name | name in Tracked(offers) ensures name != "" {
      assert name in Uniques(NamesOn(offers));
    }
  }

  lemma {:induction false} NamesAreNamed(offers: seq<Candidate>)
    ensures forall name | name in NamesOn(offers) :: name != ""
  {
    if offers != [] {
      NamesAreNamed(offers[..|offers| - 1]);
    }
  }

  lemma EmptyNameDeclares(offers: seq<Candidate>, r: Roster, c: Candidate)
    requires Declares(offers, r) && c.squadName == ""
    ensures Declares(offers + [c], r)
  {
    hide Tracked, Members, Rejected, Placed;
    TrackedOneMore(offers, c);
    TrackedAreNamed(offers);
    RejectedOneMore(offers, c);
    forall name | name in Tracked(offers) ensures Members(offers + [c], name) == Members(offers, name) {
      MembersOneMore(offers, c, name);
    }
  }

  lemma LeftOverOfKnownName(offers: seq<Candidate>, c: Candidate)
    requires c.squadName != "" && c.squadName in Tracked(offers)
    ensures Tracked(offers + [c]) == Tracked(offers)
    ensures Rejected(offers + [c])
            == Rejected(offers)
               + if c.entity in Members(offers, c.squadName) || |Members(offers, c.squadName)| < MAX_SQUAD_SIZE
                 then [] else [c.entity]
  {
    hide Tracked, Members, Rejected;
    TrackedOneMore(offers, c);
    MembersOneMore(offers, c, c.squadName);
    RejectedOneMore(offers, c);
  }

  lemma KnownNameDeclares(offers: seq<Candidate>, r: Roster, c: Candidate)
    requires Declares(offers, r) && c.squadName != "" && c.squadName in r.byName
    ensures Declares(offers + [c], Enlisted(r, c))
  {
    hide Tracked, Members, Rejected, Placed, Founded;
    LeftOverOfKnownName(offers, c);
    TrackedDistinct(offers);
    MembersOneMore(offers, c, c.squadName);
    OthersUnchanged(offers, c);
  }

  lemma LeftOverOfNewName(offers: seq<Candidate>, c: Candidate)
    requires c.squadName != "" && c.squadName !in Tracked(offers)
    ensures |Tracked(offers)| < MAX_SQUADS ==>
              Tracked(offers + [c]) == Tracked(offers) + [c.squadName] &&
              Members(offers + [c], c.squadName) == [c.entity] &&
              Rejected(offers + [c]) == Rejected(offers)
    ensures |Tracked(offers)| >= MAX_SQUADS ==>
              Tracked(offers + [c]) == Tracked(offers) && Rejected(offers + [c]) == Rejected(offers) + [c.entity]
  {
    hide Tracked, Members, Rejected;
    TrackedOneMore(offers, c);
    RejectedOneMore(offers, c);
    MembersOneMore(offers, c, c.squadName);
    if |Tracked(offers)| < MAX_SQUADS {
      NewNameIsUnknown(offers, c.squadName);
      assert Rejected(offers) + [] == Rejected(offers);
    }
  }

  lemma OthersUnchanged(offers: seq<Candidate>, c: Candidate)
    ensures forall name | name in Tracked(offers) && name != c.squadName ::
              Members(offers + [c], name) == Members(offers, name)
  {
    hide Tracked, Members;
    forall name | name in Tracked(offers) && name != c.squadName
      ensures Members(offers + [c], name) == Members(offers, name)
    {
      MembersOneMore(offers, c, name);
    }
  }

  lemma NewNameDeclares(offers: seq<Candidate>, r: Roster, c: Candidate)
    requires Declares(offers, r) && c.squadName != "" && c.squadName !in r.byName
    ensures Declares(offers + [c], Enlisted(r, c))
  {
    hide Tracked, Members, Rejected, Placed;
    LeftOverOfNewName(offers, c);
    OthersUnchanged(offers, c);
  }

  lemma EnlistedDeclares(offers: seq<Candidate>, r: Roster, c: Candidate)
    requires Declares(offers, r)
    ensures Indexed(r) && Declares(offers + [c], Enlisted(r, c))
  {
    hide Tracked, Members, Rejected;
    if c.squadName == "" {
      EmptyNameDeclares(offers, r, c);
    } else if c.squadName in r.byName {
      KnownNameDeclares(offers, r, c);
    } else {
      NewNameDeclares(offers, r, c);
    }
  }

  // ---- Sharing an enemy ----

  /** The first squad that has the monster; the number of squads if none has. */
  function SquadIndex(squads: seq<Squad>, entity: Entity): (i: nat)
    ensures i <= |squads|
    ensures i < |squads| ==> entity in squads[i].members
    ensures forall j | 0 <= j < i :: entity !in squads[j].members
  {
    if squads == [] || entity in squads[0].members then 0 else 1 + SquadIndex(squads[1..], entity)
  }

  predicate InSomeSquad(squads: seq<Squad>, entity: Entity) {
    exists s | s in squads :: entity in s.members
  }

  function Shared(squads: seq<Squad>, entity: Entity, enemy: Entity, position: Vec3): seq<Squad> {
    var i := SquadIndex(squads, entity);
    if i == |squads| then squads
    else squads[i := squads[i].(enemy := Some(enemy), enemyPosition := Some(position))]
  }

  function SharedEnemy(squads: seq<Squad>, entity: Entity): Option<(Entity, Vec3)> {
    var i := SquadIndex(squads, entity);
    if i == |squads| || squads[i].enemy.None? then None
    else Some((squads[i].enemy.value, if squads[i].enemyPosition.Some? then squads[i].enemyPosition.value else ZERO))
  }

  function Cleared(squads: seq<Squad>): seq<Squad> {
    seq(|squads|, i requires 0 <= i < |squads| => squads[i].(enemy := None, enemyPosition := None))
  }

  ghost predicate SameMembers(a: seq<Squad>, b: seq<Squad>) {
    |a| == |b| && forall i | 0 <= i < |a| :: a[i].members == b[i].members
  }

  lemma {:induction false} SameSquadIndex(a: seq<Squad>, b: seq<Squad>, entity: Entity)
    requires SameMembers(a, b)
    ensures SquadIndex(a, entity) == SquadIndex(b, entity)
  {
    if a != [] {
      SameSquadIndex(a[1..], b[1..], entity);
    }
  }

  /** What is shared reaches exactly the monsters of the same squad. */
  lemma SharingReachesTheSquad(squads: seq<Squad>, entity: Entity, enemy: Entity, position: Vec3, other: Entity)
    ensures SharedEnemy(Shared(squads, entity, enemy, position), other)
            == if InSomeSquad(squads, entity) && SquadIndex(squads, other) == SquadIndex(squads, entity)
               then Some((enemy, position))
               else SharedEnemy(squads, other)
    ensures SquadIndex(Shared(squads, entity, enemy, position), other) == SquadIndex(squads, other)
  {
    SameSquadIndex(squads, Shared(squads, entity, enemy, position), other);
  }

  /** Clearing forgets every shared enemy and keeps who is with whom. */
  lemma ClearingForgets(squads: seq<Squad>, other: Entity)
    ensures SharedEnemy(Cleared(squads), other) == None
    ensures SquadIndex(Cleared(squads), other) == SquadIndex(squads, other)
  {
    SameSquadIndex(squads, Cleared(squads), other);
  }

  // ---- What a built roster promises ----

  lemma {:induction false} OfferedUnderItsName(offers: seq<Candidate>, c: Candidate)
    requires c in offers && c.squadName != ""
    ensures c.squadName in NamesOn(offers) && c.entity in Under(offers, c.squadName)
  {
    var n := |offers| - 1;
    if offers[n] == c {
      assert NamesOn(offers)[|NamesOn(offers)| - 1] == c.squadName;
      assert Under(offers, c.squadName)[|Under(offers, c.squadName)| - 1] == c.entity;
    } else {
      assert offers == offers[..n] + [offers[n]];
      OfferedUnderItsName(offers[..n], c);
      assert forall x | x in NamesOn(offers[..n]) :: x in NamesOn(offers);
      assert forall x | x in Under(offers[..n], c.squadName) :: x in Under(offers, c.squadName);
    }
  }

  /** A place in a squad, once had or missed, does not change later. */
  lemma PlaceIsSettled(offers: seq<Candidate>, c: Candidate, later: Candidate)
    requires c in offers && c.squadName != ""
    ensures Placed(offers + [later], c) <==> Placed(offers, c)
  {
    hide NamesOn, Under;
    OfferedUnderItsName(offers, c);
    TrackedOneMore(offers, later);
    MembersOneMore(offers, later, c.squadName);
  }

  /** The left-over monsters are exactly those of the candidates that have no
      place in the squad they asked for. */
  lemma {:induction false} RejectedExactly(offers: seq<Candidate>, entity: Entity)
    ensures entity in Rejected(offers) <==>
              exists c | c in offers :: c.squadName != "" && c.entity == entity && !Placed(offers, c)
  {
    hide Placed;
    if offers != [] {
      var n := |offers| - 1;
      var earlier, last := offers[..n], offers[n];
      assert offers == earlier + [last];
      RejectedOneMore(earlier, last);
      RejectedExactly(earlier, entity);
      forall c | c in earlier && c.squadName != "" ensures Placed(offers, c) <==> Placed(earlier, c) {
        PlaceIsSettled(earlier, c, last);
      }
    }
  }

  lemma {:induction false} ChooseKeeps(candidates: seq<Candidate>, leaders: bool)
    ensures forall c :: c in Choose(candidates, leaders) <==> c in candidates && c.isLeader == leaders
  {
    if candidates != [] {
      var n := |candidates| - 1;
      ChooseKeeps(candidates[..n], leaders);
      assert candidates == candidates[..n] + [candidates[n]];
    }
  }

  /** In a built roster every named candidate is in the squad of its name,
      found through the index, or is among the rejected. */
  lemma EveryoneIsPlacedOrRejected(candidates: seq<Candidate>, r: Roster, c: Candidate)
    requires Declares(InTurn(candidates), r) && c in candidates && c.squadName != ""
    ensures (c.squadName in r.byName && r.byName[c.squadName] < |r.squads| &&
             r.squads[r.byName[c.squadName]].name == c.squadName &&
             c.entity in r.squads[r.byName[c.squadName]].members)
            || c.entity in r.rejected
  {
    hide Choose, Tracked, Members, Rejected;
    var offers := InTurn(candidates);
    ChooseKeeps(candidates, true);
    ChooseKeeps(candidates, false);
    RejectedExactly(offers, c.entity);
  }

  /** Someone who got a place under a name when no other candidate bears the
      same monster is not also rejected: the two are exclusive. */
  lemma PlacedIsNotRejected(candidates: seq<Candidate>, r: Roster, c: Candidate)
    requires Declares(InTurn(candidates), r) && c in candidates && c.squadName != ""
    requires forall d | d in candidates && d.entity == c.entity :: d == c
    ensures c.entity in r.rejected <==> !Placed(InTurn(candidates), c)
  {
    hide Choose, Placed, Rejected;
    ChooseKeeps(candidates, true);
    ChooseKeeps(candidates, false);
    RejectedExactly(InTurn(candidates), c.entity);
  }

  /** A squad is led by a declared leader whenever one asked for its name. */
  lemma DeclaredLeaderLeads(candidates: seq<Candidate>, r: Roster, c: Candidate, name: string)
    requires Declares(InTurn(candidates), r) && name in r.byName
    requires c in candidates && c.isLeader && c.squadName == name
    ensures exists leader | leader in candidates ::
              leader.isLeader && leader.squadName == name &&
              leader.entity == r.squads[r.byName[name]].leader
  {
    hide Choose, Tracked;
    var leaders, rest := Choose(candidates, true), Choose(candidates, false);
    ChooseKeeps(candidates, true);
    TrackedAreNamed(InTurn(candidates));
    UnderOfLeaders(leaders, rest, name, c);
    var first := Under(leaders, name)[0];
    UniquesStart(Under(InTurn(candidates), name));
    FoundUnder(leaders, name, first);
    var leader :| leader in leaders && leader.squadName == name && leader.entity == first;
    assert leader in candidates;
  }

  lemma UniquesStart<T(!new)>(s: seq<T>)
    requires s != []
    ensures Uniques(s) != [] && Uniques(s)[0] == s[0]
  {
    if |s| == 1 {
      assert s[..0] == [];
    } else {
      UniquesStart(s[..|s| - 1]);
    }
  }

  lemma {:induction false} UnderSplits(a: seq<Candidate>, b: seq<Candidate>, name: string)
    ensures Under(a + b, name) == Under(a, name) + Under(b, name)
  {
    if b == [] {
      assert a + b == a;
    } else {
      var n := |b| - 1;
      UnderSplits(a, b[..n], name);
      assert (a + b)[..|a + b| - 1] == a + b[..n];
    }
  }

  lemma UnderOfLeaders(leaders: seq<Candidate>, rest: seq<Candidate>, name: string, c: Candidate)
    requires c in leaders && c.squadName == name && name != ""
    ensures Under(leaders, name) != [] && Under(leaders + rest, name) != []
    ensures Under(leaders + rest, name)[0] == Under(leaders, name)[0]
  {
    OfferedUnderItsName(leaders, c);
    UnderSplits(leaders, rest, name);
  }

  lemma {:induction false} FoundUnder(offers: seq<Candidate>, name: string, entity: Entity)
    requires entity in Under(offers, name)
    ensures exists c | c in offers :: c.squadName == name && c.entity == entity
  {
    var n := |offers| - 1;
    if offers[n].squadName == name && offers[n].entity == entity {
      assert offers[n] in offers;
    } else {
      FoundUnder(offers[..n], name, entity);
      var c :| c in offers[..n] && c.squadName == name && c.entity == entity;
      assert c in offers;
    }
  }
}

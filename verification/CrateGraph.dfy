/** The policy on which crate may depend on which. */
module CrateGraph {
  /** The crates of the table, and any other. */
  datatype Crate =
    | Core | ParserProtocol | ParserWorkerService | ParserWorker | ParserBackends | MediaArchive | Iso9660
    | Udf | Mscab | CabinetFormat | Isz | Wise | Cabinet | Platform | TestWorker | Vfs | Media | Payload
    | Import | Formats | Assets | World | Physics | Nav | Render | Audio | Save | Input | Game | Campaign | Ai
    | Combat | Ui | Engine | Gameplay | Player | App
    | Other(name: string)

  /** The crates a crate of the table may depend on directly. */
  function Allowed(c: Crate): seq<Crate> {
    match c
    case Core => []
    case ParserProtocol => [Core]
    case ParserWorkerService => [ParserProtocol]
    case ParserWorker => [ParserWorkerService]
    case ParserBackends => [Core, ParserProtocol, ParserWorkerService, Payload, Wise, Mscab, Isz]
    case MediaArchive => [Core]
    case Iso9660 => [Core, MediaArchive]
    case Udf => [Core, MediaArchive]
    case Mscab => [Core]
    case CabinetFormat => [Core]
    case Isz => [Core]
    case Wise => [Core]
    case Cabinet => [CabinetFormat]
    case Platform => [Core]
    case TestWorker => []
    case Vfs => [Core, Platform, MediaArchive, Iso9660, Udf]
    case Media => [Platform, Core]
    case Payload => [Core, Platform]
    case Import => [Core, Media, Payload, Vfs, ParserProtocol, Platform, Wise]
    case Formats => [Core]
    case Assets => [Core, Formats]
    case World => [Formats, Vfs]
    case Physics => [Core, Formats, Vfs]
    case Nav => [Core, Physics, Formats]
    case Render => [Core, World]
    case Audio => [Core]
    case Save => [Core]
    case Input => [Core]
    case Game => [Core, Formats, World]
    case Campaign => [Core]
    case Ai => [Core, Physics, World, Game, Nav]
    case Combat => [Core, Physics, World, Game]
    case Ui => [Core]
    case Engine =>
      [Core, World, Render, Physics, Game, Assets, Formats, Campaign, Audio, Ui, Save, Combat, Ai, Nav, Gameplay,
       Player]
    case Gameplay => [Core, Combat, Game, Ui, Audio]
    case Player => [Core, Physics, Game, Save, Ui]
    case App => []
    case Other(_) => []
  }

  predicate IsKnown(c: Crate) {
    !c.Other?
  }

  /** The rule for one edge: the composition root may depend on every other
      crate of the table, and everyone else on what its row lists. */
  predicate Permits(from: Crate, to: Crate) {
    if from.App? then to != from && IsKnown(to) else to in Allowed(from)
  }

  datatype Violation = DisallowedEdge(from: Crate, to: Crate) | UnknownCrate(crate: Crate)

  /** The direct dependencies of each crate that was found. */
  type Dependencies = map<Crate, seq<Crate>>

  function EdgeViolations(from: Crate, deps: seq<Crate>): seq<Violation> {
    if deps == [] then []
    else
      var n := |deps| - 1;
      EdgeViolations(from, deps[..n]) + if Permits(from, deps[n]) then [] else [DisallowedEdge(from, deps[n])]
  }

  function CrateViolations(c: Crate, deps: seq<Crate>): seq<Violation> {
    if !IsKnown(c) then [UnknownCrate(c)] else EdgeViolations(c, deps)
  }

  /** The violations of the crates listed, in order. */
  function Violations(listed: seq<Crate>, dependencies: Dependencies): seq<Violation>
    requires forall c | c in listed :: c in dependencies
  {
    if listed == [] then []
    else
      var n := |listed| - 1;
      assert listed[n] in listed;
      Violations(listed[..n], dependencies) + CrateViolations(listed[n], dependencies[listed[n]])
  }

  method CheckEdges(listed: seq<Crate>, dependencies: Dependencies) returns (violations: seq<Violation>)
    requires forall c :: c in listed <==> c in dependencies
    ensures violations == Violations(listed, dependencies)
  {
    hide Permits, IsKnown;
    violations := [];
    for i := 0 to |listed|
      invariant violations == Violations(listed[..i], dependencies)
    {
      assert listed[..i + 1][..i] == listed[..i] && listed[i] in listed;
      var c := listed[i];
      var deps := dependencies[c];
      ghost var before := violations;
      if !IsKnown(c) {
        violations := violations + [UnknownCrate(c)];
        continue;
      }
      for j := 0 to |deps|
        invariant violations == before + EdgeViolations(c, deps[..j])
      {
        assert deps[..j + 1][..j] == deps[..j];
        if !Permits(c, deps[j]) {
          violations := violations + [DisallowedEdge(c, deps[j])];
        }
      }
      assert deps[..|deps|] == deps;
    }
    assert listed[..|listed|] == listed;
  }

  // ---- What is reported ----

  lemma {:induction false} EdgeViolationsExactly(from: Crate, deps: seq<Crate>, v: Violation)
    ensures v in EdgeViolations(from, deps) <==>
              v.DisallowedEdge? && v.from == from && v.to in deps && !Permits(from, v.to)
  {
    hide Permits;
    if deps != [] {
      var n := |deps| - 1;
      assert deps == deps[..n] + [deps[n]];
      EdgeViolationsExactly(from, deps[..n], v);
    }
  }

  ghost predicate Offends(dependencies: Dependencies, v: Violation) {
    match v
    case UnknownCrate(c) => c in dependencies && !IsKnown(c)
    case DisallowedEdge(from, to) =>
      from in dependencies && IsKnown(from) && to in dependencies[from] && !Permits(from, to)
  }

  lemma {:induction false} ListedExactly(listed: seq<Crate>, dependencies: Dependencies, v: Violation)
    requires forall c | c in listed :: c in dependencies
    ensures v in Violations(listed, dependencies) <==>
              Offends(dependencies, v) && (if v.UnknownCrate? then v.crate else v.from) in listed
  {
    hide Permits, IsKnown, EdgeViolations;
    if listed != [] {
      var n := |listed| - 1;
      assert listed == listed[..n] + [listed[n]];
      assert listed[n] in listed;
      ListedExactly(listed[..n], dependencies, v);
      EdgeViolationsExactly(listed[n], dependencies[listed[n]], v);
    }
  }

  /** The report is exactly the unknown crates and the edges that are not
      permitted. */
  lemma ReportIsExact(listed: seq<Crate>, dependencies: Dependencies, v: Violation)
    requires forall c :: c in listed <==> c in dependencies
    ensures v in Violations(listed, dependencies) <==> Offends(dependencies, v)
  {
    hide Permits, IsKnown, Violations;
    ListedExactly(listed, dependencies, v);
  }

  // ---- What a clean report means ----

  /** A height that every permitted edge goes down. */
  function Height(c: Crate): nat {
    match c
    case Core => 0
    case ParserProtocol => 1
    case ParserWorkerService => 2
    case ParserWorker => 3
    case ParserBackends => 3
    case MediaArchive => 1
    case Iso9660 => 2
    case Udf => 2
    case Mscab => 1
    case CabinetFormat => 1
    case Isz => 1
    case Wise => 1
    case Cabinet => 2
    case Platform => 1
    case TestWorker => 0
    case Vfs => 3
    case Media => 2
    case Payload => 2
    case Import => 4
    case Formats => 1
    case Assets => 2
    case World => 4
    case Physics => 4
    case Nav => 5
    case Render => 5
    case Audio => 1
    case Save => 1
    case Input => 1
    case Game => 5
    case Campaign => 1
    case Ai => 6
    case Combat => 6
    case Ui => 1
    case Engine => 8
    case Gameplay => 7
    case Player => 6
    case App => 9
    case Other(_) => 0
  }

  lemma AllowedGoesDown(from: Crate, i: nat)
    requires i < |Allowed(from)|
    ensures Height(Allowed(from)[i]) < Height(from) && IsKnown(Allowed(from)[i])
  {
  }

  lemma AppIsHighest(c: Crate)
    ensures c != App ==> Height(c) < Height(App)
  {
  }

  lemma PermittedGoesDown(from: Crate, to: Crate)
    requires Permits(from, to)
    ensures Height(to) < Height(from) && IsKnown(to)
  {
    hide Height, Allowed;
    if from.App? {
      AppIsHighest(to);
    } else {
      var i :| 0 <= i < |Allowed(from)| && Allowed(from)[i] == to;
      AllowedGoesDown(from, i);
    }
  }

  predicate DependsOn(dependencies: Dependencies, from: Crate, to: Crate) {
    from in dependencies && to in dependencies[from]
  }

  /** A chain of at least one direct dependency. */
  ghost predicate Path(dependencies: Dependencies, path: seq<Crate>) {
    |path| >= 2 && forall i | 0 < i < |path| :: DependsOn(dependencies, path[i - 1], path[i])
  }

  /** A chain of edges that the table permits. */
  ghost predicate PermittedPath(path: seq<Crate>) {
    |path| >= 2 && forall i | 0 < i < |path| :: Permits(path[i - 1], path[i])
  }

  lemma CleanIsPermitted(listed: seq<Crate>, dependencies: Dependencies, from: Crate, to: Crate)
    requires forall c :: c in listed <==> c in dependencies
    requires Violations(listed, dependencies) == [] && DependsOn(dependencies, from, to)
    ensures Permits(from, to)
  {
    hide Permits, Violations;
    ReportIsExact(listed, dependencies, UnknownCrate(from));
    ReportIsExact(listed, dependencies, DisallowedEdge(from, to));
  }

  lemma {:induction false} PermittedPathGoesDown(path: seq<Crate>)
    requires PermittedPath(path)
    ensures Height(path[|path| - 1]) < Height(path[0])
  {
    hide Permits, Height;
    var n := |path| - 1;
    PermittedGoesDown(path[n - 1], path[n]);
    if n > 1 {
      PermittedPathGoesDown(path[..n]);
    }
  }

  /** When nothing is reported, the dependencies have no cycle, and every crate
      reaches only what the table permits it to reach, all of it known. */
  lemma CleanIsAcyclic(listed: seq<Crate>, dependencies: Dependencies, path: seq<Crate>)
    requires forall c :: c in listed <==> c in dependencies
    requires Violations(listed, dependencies) == [] && Path(dependencies, path)
    ensures path[0] != path[|path| - 1]
    ensures PermittedPath(path) && forall i | 0 < i < |path| :: IsKnown(path[i])
  {
    hide Permits, Violations, Height, IsKnown, DependsOn;
    forall i | 0 < i < |path| ensures Permits(path[i - 1], path[i]) && IsKnown(path[i]) {
      CleanIsPermitted(listed, dependencies, path[i - 1], path[i]);
      PermittedGoesDown(path[i - 1], path[i]);
    }
    PermittedPathGoesDown(path);
  }

  /** Only the composition root may depend on the engine, and, although it is
      meant for development alone, on the test worker. */
  lemma OnlyTheRoot(from: Crate)
    ensures Permits(from, Engine) <==> from == App
    ensures Permits(from, TestWorker) <==> from == App
  {
  }
}

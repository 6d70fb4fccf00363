/** A monster maker: when it spawns, and how many. */
module Spawners {
  import opened Wrappers
  import opened Geometry
  import opened Steps

  /** What the map says of a maker: how many it will ever make (negative for
      without limit), how far apart, and how many may live at once (zero for
      any number). */
  datatype Def = Def(monsterCount: int, delay: real, maxLive: nat)

  datatype Spawner = Spawner(def: Def, active: bool, spawned: nat, timer: real, children: seq<Entity>)

  function Fresh(def: Def, startOn: bool): Spawner {
    Spawner(def.(delay := AtLeastZero(def.delay)), startOn, 0, 0.0, [])
  }

  predicate Exhausted(s: Spawner) {
    s.def.monsterCount >= 0 && s.spawned >= s.def.monsterCount
  }

  predicate HasRoom(s: Spawner) {
    s.def.maxLive == 0 || |s.children| < s.def.maxLive
  }

  function Triggered(s: Spawner): Spawner {
    if s.active then s.(active := false) else s.(active := true, timer := 0.0)
  }

  /** The children that are still alive, in order. */
  function Living(children: seq<Entity>, alive: set<Entity>): seq<Entity> {
    if children == [] then []
    else
      var n := |children| - 1;
      Living(children[..n], alive) + if children[n] in alive then [children[n]] else []
  }

  function Ticked(s: Spawner, dt: real, alive: set<Entity>): (Spawner, bool) {
    var pruned := s.(children := Living(s.children, alive));
    if !s.active then (pruned, false)
    else if Exhausted(s) then (pruned.(active := false), false)
    else if !HasRoom(pruned) then (pruned, false)
    else
      var timer := s.timer - AtLeastZero(dt);
      if timer > 0.0 then (pruned.(timer := timer), false) else (pruned.(timer := s.def.delay), true)
  }

  function Noted(s: Spawner, child: Entity): Spawner {
    var noted := s.(spawned := s.spawned + 1, children := s.children + [child]);
    if Exhausted(noted) then noted.(active := false) else noted
  }

  function Restored(s: Spawner, spawned: nat, active: bool, timer: real): Spawner {
    s.(spawned := if s.def.monsterCount >= 0 && s.def.monsterCount < spawned then s.def.monsterCount else spawned,
       active := active, timer := AtLeastZero(timer))
  }

  // ---- The maker as the program holds it ----

  class MonsterMaker {
    const def: Def
    var active: bool
    var spawned: nat
    var timer: real
    var children: seq<Entity>

    function Value(): Spawner
      reads this
    {
      Spawner(def, active, spawned, timer, children)
    }

    constructor (def: Def, startOn: bool)
      ensures Value() == Fresh(def, startOn)
    {
      this.def := def.(delay := AtLeastZero(def.delay));
      active, spawned, timer, children := startOn, 0, 0.0, [];
    }

    method Trigger()
      modifies this`active, this`timer
      ensures Value() == Triggered(old(Value()))
    {
      active := !active;
      if active {
        timer := 0.0;
      }
    }

    function Remaining(): (left: Option<nat>)
      reads this
      ensures left == Some(0) <==> Exhausted(Value())
      ensures left.None? <==> def.monsterCount < 0
      ensures left.Some? && left.value > 0 ==> spawned + left.value == def.monsterCount
    {
      if def.monsterCount < 0 then None
      else if def.monsterCount < spawned then Some(0)
      else Some(def.monsterCount - spawned)
    }

    method PruneDead(alive: set<Entity>)
      modifies this`children
      ensures children == Living(old(children), alive)
    {
      var kept := [];
      for i := 0 to |children|
        invariant kept == Living(children[..i], alive)
      {
        assert children[..i + 1][..i] == children[..i];
        if children[i] in alive {
          kept := kept + [children[i]];
        }
      }
      assert children[..|children|] == children;
      children := kept;
    }

    method Tick(dt: real, alive: set<Entity>) returns (spawns: bool)
      modifies this
      ensures (Value(), spawns) == Ticked(old(Value()), dt, alive)
    {
      PruneDead(alive);
      if !active {
        return false;
      }
      if Remaining() == Some(0) {
        active := false;
        return false;
      }
      if !(def.maxLive == 0 || |children| < def.maxLive) {
        return false;
      }
      timer := timer - if dt > 0.0 then dt else 0.0;
      if timer > 0.0 {
        return false;
      }
      timer := def.delay;
      spawns := true;
    }

    method NoteSpawned(child: Entity)
      modifies this
      ensures Value() == Noted(old(Value()), child)
    {
      spawned := spawned + 1;
      children := children + [child];
      if Remaining() == Some(0) {
        active := false;
      }
    }

    method RestoreCounters(spawned: nat, active: bool, timer: real)
      modifies this`spawned, this`active, this`timer
      ensures Value() == Restored(old(Value()), spawned, active, timer)
    {
      this.spawned := if def.monsterCount >= 0 && def.monsterCount < spawned then def.monsterCount else spawned;
      this.active := active;
      this.timer := if timer > 0.0 then timer else 0.0;
    }
  }

  // ---- Runs ----

  /** What may happen to a maker: an activation; or a round of the simulation
      in which some entities are alive, with the entity that is created should
      the maker spawn. */
  datatype Move = Trigger | Round(dt: real, alive: set<Entity>, next: Entity)

  /** A run so far, with every entity it spawned, the times between the spawns
      of each active stretch, and for the stretch that is going on whether it
      has spawned and the time ticked since. */
  datatype Log = Log(
    spawner: Spawner,
    spawns: seq<Entity>,
    gaps: seq<real>,
    hasSpawned: bool,
    since: real)

  function AfterTrigger(log: Log): Log {
    log.(spawner := Triggered(log.spawner), hasSpawned := false, since := 0.0)
  }

  function AfterRound(log: Log, dt: real, alive: set<Entity>, next: Entity): Log {
    var (ticked, spawns) := Ticked(log.spawner, dt, alive);
    var since := log.since + AtLeastZero(dt);
    if !spawns then log.(spawner := ticked, since := since)
    else
      Log(Noted(ticked, next), log.spawns + [next],
          if log.hasSpawned then log.gaps + [since] else log.gaps, true, 0.0)
  }

  function RunOf(def: Def, startOn: bool, moves: seq<Move>): Log {
    if moves == [] then Log(Fresh(def, startOn), [], [], false, 0.0)
    else
      var n := |moves| - 1;
      var before := RunOf(def, startOn, moves[..n]);
      match moves[n]
      case Trigger => AfterTrigger(before)
      case Round(dt, alive, next) => AfterRound(before, dt, alive, next)
  }

  ghost predicate WithinQuota(log: Log) {
    && log.spawner.spawned == |log.spawns|
    && (log.spawner.def.monsterCount >= 0 ==> |log.spawns| <= log.spawner.def.monsterCount)
  }

  ghost predicate WithinCap(log: Log) {
    && (log.spawner.def.maxLive > 0 ==> |log.spawner.children| <= log.spawner.def.maxLive)
    && (forall c | c in log.spawner.children :: c in log.spawns)
  }

  ghost predicate Paced(log: Log) {
    && (forall g | g in log.gaps :: g >= log.spawner.def.delay)
    && log.spawner.def.delay >= 0.0
    && (log.hasSpawned ==> log.spawner.timer >= log.spawner.def.delay - log.since)
  }

  ghost predicate Inv(log: Log) {
    WithinQuota(log) && WithinCap(log) && Paced(log)
  }

  lemma {:induction false} LivingAreAmong(children: seq<Entity>, alive: set<Entity>)
    ensures |Living(children, alive)| <= |children|
    ensures forall c :: c in Living(children, alive) <==> c in children && c in alive
  {
    if children != [] {
      var n := |children| - 1;
      LivingAreAmong(children[..n], alive);
      assert children == children[..n] + [children[n]];
    }
  }

  lemma RoundKeepsInv(log: Log, dt: real, alive: set<Entity>, next: Entity)
    requires Inv(log)
    ensures Inv(AfterRound(log, dt, alive, next))
  {
    hide Living;
    LivingAreAmong(log.spawner.children, alive);
    var after := AfterRound(log, dt, alive, next);
    assert forall g | g in after.gaps :: g in log.gaps || g == log.since + AtLeastZero(dt);
  }

  /** Under any triggers, deaths and steps of time a maker stays within its
      lifetime quota and its cap on living children, counts every spawn, and
      within one active stretch spawns at least its delay apart. */
  lemma {:induction false} EveryRunKeepsInv(def: Def, startOn: bool, moves: seq<Move>)
    ensures Inv(RunOf(def, startOn, moves))
    ensures RunOf(def, startOn, moves).spawner.def == def.(delay := AtLeastZero(def.delay))
  {
    hide Living;
    if moves != [] {
      var n := |moves| - 1;
      var before := RunOf(def, startOn, moves[..n]);
      EveryRunKeepsInv(def, startOn, moves[..n]);
      match moves[n]
      case Trigger =>
      case Round(dt, alive, next) => RoundKeepsInv(before, dt, alive, next);
    }
  }

  /** A maker whose quota is used up never spawns again, however often it is
      triggered. */
  lemma {:induction false} ExhaustedForGood(def: Def, startOn: bool, moves: seq<Move>, later: seq<Move>)
    requires Exhausted(RunOf(def, startOn, moves).spawner)
    ensures Exhausted(RunOf(def, startOn, moves + later).spawner)
    ensures RunOf(def, startOn, moves + later).spawns == RunOf(def, startOn, moves).spawns
  {
    hide Living;
    if later == [] {
      assert moves + later == moves;
    } else {
      var n := |later| - 1;
      ExhaustedForGood(def, startOn, moves, later[..n]);
      assert (moves + later)[..|moves + later| - 1] == moves + later[..n];
    }
  }

  // ---- How far apart its spawns are ----

  /** A maker that may spawn and is ticked steadily, `n` ticks on. */
  function TickedTimes(s: Spawner, dt: real, alive: set<Entity>, n: nat): Spawner {
    if n == 0 then s else Ticked(TickedTimes(s, dt, alive, n - 1), dt, alive).0
  }

  ghost predicate MaySpawn(s: Spawner, alive: set<Entity>) {
    s.active && !Exhausted(s) && HasRoom(s) && Living(s.children, alive) == s.children
  }

  lemma {:induction false} TimerRunsDown(s: Spawner, dt: real, alive: set<Entity>, n: nat)
    requires MaySpawn(s, alive) && s.timer == s.def.delay && dt > 0.0
    requires n < StepsToCover(s.def.delay, dt)
    ensures TickedTimes(s, dt, alive, n) == s.(timer := s.def.delay - n as real * dt)
    ensures n > 0 ==> n as real * dt < s.def.delay
  {
    hide StepsToCover, Living;
    if n > 0 {
      BeforeTheLast(n, s.def.delay, dt);
      TimerRunsDown(s, dt, alive, n - 1);
      OneMoreStep(n - 1, dt);
    }
  }

  lemma SpawnsWhenTimeIsUp(s: Spawner, timer: real, dt: real, alive: set<Entity>)
    requires MaySpawn(s, alive) && dt > 0.0
    ensures Ticked(s.(timer := timer), dt, alive).1 <==> timer - dt <= 0.0
  {
    hide Living;
  }

  /** With room, quota and a steady step, the next spawn comes after exactly
      max(1, ceil(delay / dt)) ticks. */
  lemma SpawnsExactlyOnTime(s: Spawner, dt: real, alive: set<Entity>, n: nat)
    requires MaySpawn(s, alive) && s.timer == s.def.delay && dt > 0.0
    requires 1 <= n <= StepsToCover(s.def.delay, dt)
    ensures Ticked(TickedTimes(s, dt, alive, n - 1), dt, alive).1 <==> n == StepsToCover(s.def.delay, dt)
  {
    hide StepsToCover, Living, Ticked, TickedTimes;
    TimerRunsDown(s, dt, alive, n - 1);
    SpawnsWhenTimeIsUp(s, s.def.delay - (n - 1) as real * dt, dt, alive);
    OneMoreStep(n - 1, dt);
    if n < StepsToCover(s.def.delay, dt) {
      BeforeTheLast(n, s.def.delay, dt);
    } else {
      StepsCover(s.def.delay, dt);
    }
  }

  /** Restoring a save cannot take a maker past its quota. */
  lemma RestoredWithinQuota(s: Spawner, spawned: nat, active: bool, timer: real)
    ensures var r := Restored(s, spawned, active, timer);
            && (s.def.monsterCount >= 0 ==> r.spawned <= s.def.monsterCount)
            && (s.def.monsterCount < 0 || spawned <= s.def.monsterCount ==> r.spawned == spawned)
            && r.timer >= 0.0 && r.children == s.children
  {
  }
}

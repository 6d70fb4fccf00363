/** Tasks, schedules and the runner that takes a monster through them. */
module Schedules {
  import opened Wrappers
  import opened MonsterStates
  import Pcg32
  import opened Steps

  datatype Activity =
    | Idling | Alerted | Walking | Running | Crouching | Threatening | Swinging | Firing | Reloading
    | Flinching | Covering | Dying

  datatype SoundKind = CombatSound | DangerSound | WorldSound | PlayerSound | Carcass | Meat | Garbage

  datatype Task =
    | Wait(seconds: real)
    | WaitRandom(min: real, max: real)
    | WaitForMovement
    | FaceEnemy
    | FaceTarget
    | FaceLastKnownPosition
    | MoveToEnemy(within: real)
    | MoveToTarget(within: real)
    | MoveToLastKnownPosition
    | MoveToNode(node: nat)
    | RunPath
    | WalkPath
    | StopMoving
    | PlaySequence(sequence: string)
    | SetActivity(activity: Activity)
    | FindCover
    | TakeCover
    | MeleeAttack1
    | MeleeAttack2
    | RangeAttack1
    | RangeAttack2
    | Reload
    | EmitSound(kind: SoundKind, radius: real)
    | SetState(state: MonsterState)
    | ClearEnemy
    | Die
    | Fail
    | Wander(distance: real)
  {
    predicate IsTiming() {
      Wait? || WaitRandom?
    }

    predicate Attacks() {
      MeleeAttack1? || MeleeAttack2? || RangeAttack1? || RangeAttack2?
    }
  }

  datatype Schedule = Schedule(name: string, tasks: seq<Task>, interruptMask: Conditions)

  datatype TaskStatus = Ongoing | Complete | Failed

  datatype RunOutcome = StillRunning | Advanced | Interrupted | Done | GaveUp | Nothing {
    predicate NeedsNewSchedule() {
      Interrupted? || Done? || GaveUp? || Nothing?
    }

    /** What this outcome adds to the conditions. */
    function Adds(): Conditions {
      match this
      case Done => {ScheduleDone}
      case GaveUp => {TaskFailed}
      case _ => {}
    }
  }

  // ---- The runner as a value ----

  datatype Runner = Runner(schedule: Option<Schedule>, taskIndex: nat, started: bool, timer: real)

  const CLEARED: Runner := Runner(None, 0, false, 0.0)

  function Begun(schedule: Schedule): Runner {
    Runner(Some(schedule), 0, false, 0.0)
  }

  function Min(a: nat, b: nat): nat {
    if a < b then a else b
  }

  /** A runner rebuilt from a save, through the lookup of schedules by name. */
  function Restored(lookup: string -> Option<Schedule>, name: string, taskIndex: nat, started: bool, timer: real)
    : Runner
  {
    match lookup(name)
    case None => CLEARED
    case Some(schedule) =>
      var last := if |schedule.tasks| == 0 then 0 else |schedule.tasks| - 1;
      Runner(Some(schedule), Min(taskIndex, last), started, AtLeastZero(timer))
  }

  predicate Interrupts(schedule: Schedule, conditions: Conditions) {
    Intersects(conditions, schedule.interruptMask)
  }

  /** Whether a tick under these conditions gets as far as running a task. */
  predicate Runs(r: Runner, conditions: Conditions) {
    r.schedule.Some? && !Interrupts(r.schedule.value, conditions) && r.taskIndex < |r.schedule.value.tasks|
  }

  function Current(r: Runner): Task
    requires r.schedule.Some? && r.taskIndex < |r.schedule.value.tasks|
  {
    r.schedule.value.tasks[r.taskIndex]
  }

  /** A call a tick makes to whoever executes the tasks. */
  datatype Call = Begin(index: nat, task: Task) | Resume(index: nat, task: Task)

  function CallOf(r: Runner, conditions: Conditions): Option<Call> {
    if !Runs(r, conditions) || Current(r).IsTiming() then None
    else if r.started then Some(Resume(r.taskIndex, Current(r)))
    else Some(Begin(r.taskIndex, Current(r)))
  }

  /** How long a timing task waits, and the generator after choosing. */
  function Chosen(task: Task, g: Pcg32.Generator): (real, Pcg32.Generator) {
    match task
    case Wait(seconds) => (AtLeastZero(seconds), g)
    case WaitRandom(min, max) => Pcg32.Range(g, AtLeastZero(min), AtLeastZero(max))
    case _ => (0.0, g)
  }

  /** A timing task's tick: the time left, and the generator. */
  function Counted(r: Runner, task: Task, dt: real, g: Pcg32.Generator): (real, Pcg32.Generator) {
    var (timer, after) := if r.started then (r.timer, g) else Chosen(task, g);
    (timer - AtLeastZero(dt), after)
  }

  /** What a task's status makes of the runner. */
  function Settled(r: Runner, status: TaskStatus): (Runner, RunOutcome)
    requires r.schedule.Some?
  {
    match status
    case Ongoing => (r, StillRunning)
    case Failed => (CLEARED, GaveUp)
    case Complete =>
      if r.taskIndex + 1 >= |r.schedule.value.tasks| then (CLEARED, Done)
      else (Runner(r.schedule, r.taskIndex + 1, false, 0.0), Advanced)
  }

  datatype Ticked = Ticked(runner: Runner, outcome: RunOutcome, generator: Pcg32.Generator)

  /** One tick, given the answer to the call it makes, if it makes one. */
  function Tick(r: Runner, dt: real, conditions: Conditions, g: Pcg32.Generator, answer: TaskStatus): Ticked {
    if r.schedule.None? then Ticked(r, Nothing, g)
    else if Interrupts(r.schedule.value, conditions) then Ticked(CLEARED, Interrupted, g)
    else if r.taskIndex >= |r.schedule.value.tasks| then Ticked(CLEARED, Done, g)
    else if Current(r).IsTiming() then
      var (timer, after) := Counted(r, Current(r), dt, g);
      var (next, outcome) :=
        Settled(r.(started := true, timer := timer), if timer > 0.0 then Ongoing else Complete);
      Ticked(next, outcome, after)
    else
      var (next, outcome) := Settled(r.(started := true), answer);
      Ticked(next, outcome, g)
  }

  /** Whoever executes the tasks, over a state of its own. */
  datatype Executor<!E> = Executor(begin: (E, Task) -> (E, TaskStatus), resume: (E, Task, real) -> (E, TaskStatus))

  /** The executor's side of a tick: its next state and its answer. */
  function Answered<E>(r: Runner, dt: real, conditions: Conditions, x: Executor<E>, e: E): (E, TaskStatus) {
    match CallOf(r, conditions)
    case None => (e, Complete)
    case Some(Begin(_, task)) => x.begin(e, task)
    case Some(Resume(_, task)) => x.resume(e, task, dt)
  }

  // ---- The runner as the program holds it ----

  class ScheduleRunner {
    var schedule: Option<Schedule>
    var taskIndex: nat
    var started: bool
    var timer: real

    function Value(): Runner
      reads this
    {
      Runner(schedule, taskIndex, started, timer)
    }

    constructor ()
      ensures Value() == CLEARED
    {
      schedule, taskIndex, started, timer := None, 0, false, 0.0;
    }

    constructor Restore(lookup: string -> Option<Schedule>, name: string, taskIndex: nat, started: bool, timer: real)
      ensures Value() == Restored(lookup, name, taskIndex, started, timer)
    {
      var found := lookup(name);
      if found.None? {
        schedule, this.taskIndex, this.started, this.timer := None, 0, false, 0.0;
      } else {
        var last := if |found.value.tasks| == 0 then 0 else |found.value.tasks| - 1;
        schedule := found;
        this.taskIndex := if taskIndex < last then taskIndex else last;
        this.started := started;
        this.timer := if timer > 0.0 then timer else 0.0;
      }
    }

    method Start(next: Schedule)
      modifies this
      ensures Value() == Begun(next)
    {
      schedule, taskIndex, started, timer := Some(next), 0, false, 0.0;
    }

    method Clear()
      modifies this
      ensures Value() == CLEARED
    {
      schedule, taskIndex, started, timer := None, 0, false, 0.0;
    }

    method Advance<E>(dt: real, conditions: Conditions, rng: Pcg32.Rng, x: Executor<E>, e: E)
      returns (outcome: RunOutcome, after: E)
      modifies this, rng`state
      ensures var answer := Answered(old(Value()), dt, conditions, x, e);
              && after == answer.0
              && Ticked(Value(), outcome, rng.Value())
                 == Tick(old(Value()), dt, conditions, old(rng.Value()), answer.1)
    {
      after := e;
      if schedule.None? {
        return Nothing, e;
      }
      var running := schedule.value;
      if Interrupts(running, conditions) {
        Clear();
        return Interrupted, e;
      }
      if taskIndex >= |running.tasks| {
        Clear();
        return Done, e;
      }
      var task := running.tasks[taskIndex];
      var status;
      if task.IsTiming() {
        status := CountDown(task, dt, rng);
      } else if started {
        var answer := x.resume(e, task, dt);
        after, status := answer.0, answer.1;
      } else {
        started := true;
        var answer := x.begin(e, task);
        after, status := answer.0, answer.1;
      }
      match status {
        case Ongoing => outcome := StillRunning;
        case Failed =>
          Clear();
          outcome := GaveUp;
        case Complete =>
          taskIndex, started, timer := taskIndex + 1, false, 0.0;
          if taskIndex >= |running.tasks| {
            Clear();
            outcome := Done;
          } else {
            outcome := Advanced;
          }
      }
    }

    method CountDown(task: Task, dt: real, rng: Pcg32.Rng) returns (status: TaskStatus)
      requires task.IsTiming()
      modifies this`started, this`timer, rng`state
      ensures started && (timer, rng.Value()) == Counted(old(Value()), task, dt, old(rng.Value()))
      ensures status == if timer > 0.0 then Ongoing else Complete
    {
      hide Pcg32.Range;
      if !started {
        started := true;
        match task {
          case Wait(seconds) => timer := if seconds > 0.0 then seconds else 0.0;
          case WaitRandom(min, max) => timer := rng.RangeReal(AtLeastZero(min), AtLeastZero(max));
        }
      }
      timer := timer - if dt > 0.0 then dt else 0.0;
      status := if timer > 0.0 then Ongoing else Complete;
    }
  }

  // ---- Runs of one schedule ----

  /** One tick's inputs: what it senses, and what the executor would answer. */
  datatype Input = Input(dt: real, conditions: Conditions, answer: TaskStatus)

  datatype Trace = Trace(runner: Runner, generator: Pcg32.Generator, calls: seq<Call>)

  function Run(r: Runner, g: Pcg32.Generator, inputs: seq<Input>): Trace {
    if inputs == [] then Trace(r, g, [])
    else
      var n := |inputs| - 1;
      var before := Run(r, g, inputs[..n]);
      var call := CallOf(before.runner, inputs[n].conditions);
      var ticked := Tick(before.runner, inputs[n].dt, inputs[n].conditions, before.generator, inputs[n].answer);
      Trace(ticked.runner, ticked.generator, before.calls + if call.Some? then [call.value] else [])
  }

  /** The calls are begins and resumes of the schedule's other tasks, in task
      order: each task is begun at most once, and resumed only right after it
      has been begun or resumed. */
  ghost predicate Disciplined(tasks: seq<Task>, calls: seq<Call>) {
    AreTasksOf(tasks, calls) && InTaskOrder(calls) && EachBegunOnce(calls) && ResumesFollow(calls)
  }

  ghost predicate AreTasksOf(tasks: seq<Task>, calls: seq<Call>) {
    forall c | c in calls :: c.index < |tasks| && c.task == tasks[c.index] && !c.task.IsTiming()
  }

  ghost predicate InTaskOrder(calls: seq<Call>) {
    forall i, j | 0 <= i < j < |calls| :: calls[i].index <= calls[j].index
  }

  ghost predicate EachBegunOnce(calls: seq<Call>) {
    forall i, j | 0 <= i < j < |calls| && calls[j].Begin? :: calls[i].index < calls[j].index
  }

  ghost predicate ResumesFollow(calls: seq<Call>) {
    forall i | 0 <= i < |calls| && calls[i].Resume? :: i > 0 && calls[i - 1].index == calls[i].index
  }

  /** Every task before `index` that is not a timing task has been begun. */
  ghost predicate BegunUpTo(tasks: seq<Task>, calls: seq<Call>, index: nat) {
    forall k: nat | k < index && k < |tasks| && !tasks[k].IsTiming() :: Begin(k, tasks[k]) in calls
  }

  ghost predicate Follows(schedule: Schedule, t: Trace) {
    && Disciplined(schedule.tasks, t.calls)
    && (t.runner != CLEARED ==>
          && t.runner.schedule == Some(schedule)
          && BegunUpTo(schedule.tasks, t.calls, t.runner.taskIndex)
          && (forall c | c in t.calls :: c.index <= t.runner.taskIndex)
          && (!t.runner.started ==> forall c | c in t.calls :: c.index < t.runner.taskIndex)
          && (t.runner.started && t.runner.taskIndex < |schedule.tasks| && !Current(t.runner).IsTiming() ==>
                && t.calls != [] && t.calls[|t.calls| - 1].index == t.runner.taskIndex
                && Begin(t.runner.taskIndex, Current(t.runner)) in t.calls))
  }

  lemma DisciplineGrows(tasks: seq<Task>, calls: seq<Call>, call: Call)
    requires Disciplined(tasks, calls)
    requires call.index < |tasks| && call.task == tasks[call.index] && !call.task.IsTiming()
    requires call.Begin? ==> forall c | c in calls :: c.index < call.index
    requires call.Resume? ==> calls != [] && calls[|calls| - 1].index == call.index
    ensures Disciplined(tasks, calls + [call])
  {
    OrderGrows(calls, call);
    BeginsGrow(calls, call);
    assert forall c | c in calls + [call] :: c in calls || c == call;
  }

  lemma OrderGrows(calls: seq<Call>, call: Call)
    requires InTaskOrder(calls)
    requires call.Begin? ==> forall c | c in calls :: c.index < call.index
    requires call.Resume? ==> calls != [] && calls[|calls| - 1].index == call.index
    ensures InTaskOrder(calls + [call])
  {
    var after := calls + [call];
    forall i, j | 0 <= i < j < |after| ensures after[i].index <= after[j].index {
      if j == |calls| {
        assert after[i] in calls;
        assert call.Resume? ==> calls[i].index <= calls[|calls| - 1].index;
      }
    }
  }

  lemma BeginsGrow(calls: seq<Call>, call: Call)
    requires EachBegunOnce(calls)
    requires call.Begin? ==> forall c | c in calls :: c.index < call.index
    ensures EachBegunOnce(calls + [call])
  {
    var after := calls + [call];
    forall i, j | 0 <= i < j < |after| && after[j].Begin? ensures after[i].index < after[j].index {
      assert after[i] in calls;
    }
  }

  /** What a call leaves of the claims about the task it is for. */
  lemma CallFollows(schedule: Schedule, t: Trace, call: Call)
    requires Follows(schedule, t) && t.runner.schedule == Some(schedule)
    requires t.runner.taskIndex < |schedule.tasks| && !Current(t.runner).IsTiming()
    requires call == if t.runner.started then Resume(t.runner.taskIndex, Current(t.runner))
                     else Begin(t.runner.taskIndex, Current(t.runner))
    ensures var after := t.calls + [call];
            && Disciplined(schedule.tasks, after)
            && BegunUpTo(schedule.tasks, after, t.runner.taskIndex + 1)
            && (forall c | c in after :: c.index <= t.runner.taskIndex)
            && after[|after| - 1].index == t.runner.taskIndex
            && Begin(t.runner.taskIndex, Current(t.runner)) in after
  {
    hide Disciplined;
    DisciplineGrows(schedule.tasks, t.calls, call);
    assert forall c :: c in t.calls + [call] <==> c in t.calls || c == call;
  }

  lemma ClearedFollows(schedule: Schedule, t: Trace)
    requires Disciplined(schedule.tasks, t.calls) && t.runner == CLEARED
    ensures Follows(schedule, t)
  {
  }

  lemma MovedOnFollows(schedule: Schedule, t: Trace)
    requires Disciplined(schedule.tasks, t.calls)
    requires t.runner.schedule == Some(schedule) && !t.runner.started
    requires BegunUpTo(schedule.tasks, t.calls, t.runner.taskIndex)
    requires forall c | c in t.calls :: c.index < t.runner.taskIndex
    ensures Follows(schedule, t)
  {
  }

  lemma StaysFollows(schedule: Schedule, t: Trace)
    requires Disciplined(schedule.tasks, t.calls)
    requires t.runner.schedule == Some(schedule) && t.runner.started && t.runner.taskIndex < |schedule.tasks|
    requires BegunUpTo(schedule.tasks, t.calls, t.runner.taskIndex)
    requires forall c | c in t.calls :: c.index <= t.runner.taskIndex
    requires Current(t.runner).IsTiming() ||
             (t.calls != [] && t.calls[|t.calls| - 1].index == t.runner.taskIndex
              && Begin(t.runner.taskIndex, Current(t.runner)) in t.calls)
    ensures Follows(schedule, t)
  {
  }

  /** Whatever the status, a runner whose current task is in order stays so. */
  lemma SettledFollows(schedule: Schedule, t: Trace, status: TaskStatus, g: Pcg32.Generator)
    requires Disciplined(schedule.tasks, t.calls)
    requires t.runner.schedule == Some(schedule) && t.runner.started && t.runner.taskIndex < |schedule.tasks|
    requires BegunUpTo(schedule.tasks, t.calls, t.runner.taskIndex + 1)
    requires forall c | c in t.calls :: c.index <= t.runner.taskIndex
    requires Current(t.runner).IsTiming() ||
             (t.calls != [] && t.calls[|t.calls| - 1].index == t.runner.taskIndex
              && Begin(t.runner.taskIndex, Current(t.runner)) in t.calls)
    ensures Follows(schedule, Trace(Settled(t.runner, status).0, g, t.calls))
  {
    hide Disciplined, Follows;
    var next := Trace(Settled(t.runner, status).0, g, t.calls);
    match status
    case Ongoing => StaysFollows(schedule, next);
    case Failed => ClearedFollows(schedule, next);
    case Complete =>
      if next.runner == CLEARED {
        ClearedFollows(schedule, next);
      } else {
        MovedOnFollows(schedule, next);
      }
  }

  lemma TimingFollows(schedule: Schedule, t: Trace)
    requires Follows(schedule, t) && t.runner.schedule == Some(schedule)
    requires t.runner.taskIndex < |schedule.tasks| && Current(t.runner).IsTiming()
    ensures Disciplined(schedule.tasks, t.calls) && BegunUpTo(schedule.tasks, t.calls, t.runner.taskIndex + 1)
    ensures forall c | c in t.calls :: c.index <= t.runner.taskIndex
  {
  }

  lemma FollowsIsDisciplined(schedule: Schedule, t: Trace)
    requires Follows(schedule, t)
    ensures Disciplined(schedule.tasks, t.calls)
    ensures t.runner == CLEARED || t.runner.schedule == Some(schedule)
  {
  }

  lemma TickFollows(schedule: Schedule, t: Trace, input: Input)
    requires Follows(schedule, t)
    ensures var call := CallOf(t.runner, input.conditions);
            var ticked := Tick(t.runner, input.dt, input.conditions, t.generator, input.answer);
            Follows(schedule, Trace(ticked.runner, ticked.generator,
                                    t.calls + if call.Some? then [call.value] else []))
  {
    hide Counted, Follows, Disciplined, BegunUpTo, Settled;
    FollowsIsDisciplined(schedule, t);
    var r := t.runner;
    var call := CallOf(r, input.conditions);
    var ticked := Tick(r, input.dt, input.conditions, t.generator, input.answer);
    assert t.calls + [] == t.calls;
    if !Runs(r, input.conditions) {
      assert ticked.runner == CLEARED;
      ClearedFollows(schedule, Trace(ticked.runner, ticked.generator, t.calls));
    } else if Current(r).IsTiming() {
      TimingFollows(schedule, t);
      var timer := Counted(r, Current(r), input.dt, t.generator).0;
      var counted := t.(runner := r.(started := true, timer := timer));
      SettledFollows(schedule, counted, if timer > 0.0 then Ongoing else Complete, ticked.generator);
    } else {
      CallFollows(schedule, t, call.value);
      var called := Trace(r.(started := true), t.generator, t.calls + [call.value]);
      SettledFollows(schedule, called, input.answer, ticked.generator);
    }
  }

  /** For any executor and any run after `Start`, the calls are disciplined,
      and while the schedule runs every earlier task has been begun. */
  lemma {:induction false} CallsFollowTheSchedule(schedule: Schedule, g: Pcg32.Generator, inputs: seq<Input>)
    ensures Follows(schedule, Run(Begun(schedule), g, inputs))
  {
    hide Follows, Tick, CallOf;
    if inputs == [] {
      StartFollows(schedule, g);
    } else {
      var n := |inputs| - 1;
      CallsFollowTheSchedule(schedule, g, inputs[..n]);
      TickFollows(schedule, Run(Begun(schedule), g, inputs[..n]), inputs[n]);
    }
  }

  lemma StartFollows(schedule: Schedule, g: Pcg32.Generator)
    ensures Follows(schedule, Trace(Begun(schedule), g, []))
  {
  }

  /** A tick whose conditions hit the mask makes no call and clears the runner. */
  lemma InterruptedMakesNoCall(r: Runner, dt: real, conditions: Conditions, g: Pcg32.Generator, answer: TaskStatus)
    requires r.schedule.Some? && Intersects(conditions, r.schedule.value.interruptMask)
    ensures CallOf(r, conditions) == None
    ensures Tick(r, dt, conditions, g, answer) == Ticked(CLEARED, Interrupted, g)
  {
  }

  /** The caller is told to choose again exactly when the runner is cleared,
      and nothing of the old schedule is left in it. */
  lemma ClearedIffNewScheduleNeeded(
      r: Runner, dt: real, conditions: Conditions, g: Pcg32.Generator, answer: TaskStatus)
    requires r.schedule.Some? || r == CLEARED
    ensures var t := Tick(r, dt, conditions, g, answer);
            && (t.outcome.NeedsNewSchedule() <==> t.runner == CLEARED)
            && (t.outcome == Nothing <==> r == CLEARED)
            && (t.runner != CLEARED ==> t.runner.schedule == r.schedule)
  {
  }

  /** Restoring gives a cleared runner or one inside its schedule. */
  lemma RestoredIsInside(
      lookup: string -> Option<Schedule>, name: string, taskIndex: nat, started: bool, timer: real)
    ensures var r := Restored(lookup, name, taskIndex, started, timer);
            if lookup(name).None? then r == CLEARED
            else
              && r.schedule == lookup(name) && r.timer >= 0.0 && r.taskIndex <= taskIndex
              && (r.schedule.value.tasks != [] ==> r.taskIndex < |r.schedule.value.tasks|)
              && (taskIndex < |r.schedule.value.tasks| ==> r.taskIndex == taskIndex)
  {
  }

  // ---- How long a wait lasts ----

  ghost predicate Steady(inputs: seq<Input>, dt: real, mask: Conditions) {
    forall i | 0 <= i < |inputs| :: inputs[i].dt == dt && !Intersects(inputs[i].conditions, mask)
  }

  /** One more tick of a wait of which `waited` is over. */
  lemma WaitTick(r: Runner, current: Runner, g: Pcg32.Generator, input: Input, seconds: real, waited: real)
    requires r.schedule.Some? && r.taskIndex < |r.schedule.value.tasks| && !r.started
    requires Current(r) == Wait(seconds) && input.dt > 0.0 && seconds > 0.0
    requires !Interrupts(r.schedule.value, input.conditions)
    requires current == if waited == 0.0 then r else r.(started := true, timer := seconds - waited)
    ensures CallOf(current, input.conditions) == None
    ensures var left := seconds - (waited + input.dt);
            Tick(current, input.dt, input.conditions, g, input.answer) ==
            if left > 0.0 then Ticked(r.(started := true, timer := left), StillRunning, g)
            else Ticked(Settled(r, Complete).0, Settled(r, Complete).1, g)
  {
    hide Interrupts;
  }

  /** How a wait stands after ticks that have not finished it. */
  lemma {:induction false} WaitCountsDown(r: Runner, g: Pcg32.Generator, inputs: seq<Input>, seconds: real, dt: real)
    requires r.schedule.Some? && r.taskIndex < |r.schedule.value.tasks| && !r.started
    requires Current(r) == Wait(seconds) && dt > 0.0 && Steady(inputs, dt, r.schedule.value.interruptMask)
    requires seconds > 0.0 && |inputs| as real * dt < seconds
    ensures Run(r, g, inputs) ==
            Trace(if inputs == [] then r
                  else r.(started := true, timer := seconds - |inputs| as real * dt), g, [])
  {
    hide Tick, CallOf, Intersects;
    if inputs != [] {
      var n := |inputs| - 1;
      ScaleLess(n as real, (n + 1) as real, dt);
      OneMoreStep(n, dt);
      WaitCountsDown(r, g, inputs[..n], seconds, dt);
      ScaleLess(0.0, n as real, dt);
      WaitTick(r, Run(r, g, inputs[..n]).runner, g, inputs[n], seconds, n as real * dt);
    }
  }

  /** With a constant step a wait that is not interrupted lasts exactly
      max(1, ceil(seconds / dt)) ticks. */
  lemma WaitLastsExactly(r: Runner, g: Pcg32.Generator, inputs: seq<Input>, seconds: real, dt: real)
    requires r.schedule.Some? && r.taskIndex < |r.schedule.value.tasks| && !r.started
    requires Current(r) == Wait(seconds) && dt > 0.0 && Steady(inputs, dt, r.schedule.value.interruptMask)
    requires 1 <= |inputs| <= StepsToCover(seconds, dt)
    ensures |inputs| < StepsToCover(seconds, dt) ==>
              Run(r, g, inputs).runner == r.(started := true, timer := seconds - |inputs| as real * dt) &&
              seconds - |inputs| as real * dt > 0.0
    ensures |inputs| == StepsToCover(seconds, dt) ==> Run(r, g, inputs).runner == Settled(r, Complete).0
  {
    var n, total := |inputs|, StepsToCover(seconds, dt);
    if n < total {
      BeforeTheLast(n, seconds, dt);
      WaitCountsDown(r, g, inputs, seconds, dt);
    } else {
      LastTickOfWait(r, g, inputs, seconds, dt);
    }
  }

  lemma LastTickOfWait(r: Runner, g: Pcg32.Generator, inputs: seq<Input>, seconds: real, dt: real)
    requires r.schedule.Some? && r.taskIndex < |r.schedule.value.tasks| && !r.started
    requires Current(r) == Wait(seconds) && dt > 0.0 && Steady(inputs, dt, r.schedule.value.interruptMask)
    requires |inputs| == StepsToCover(seconds, dt)
    ensures Run(r, g, inputs).runner == Settled(r, Complete).0
  {
    hide StepsToCover, Tick, CallOf, Intersects;
    var n := |inputs| - 1;
    StepsCover(seconds, dt);
    OneMoreStep(n, dt);
    if n == 0 {
      WaitOfOneTick(r, g, inputs[0], seconds);
      assert Run(r, g, inputs[..0]) == Trace(r, g, []);
    } else {
      BeforeTheLast(n, seconds, dt);
      WaitCountsDown(r, g, inputs[..n], seconds, dt);
      ScaleLess(0.0, n as real, dt);
      WaitTick(r, Run(r, g, inputs[..n]).runner, g, inputs[n], seconds, n as real * dt);
    }
  }

  lemma WaitOfOneTick(r: Runner, g: Pcg32.Generator, input: Input, seconds: real)
    requires r.schedule.Some? && r.taskIndex < |r.schedule.value.tasks| && !r.started
    requires Current(r) == Wait(seconds) && input.dt > 0.0 && seconds <= input.dt
    requires !Interrupts(r.schedule.value, input.conditions)
    ensures CallOf(r, input.conditions) == None
    ensures Tick(r, input.dt, input.conditions, g, input.answer).runner == Settled(r, Complete).0
  {
    hide Interrupts, Intersects;
    assert Counted(r, Wait(seconds), input.dt, g).0 <= 0.0;
  }

  // ---- How a schedule ends ----

  function Completions(inputs: seq<Input>): nat {
    if inputs == [] then 0
    else
      var n := |inputs| - 1;
      Completions(inputs[..n]) + if inputs[n].answer.Complete? then 1 else 0
  }

  /** Nothing has interrupted it or failed, and tasks are left. */
  ghost predicate GoesOn(schedule: Schedule, inputs: seq<Input>) {
    && Completions(inputs) < |schedule.tasks|
    && forall i | 0 <= i < |inputs| ::
         !inputs[i].answer.Failed? && !Intersects(inputs[i].conditions, schedule.interruptMask)
  }

  ghost predicate NoWaits(schedule: Schedule) {
    forall t | t in schedule.tasks :: !t.IsTiming()
  }

  /** What a tick after such a run comes to: a failed task gives the schedule
      up, the last completed one ends it, any other is followed by the next,
      and one that goes on is resumed. */
  lemma {:induction false} ScheduleEnds(schedule: Schedule, g: Pcg32.Generator, inputs: seq<Input>, last: Input)
    requires NoWaits(schedule) && GoesOn(schedule, inputs)
    requires !Intersects(last.conditions, schedule.interruptMask)
    ensures var r := Run(Begun(schedule), g, inputs).runner;
            var t := Tick(r, last.dt, last.conditions, g, last.answer);
            var done := Completions(inputs);
            && r.schedule == Some(schedule) && r.taskIndex == done
            && match last.answer
               case Failed => t.outcome == GaveUp && t.runner == CLEARED && t.outcome.Adds() == {TaskFailed}
               case Ongoing => t.outcome == StillRunning && t.runner == r.(started := true)
               case Complete =>
                 if done + 1 == |schedule.tasks|
                 then t.outcome == Done && t.runner == CLEARED && t.outcome.Adds() == {ScheduleDone}
                 else t.outcome == Advanced && t.runner == Runner(Some(schedule), done + 1, false, 0.0)
  {
    hide Intersects, Chosen, Counted;
    if inputs != [] {
      var n := |inputs| - 1;
      GoesOnBefore(schedule, inputs);
      ScheduleEnds(schedule, g, inputs[..n], inputs[n]);
      TickIgnoresGenerator(schedule, Run(Begun(schedule), g, inputs[..n]).runner, inputs[n], g,
                           Run(Begun(schedule), g, inputs[..n]).generator);
    }
    assert schedule.tasks[Completions(inputs)] in schedule.tasks;
  }

  lemma GoesOnBefore(schedule: Schedule, inputs: seq<Input>)
    requires GoesOn(schedule, inputs) && inputs != []
    ensures GoesOn(schedule, inputs[..|inputs| - 1])
    ensures !Intersects(inputs[|inputs| - 1].conditions, schedule.interruptMask)
  {
    hide Intersects;
  }

  lemma TickIgnoresGenerator(schedule: Schedule, r: Runner, input: Input, g: Pcg32.Generator, h: Pcg32.Generator)
    requires NoWaits(schedule) && r.schedule == Some(schedule) && r.taskIndex < |schedule.tasks|
    ensures Tick(r, input.dt, input.conditions, g, input.answer).runner ==
            Tick(r, input.dt, input.conditions, h, input.answer).runner
  {
    assert schedule.tasks[r.taskIndex] in schedule.tasks;
  }
}

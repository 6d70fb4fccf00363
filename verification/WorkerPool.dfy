/** The campaign smoke: a pool of workers that share a queue of maps, and the
    summary of what they report. */
module WorkerPool {
  import opened Sequences

  datatype Category =
    | LoadedRendered
    | MissingMap
    | LoadError(code: string)
    | Timeout
    | Crash
    | EmptyEntityWorld
    | BlankCapture

  datatype Job = Job(chapter: string, level: string)

  datatype MapReport = MapReport(chapter: string, category: Category)

  // ---- The pool ----

  /** A worker's thread: between jobs, in one, out of its loop, or dead with
      the job it had taken. */
  datatype Worker = Idle | Busy(job: Job) | Stopped | Panicked(job: Job)

  datatype Pool = Pool(queue: seq<Job>, workers: seq<Worker>, reported: seq<Job>, reports: seq<MapReport>)

  datatype Action =
    | Take(worker: nat)
    | Stop(worker: nat)
    | Report(worker: nat, category: Category)
    | Panic(worker: nat)

  function Opened(jobs: seq<Job>, workers: nat): Pool {
    Pool(jobs, seq(if workers == 0 then 1 else workers, _ => Idle), [], [])
  }

  predicate Enabled(p: Pool, a: Action) {
    a.worker < |p.workers| &&
    match a
    case Take(w) => p.workers[w].Idle? && p.queue != []
    case Stop(w) => p.workers[w].Idle? && p.queue == []
    case Report(w, _) => p.workers[w].Busy?
    case Panic(w) => p.workers[w].Busy?
  }

  function After(p: Pool, a: Action): Pool
    requires Enabled(p, a)
  {
    match a
    case Take(w) => p.(workers := p.workers[w := Busy(p.queue[0])], queue := p.queue[1..])
    case Stop(w) => p.(workers := p.workers[w := Stopped])
    case Report(w, category) =>
      var job := p.workers[w].job;
      p.(workers := p.workers[w := Idle], reported := p.reported + [job],
         reports := p.reports + [MapReport(job.chapter, category)])
    case Panic(w) => p.(workers := p.workers[w := Panicked(p.workers[w].job)])
  }

  ghost predicate Reachable(jobs: seq<Job>, workers: nat, schedule: seq<Action>, p: Pool)
    decreases |schedule|
  {
    if schedule == [] then p == Opened(jobs, workers)
    else
      var n := |schedule| - 1;
      exists before: Pool ::
        && Reachable(jobs, workers, schedule[..n], before)
        && Enabled(before, schedule[n])
        && p == After(before, schedule[n])
  }

  /** Every thread is over, so that joining them all comes back. */
  predicate Joined(p: Pool) {
    forall w | 0 <= w < |p.workers| :: p.workers[w].Stopped? || p.workers[w].Panicked?
  }

  predicate NoPanic(p: Pool) {
    forall w | 0 <= w < |p.workers| :: !p.workers[w].Panicked?
  }

  /** The jobs that workers hold, whether at work or dead. */
  function InHand(workers: seq<Worker>): multiset<Job> {
    if workers == [] then multiset{}
    else
      Hand(workers[0]) + InHand(workers[1..])
  }

  function Hand(worker: Worker): multiset<Job> {
    match worker
    case Busy(job) => multiset{job}
    case Panicked(job) => multiset{job}
    case _ => multiset{}
  }

  lemma SumsAgree(x: multiset<Job>, a: multiset<Job>, b: multiset<Job>, c: multiset<Job>, d: multiset<Job>)
    requires a + b == c + d
    ensures x + a + b == x + c + d
  {
    assert x + a + b == x + (a + b) == x + (c + d) == x + c + d;
  }

  lemma {:induction false} InHandUpdated(workers: seq<Worker>, w: nat, next: Worker)
    requires w < |workers|
    ensures InHand(workers[w := next]) + Hand(workers[w]) == InHand(workers) + Hand(next)
  {
    if w == 0 {
      assert workers[0 := next][1..] == workers[1..];
    } else {
      var rest := workers[1..];
      assert workers[w := next][1..] == rest[w - 1 := next];
      InHandUpdated(rest, w - 1, next);
      SumsAgree(Hand(workers[0]), InHand(rest[w - 1 := next]), Hand(workers[w]), InHand(rest), Hand(next));
    }
  }

  lemma {:induction false} InHandOfNone(workers: seq<Worker>)
    requires forall w | 0 <= w < |workers| :: workers[w].Idle? || workers[w].Stopped?
    ensures InHand(workers) == multiset{}
  {
    if workers != [] {
      InHandOfNone(workers[1..]);
    }
  }

  lemma {:induction false} InHandOfOne(workers: seq<Worker>, w: nat)
    requires w < |workers|
    ensures Hand(workers[w]) <= InHand(workers)
  {
    if w > 0 {
      InHandOfOne(workers[1..], w - 1);
    }
  }

  /** Queued, in hand and reported jobs together. */
  function Accounted(p: Pool): multiset<Job> {
    multiset(p.queue) + InHand(p.workers) + multiset(p.reported)
  }

  ghost predicate Inv(jobs: seq<Job>, p: Pool) {
    && Accounted(p) == multiset(jobs)
    && |p.reports| == |p.reported|
    && (forall i | 0 <= i < |p.reports| :: p.reports[i].chapter == p.reported[i].chapter)
    && ((exists w | 0 <= w < |p.workers| :: p.workers[w].Stopped?) ==> p.queue == [])
  }

  /** How often a job is in hand changes as the one hand does. */
  lemma HandChanges(workers: seq<Worker>, w: nat, next: Worker, job: Job)
    requires w < |workers|
    ensures InHand(workers[w := next])[job] + Hand(workers[w])[job] == InHand(workers)[job] + Hand(next)[job]
  {
    hide InHand, Hand;
    InHandUpdated(workers, w, next);
    var moved, kept := InHand(workers[w := next]) + Hand(workers[w]), InHand(workers) + Hand(next);
    assert moved[job] == kept[job];
  }

  function Occurrences(p: Pool, job: Job): nat {
    multiset(p.queue)[job] + InHand(p.workers)[job] + multiset(p.reported)[job]
  }

  lemma OneLessQueued(queue: seq<Job>, job: Job)
    requires queue != []
    ensures multiset(queue)[job] == multiset(queue[1..])[job] + multiset{queue[0]}[job]
  {
    assert queue == [queue[0]] + queue[1..];
  }

  lemma OneMoreReported(reported: seq<Job>, next: Job, job: Job)
    ensures multiset(reported + [next])[job] == multiset(reported)[job] + multiset{next}[job]
  {
  }

  lemma TakeKeepsOccurrences(p: Pool, w: nat, job: Job)
    requires Enabled(p, Take(w))
    ensures Occurrences(After(p, Take(w)), job) == Occurrences(p, job)
  {
    hide InHand;
    HandChanges(p.workers, w, Busy(p.queue[0]), job);
    OneLessQueued(p.queue, job);
  }

  lemma ReportKeepsOccurrences(p: Pool, w: nat, category: Category, job: Job)
    requires Enabled(p, Report(w, category))
    ensures Occurrences(After(p, Report(w, category)), job) == Occurrences(p, job)
  {
    hide InHand;
    HandChanges(p.workers, w, Idle, job);
    OneMoreReported(p.reported, p.workers[w].job, job);
  }

  lemma EndKeepsOccurrences(p: Pool, a: Action, job: Job)
    requires Enabled(p, a) && (a.Stop? || a.Panic?)
    ensures Occurrences(After(p, a), job) == Occurrences(p, job)
  {
    hide InHand;
    var worker := p.workers[a.worker];
    HandChanges(p.workers, a.worker, if a.Stop? then Stopped else Panicked(worker.job), job);
  }

  lemma StepKeepsOccurrences(p: Pool, a: Action, job: Job)
    requires Enabled(p, a)
    ensures Occurrences(After(p, a), job) == Occurrences(p, job)
  {
    hide Occurrences, After, Enabled;
    match a
    case Take(w) => TakeKeepsOccurrences(p, w, job);
    case Report(w, category) => ReportKeepsOccurrences(p, w, category, job);
    case _ => EndKeepsOccurrences(p, a, job);
  }

  lemma StepKeepsJobs(p: Pool, a: Action)
    requires Enabled(p, a)
    ensures Accounted(After(p, a)) == Accounted(p)
  {
    hide InHand, After;
    forall job: Job ensures Accounted(After(p, a))[job] == Accounted(p)[job] {
      StepKeepsOccurrences(p, a, job);
    }
  }

  lemma StepKeepsInv(jobs: seq<Job>, p: Pool, a: Action)
    requires Inv(jobs, p) && Enabled(p, a)
    ensures Inv(jobs, After(p, a))
  {
    hide Accounted;
    StepKeepsJobs(p, a);
  }

  /** For every interleaving of the workers, no job is lost or doubled. */
  lemma {:induction false} PoolKeepsJobs(jobs: seq<Job>, workers: nat, schedule: seq<Action>, p: Pool)
    requires Reachable(jobs, workers, schedule, p)
    ensures Inv(jobs, p)
    decreases |schedule|
  {
    hide After, Enabled;
    if schedule == [] {
      InHandOfNone(p.workers);
    } else {
      var n := |schedule| - 1;
      var before :| Reachable(jobs, workers, schedule[..n], before) && Enabled(before, schedule[n]) &&
                    p == After(before, schedule[n]);
      PoolKeepsJobs(jobs, workers, schedule[..n], before);
      StepKeepsInv(jobs, before, schedule[n]);
    }
  }

  /** Once every thread is joined, each job has been reported exactly once
      exactly when no worker panicked. */
  lemma EachReportedOnceIffNoPanic(jobs: seq<Job>, workers: nat, schedule: seq<Action>, p: Pool)
    requires Reachable(jobs, workers, schedule, p) && Joined(p) && p.workers != []
    ensures multiset(p.reported) == multiset(jobs) <==> NoPanic(p)
    ensures |p.reports| == |p.reported|
  {
    hide InHand;
    PoolKeepsJobs(jobs, workers, schedule, p);
    if NoPanic(p) {
      InHandOfNone(p.workers);
      assert p.workers[0].Stopped?;
      assert p.queue == [];
    } else {
      var w :| 0 <= w < |p.workers| && p.workers[w].Panicked?;
      InHandOfOne(p.workers, w);
      var job := p.workers[w].job;
      assert InHand(p.workers)[job] >= 1;
      assert multiset(jobs)[job] == multiset(p.queue)[job] + InHand(p.workers)[job] + multiset(p.reported)[job];
    }
  }

  // ---- Every run ends ----

  function Left(workers: seq<Worker>): nat {
    if workers == [] then 0
    else Weight(workers[0]) + Left(workers[1..])
  }

  function Weight(worker: Worker): nat {
    match worker case Idle => 1 case Busy(_) => 2 case _ => 0
  }

  lemma {:induction false} LeftUpdated(workers: seq<Worker>, w: nat, next: Worker)
    requires w < |workers|
    ensures Left(workers[w := next]) + Weight(workers[w]) == Left(workers) + Weight(next)
  {
    if w == 0 {
      assert workers[0 := next][1..] == workers[1..];
    } else {
      assert workers[w := next][1..] == workers[1..][w - 1 := next];
      LeftUpdated(workers[1..], w - 1, next);
    }
  }

  /** How much the pool has left to do at most. */
  function Remaining(p: Pool): nat {
    3 * |p.queue| + Left(p.workers)
  }

  lemma StepMakesProgress(p: Pool, a: Action)
    requires Enabled(p, a)
    ensures Remaining(After(p, a)) < Remaining(p)
  {
    hide Left;
    LeftUpdated(p.workers, a.worker, After(p, a).workers[a.worker]);
  }

  lemma {:induction false} LeftOfIdle(workers: seq<Worker>)
    requires forall w | 0 <= w < |workers| :: workers[w].Idle?
    ensures Left(workers) == |workers|
  {
    if workers != [] {
      LeftOfIdle(workers[1..]);
    }
  }

  /** Whatever the interleaving, the pool takes no more than this many steps,
      and until every thread is over it can take another. */
  lemma {:induction false} PoolEnds(jobs: seq<Job>, workers: nat, schedule: seq<Action>, p: Pool)
    requires Reachable(jobs, workers, schedule, p)
    ensures |schedule| + Remaining(p) <= 3 * |jobs| + |p.workers|
    ensures |p.workers| == if workers == 0 then 1 else workers
    ensures Joined(p) <==> !exists a: Action :: Enabled(p, a)
    decreases |schedule|
  {
    hide Left, After, Enabled, Joined;
    if schedule == [] {
      LeftOfIdle(p.workers);
    } else {
      var n := |schedule| - 1;
      var before :| Reachable(jobs, workers, schedule[..n], before) && Enabled(before, schedule[n]) &&
                    p == After(before, schedule[n]);
      PoolEnds(jobs, workers, schedule[..n], before);
      StepMakesProgress(before, schedule[n]);
      StepKeepsWorkers(before, schedule[n]);
    }
    StuckIffJoined(p);
  }

  lemma StepKeepsWorkers(p: Pool, a: Action)
    requires Enabled(p, a)
    ensures |After(p, a).workers| == |p.workers|
  {
  }

  lemma StuckIffJoined(p: Pool)
    ensures Joined(p) <==> !exists a: Action :: Enabled(p, a)
  {
    if !Joined(p) {
      var w :| 0 <= w < |p.workers| && !(p.workers[w].Stopped? || p.workers[w].Panicked?);
      var a := if p.workers[w].Busy? then Panic(w) else if p.queue == [] then Stop(w) else Take(w);
      assert Enabled(p, a);
    }
  }

  // ---- The order of a chapter's reports ----

  /** The jobs of one chapter, in order. */
  function JobsIn(jobs: seq<Job>, title: string): seq<Job> {
    if jobs == [] then []
    else
      var n := |jobs| - 1;
      JobsIn(jobs[..n], title) + if jobs[n].chapter == title then [jobs[n]] else []
  }

  lemma {:induction false} JobsInSplits(a: seq<Job>, b: seq<Job>, title: string)
    ensures JobsIn(a + b, title) == JobsIn(a, title) + JobsIn(b, title)
  {
    hide JobsIn;
    if b == [] {
      assert a + b == a;
      JobsInNone(title);
    } else {
      var n := |b| - 1;
      JobsInSplits(a, b[..n], title);
      JobsInMore(a + b[..n], b[n], title);
      JobsInMore(b[..n], b[n], title);
      assert a + b == a + b[..n] + [b[n]] && b == b[..n] + [b[n]];
    }
  }

  lemma JobsInNone(title: string)
    ensures JobsIn([], title) == []
  {
  }

  lemma JobsInMore(jobs: seq<Job>, job: Job, title: string)
    ensures JobsIn(jobs + [job], title) == JobsIn(jobs, title) + if job.chapter == title then [job] else []
  {
    assert (jobs + [job])[..|jobs|] == jobs;
  }

  lemma {:induction false} JobsInAre(jobs: seq<Job>, title: string, job: Job)
    ensures job in JobsIn(jobs, title) <==> job in jobs && job.chapter == title
  {
    if jobs != [] {
      var n := |jobs| - 1;
      JobsInAre(jobs[..n], title, job);
      assert jobs == jobs[..n] + [jobs[n]];
    }
  }

  lemma JobsInOne(job: Job, title: string)
    ensures JobsIn([job], title) == if job.chapter == title then [job] else []
  {
    assert [job][..0] == [];
  }

  /** Whatever the interleaving, as long as no worker panics each chapter's maps
      have been reported in the order the jobs were built. */
  ghost predicate KeepsChapterOrder(jobs: seq<Job>, workers: nat) {
    forall schedule: seq<Action>, p: Pool, title: string ::
      Reachable(jobs, workers, schedule, p) && NoPanic(p) ==> JobsIn(p.reported, title) <= JobsIn(jobs, title)
  }

  /** The same once every thread is joined, when a chapter has all its maps. */
  ghost predicate EndsInChapterOrder(jobs: seq<Job>, workers: nat) {
    forall schedule: seq<Action>, p: Pool, title: string ::
      Reachable(jobs, workers, schedule, p) && Joined(p) && NoPanic(p) ==>
        JobsIn(p.reported, title) == JobsIn(jobs, title)
  }

  /** No chapter holds two different maps. */
  ghost predicate OneMapChapters(jobs: seq<Job>) {
    forall a, b | a in jobs && b in jobs && a.chapter == b.chapter :: a == b
  }

  // One worker keeps every order.

  function HandInOrder(worker: Worker): seq<Job> {
    match worker
    case Busy(job) => [job]
    case Panicked(job) => [job]
    case _ => []
  }

  lemma {:induction false} OneWorkerKeepsOrder(jobs: seq<Job>, workers: nat, schedule: seq<Action>, p: Pool)
    requires workers <= 1 && Reachable(jobs, workers, schedule, p)
    ensures |p.workers| == 1
    ensures p.reported + HandInOrder(p.workers[0]) + p.queue == jobs
    decreases |schedule|
  {
    if schedule == [] {
      assert [] + [] + jobs == jobs;
    } else {
      hide After, Enabled, HandInOrder;
      var n := |schedule| - 1;
      var before :| Reachable(jobs, workers, schedule[..n], before) && Enabled(before, schedule[n]) &&
                    p == After(before, schedule[n]);
      OneWorkerKeepsOrder(jobs, workers, schedule[..n], before);
      OneWorkerSteps(before, schedule[n]);
    }
  }

  lemma OneWorkerSteps(p: Pool, a: Action)
    requires |p.workers| == 1 && Enabled(p, a)
    ensures var next := After(p, a);
            && |next.workers| == 1
            && next.reported + HandInOrder(next.workers[0]) + next.queue
               == p.reported + HandInOrder(p.workers[0]) + p.queue
  {
    if a.Take? {
      var queue := p.queue;
      assert queue == [queue[0]] + queue[1..];
      assert p.reported + [queue[0]] + queue[1..] == p.reported + [] + queue;
    } else if a.Report? {
      var job := p.workers[0].job;
      assert (p.reported + [job]) + [] + p.queue == p.reported + [job] + p.queue;
    }
  }

  lemma OneWorkerKeepsChapters(jobs: seq<Job>, workers: nat, schedule: seq<Action>, p: Pool, title: string)
    requires workers <= 1 && Reachable(jobs, workers, schedule, p)
    ensures JobsIn(p.reported, title) <= JobsIn(jobs, title)
  {
    hide Reachable, JobsIn;
    OneWorkerKeepsOrder(jobs, workers, schedule, p);
    var rest := HandInOrder(p.workers[0]) + p.queue;
    assert jobs == p.reported + rest;
    JobsInSplits(p.reported, rest, title);
  }

  // A chapter of one map has only one order.

  lemma {:induction false} CopiesCounted(jobs: seq<Job>, title: string, job: Job)
    requires forall j | j in jobs && j.chapter == title :: j == job
    requires job.chapter == title
    ensures |JobsIn(jobs, title)| == multiset(jobs)[job]
    ensures forall i | 0 <= i < |JobsIn(jobs, title)| :: JobsIn(jobs, title)[i] == job
  {
    if jobs != [] {
      var n := |jobs| - 1;
      assert jobs == jobs[..n] + [jobs[n]];
      CopiesCounted(jobs[..n], title, job);
      assert multiset(jobs)[job] == multiset(jobs[..n])[job] + multiset{jobs[n]}[job];
    }
  }

  lemma OneMapKeepsChapters(jobs: seq<Job>, workers: nat, schedule: seq<Action>, p: Pool, title: string)
    requires OneMapChapters(jobs) && Reachable(jobs, workers, schedule, p)
    ensures JobsIn(p.reported, title) <= JobsIn(jobs, title)
  {
    hide Reachable, InHand;
    PoolKeepsJobs(jobs, workers, schedule, p);
    ReportedAreJobs(jobs, p);
    if JobsIn(p.reported, title) != [] {
      var job := JobsIn(p.reported, title)[0];
      JobsInAre(p.reported, title, job);
      CopiesCounted(p.reported, title, job);
      CopiesCounted(jobs, title, job);
      assert Accounted(p)[job] == multiset(jobs)[job];
    }
  }

  lemma ReportedAreJobs(jobs: seq<Job>, p: Pool)
    requires Accounted(p) == multiset(jobs)
    ensures forall job | job in p.reported :: job in jobs
  {
    forall job | job in p.reported ensures job in jobs {
      assert multiset(jobs)[job] == Accounted(p)[job] >= multiset(p.reported)[job] >= 1;
    }
  }

  // Otherwise one worker holds a map back while another goes ahead.

  lemma OneMoreStep(jobs: seq<Job>, workers: nat, schedule: seq<Action>, p: Pool, a: Action)
    requires Reachable(jobs, workers, schedule, p) && Enabled(p, a)
    ensures Reachable(jobs, workers, schedule + [a], After(p, a))
  {
    hide After, Enabled;
    assert (schedule + [a])[..|schedule|] == schedule;
  }

  /** A worker between jobs can take and report the next `n` by itself. */
  lemma {:induction false} GoesAhead(
      jobs: seq<Job>, workers: nat, schedule: seq<Action>, p: Pool, w: nat, n: nat)
    returns (longer: seq<Action>, q: Pool)
    requires Reachable(jobs, workers, schedule, p) && w < |p.workers| && p.workers[w].Idle? && n <= |p.queue|
    ensures Reachable(jobs, workers, longer, q)
    ensures q.workers == p.workers && q.queue == p.queue[n..] && q.reported == p.reported + p.queue[..n]
  {
    hide Reachable;
    if n == 0 {
      longer, q := schedule, p;
    } else {
      var before, mid := GoesAhead(jobs, workers, schedule, p, w, n - 1);
      OneMoreStep(jobs, workers, before, mid, Take(w));
      var busy := After(mid, Take(w));
      OneMoreStep(jobs, workers, before + [Take(w)], busy, Report(w, LoadedRendered));
      q := After(busy, Report(w, LoadedRendered));
      longer := before + [Take(w)] + [Report(w, LoadedRendered)];
      assert q.workers == p.workers;
    }
  }

  /** One job is held back, and everything else up to another is reported. */
  lemma HoldsBack(jobs: seq<Job>, workers: nat, i: nat, k: nat) returns (schedule: seq<Action>, p: Pool)
    requires workers >= 2 && i < k < |jobs|
    ensures Reachable(jobs, workers, schedule, p) && NoPanic(p)
    ensures p.reported == jobs[..i] + jobs[i + 1..k + 1]
  {
    hide Reachable;
    StartIsReachable(jobs, workers);
    var s1, p1 := GoesAhead(jobs, workers, [], Opened(jobs, workers), 0, i);
    OneMoreStep(jobs, workers, s1, p1, Take(0));
    var held := After(p1, Take(0));
    schedule, p := GoesAhead(jobs, workers, s1 + [Take(0)], held, 1, k - i);
    assert held.queue == jobs[i + 1..];
    assert jobs[i + 1..][..k - i] == jobs[i + 1..k + 1];
  }

  lemma StartIsReachable(jobs: seq<Job>, workers: nat)
    ensures Reachable(jobs, workers, [], Opened(jobs, workers))
  {
  }

  /** What is reported after something was held back starts otherwise than what
      was held back, somewhere. */
  lemma {:induction false} Overtaken(x: Job, s: seq<Job>, rest: seq<Job>)
    requires s != [] && s[|s| - 1] != x
    ensures !(s <= [x] + s + rest)
  {
    if s <= [x] + s + rest {
      var whole := [x] + s + rest;
      assert forall i | 0 <= i < |s| :: s[i] == whole[i];
      AllAlike(x, s, whole, |s| - 1);
    }
  }

  lemma {:induction false} AllAlike(x: Job, s: seq<Job>, whole: seq<Job>, i: nat)
    requires i < |s| < |whole| && whole[0] == x
    requires forall k | 0 <= k < |s| :: s[k] == whole[k] && whole[k + 1] == s[k]
    ensures s[i] == x
  {
    if i > 0 {
      AllAlike(x, s, whole, i - 1);
      assert whole[i - 1 + 1] == s[i - 1];
    }
  }

  lemma PrefixOfTail(a: seq<Job>, b: seq<Job>, c: seq<Job>)
    ensures a + b <= a + c <==> b <= c
  {
    if a + b <= a + c {
      assert forall i | 0 <= i < |b| :: b[i] == (a + b)[|a| + i] == (a + c)[|a| + i] == c[i];
    }
  }

  lemma OvertakingBreaksOrder(jobs: seq<Job>, workers: nat, i: nat, k: nat)
    returns (schedule: seq<Action>, p: Pool)
    requires workers >= 2 && i < k < |jobs| && jobs[i].chapter == jobs[k].chapter && jobs[i] != jobs[k]
    ensures Reachable(jobs, workers, schedule, p) && NoPanic(p)
    ensures !(JobsIn(p.reported, jobs[i].chapter) <= JobsIn(jobs, jobs[i].chapter))
  {
    hide Reachable, NoPanic, JobsIn;
    var title := jobs[i].chapter;
    schedule, p := HoldsBack(jobs, workers, i, k);
    var early, ahead, rest := jobs[..i], jobs[i + 1..k + 1], jobs[k + 1..];
    assert jobs == early + ([jobs[i]] + (ahead + rest));
    JobsInSplits(early, ahead, title);
    JobsInSplits(early, [jobs[i]] + (ahead + rest), title);
    JobsInSplits([jobs[i]], ahead + rest, title);
    JobsInSplits(ahead, rest, title);
    JobsInOne(jobs[i], title);
    LastIn(ahead, title);
    var s, r := JobsIn(ahead, title), JobsIn(rest, title);
    assert [jobs[i]] + (s + r) == [jobs[i]] + s + r;
    Overtaken(jobs[i], s, r);
    PrefixOfTail(JobsIn(early, title), s, [jobs[i]] + s + r);
  }

  lemma LastIn(jobs: seq<Job>, title: string)
    requires jobs != [] && jobs[|jobs| - 1].chapter == title
    ensures JobsIn(jobs, title) != [] && JobsIn(jobs, title)[|JobsIn(jobs, title)| - 1] == jobs[|jobs| - 1]
  {
  }

  /** Any run without a panic can be brought to its end without one, and then
      has reported what it had, and more. */
  lemma {:induction false} CanFinish(jobs: seq<Job>, workers: nat, schedule: seq<Action>, p: Pool)
    returns (longer: seq<Action>, q: Pool)
    requires Reachable(jobs, workers, schedule, p) && NoPanic(p)
    ensures Reachable(jobs, workers, longer, q) && NoPanic(q) && Joined(q) && p.reported <= q.reported
    decreases Remaining(p)
  {
    hide Reachable, Remaining;
    if Joined(p) {
      longer, q := schedule, p;
    } else {
      var w :| 0 <= w < |p.workers| && !p.workers[w].Stopped?;
      var a := if p.workers[w].Busy? then Report(w, LoadedRendered) else if p.queue == [] then Stop(w) else Take(w);
      OneMoreStep(jobs, workers, schedule, p, a);
      StepMakesProgress(p, a);
      longer, q := CanFinish(jobs, workers, schedule + [a], After(p, a));
    }
  }

  lemma PrefixKeptIn(a: seq<Job>, b: seq<Job>, title: string)
    requires a <= b
    ensures JobsIn(a, title) <= JobsIn(b, title)
  {
    hide JobsIn;
    assert b == a + b[|a|..];
    JobsInSplits(a, b[|a|..], title);
  }

  lemma SameJobsAsMany(a: seq<Job>, b: seq<Job>, title: string)
    requires multiset(a) == multiset(b)
    ensures |JobsIn(a, title)| == |JobsIn(b, title)|
    decreases |a|
  {
    hide JobsIn;
    if a == [] {
      assert |multiset(b)| == 0;
    } else {
      var before, after := FindFirst(a, b);
      SameJobsAsMany(a[1..], before + after, title);
      assert a == [a[0]] + a[1..];
      JobsInSplits([a[0]], a[1..], title);
      JobsInSplits(before + [a[0]], after, title);
      JobsInSplits(before, [a[0]], title);
      JobsInSplits(before, after, title);
    }
  }

  /** Each chapter's maps are reported in the order the jobs were built, in
      every run and at its end, exactly when there is one worker or no chapter
      holds two different maps. */
  lemma ChapterOrderIff(jobs: seq<Job>, workers: nat)
    ensures KeepsChapterOrder(jobs, workers) <==> workers <= 1 || OneMapChapters(jobs)
    ensures EndsInChapterOrder(jobs, workers) <==> workers <= 1 || OneMapChapters(jobs)
  {
    hide Reachable, NoPanic, Joined;
    if workers <= 1 || OneMapChapters(jobs) {
      forall schedule: seq<Action>, p: Pool, title: string | Reachable(jobs, workers, schedule, p)
        ensures JobsIn(p.reported, title) <= JobsIn(jobs, title)
      {
        if workers <= 1 {
          OneWorkerKeepsChapters(jobs, workers, schedule, p, title);
        } else {
          OneMapKeepsChapters(jobs, workers, schedule, p, title);
        }
      }
      OrderAtTheEnd(jobs, workers);
    } else {
      var a, b :| a in jobs && b in jobs && a.chapter == b.chapter && a != b;
      OrderBreaks(jobs, workers, a, b);
    }
  }

  lemma OrderAtTheEnd(jobs: seq<Job>, workers: nat)
    requires KeepsChapterOrder(jobs, workers)
    ensures EndsInChapterOrder(jobs, workers)
  {
    hide Reachable, NoPanic, Joined, JobsIn;
    forall schedule: seq<Action>, p: Pool, title: string |
      Reachable(jobs, workers, schedule, p) && Joined(p) && NoPanic(p)
      ensures JobsIn(p.reported, title) == JobsIn(jobs, title)
    {
      PoolEnds(jobs, workers, schedule, p);
      EachReportedOnceIffNoPanic(jobs, workers, schedule, p);
      SameJobsAsMany(p.reported, jobs, title);
    }
  }

  lemma OrderBreaks(jobs: seq<Job>, workers: nat, a: Job, b: Job)
    requires workers >= 2 && a in jobs && b in jobs && a.chapter == b.chapter && a != b
    ensures !KeepsChapterOrder(jobs, workers) && !EndsInChapterOrder(jobs, workers)
  {
    hide Reachable, NoPanic, Joined, JobsIn;
    var i :| 0 <= i < |jobs| && jobs[i] == a;
    var k :| 0 <= k < |jobs| && jobs[k] == b;
    var schedule, p := OvertakingBreaksOrder(jobs, workers, if i < k then i else k, if i < k then k else i);
    var longer, q := CanFinish(jobs, workers, schedule, p);
    PrefixKeptIn(p.reported, q.reported, a.chapter);
  }

  // ---- The summary ----

  const BUCKETS: nat := 7

  const KEYS: seq<string> :=
    ["loaded", "missing-map", "load-error", "empty-entity-world", "timeout", "crash", "blank-capture"]

  function BucketKey(category: Category): string {
    match category
    case LoadedRendered => "loaded"
    case MissingMap => "missing-map"
    case LoadError(_) => "load-error"
    case EmptyEntityWorld => "empty-entity-world"
    case Timeout => "timeout"
    case Crash => "crash"
    case BlankCapture => "blank-capture"
  }

  /** Where a report's key stands among the summary's columns. */
  function Column(report: MapReport): nat {
    IndexIn(KEYS, BucketKey(report.category))
  }

  /** Every category has a column, so that no report escapes the summary. */
  lemma EveryReportHasAColumn(report: MapReport)
    ensures |KEYS| == BUCKETS && Column(report) < BUCKETS
  {
    var key := BucketKey(report.category);
    assert KEYS[0] == "loaded" && KEYS[1] == "missing-map" && KEYS[2] == "load-error";
    assert KEYS[3] == "empty-entity-world" && KEYS[4] == "timeout" && KEYS[5] == "crash" && KEYS[6] == "blank-capture";
    assert key in KEYS;
  }

  /** The number of reports in one column. */
  function CountIn(reports: seq<MapReport>, column: nat): nat {
    if reports == [] then 0
    else CountIn(reports[..|reports| - 1], column) + if Column(reports[|reports| - 1]) == column then 1 else 0
  }

  function Counts(reports: seq<MapReport>): seq<nat> {
    seq(BUCKETS, (column: nat) => CountIn(reports, column))
  }

  function Sum(counts: seq<nat>): nat {
    if counts == [] then 0 else Sum(counts[..|counts| - 1]) + counts[|counts| - 1]
  }

  function Filtered(reports: seq<MapReport>, title: string): seq<MapReport> {
    if reports == [] then []
    else
      var n := |reports| - 1;
      Filtered(reports[..n], title) + if reports[n].chapter == title then [reports[n]] else []
  }

  /** The columns as the summary's header names them, from the left. */
  const HEADINGS: seq<string> :=
    ["Loaded", "Missing-map", "Load-error", "Empty-entity-world", "Timeout", "Crash", "Blank-capture"]

  /** What a reader of the summary expects below a heading. */
  predicate Heads(heading: string, category: Category) {
    match category
    case LoadedRendered => heading == "Loaded"
    case MissingMap => heading == "Missing-map"
    case LoadError(_) => heading == "Load-error"
    case Timeout => heading == "Timeout"
    case Crash => heading == "Crash"
    case EmptyEntityWorld => heading == "Empty-entity-world"
    case BlankCapture => heading == "Blank-capture"
  }

  function HowMany(reports: seq<MapReport>, heading: string): nat {
    if reports == [] then 0
    else
      var n := |reports| - 1;
      HowMany(reports[..n], heading) + if Heads(heading, reports[n].category) then 1 else 0
  }

  lemma HeadingAt(column: nat)
    requires column < BUCKETS
    ensures |HEADINGS| == BUCKETS
    ensures HEADINGS[column] == match column
                                case 0 => "Loaded"
                                case 1 => "Missing-map"
                                case 2 => "Load-error"
                                case 3 => "Empty-entity-world"
                                case 4 => "Timeout"
                                case 5 => "Crash"
                                case _ => "Blank-capture"
  {
  }

  /** The column in which a category is looked for. */
  function Place(category: Category): (column: nat)
    ensures column < BUCKETS
  {
    match category
    case LoadedRendered => 0
    case MissingMap => 1
    case LoadError(_) => 2
    case EmptyEntityWorld => 3
    case Timeout => 4
    case Crash => 5
    case BlankCapture => 6
  }

  lemma HeadedAtItsPlace(category: Category, column: nat)
    requires column < BUCKETS
    ensures Heads(HEADINGS[column], category) <==> Place(category) == column
  {
    HeadingAt(column);
  }

  lemma LengthOfKey(column: nat)
    requires column < BUCKETS
    ensures |KEYS| == BUCKETS
    ensures |KEYS[column]| == match column
                              case 0 => 6
                              case 1 => 11
                              case 2 => 10
                              case 3 => 18
                              case 4 => 7
                              case 5 => 5
                              case _ => 13
  {
  }

  lemma KeyOfItsPlace(category: Category)
    ensures |KEYS| == BUCKETS && KEYS[Place(category)] == BucketKey(category)
  {
  }

  /** Every report stands in the column whose heading names its category. */
  lemma ReportsStandUnderTheirHeading(report: MapReport, column: nat)
    requires column < BUCKETS
    ensures |HEADINGS| == BUCKETS
    ensures Column(report) == column <==> Heads(HEADINGS[column], report.category)
  {
    hide Heads, Place, BucketKey;
    HeadingAt(column);
    HeadedAtItsPlace(report.category, column);
    EveryReportHasAColumn(report);
    KeyOfItsPlace(report.category);
    LengthOfKey(Place(report.category));
    LengthOfKey(Column(report));
  }

  /** A column counts the reports whose category its heading names. */
  lemma {:induction false} ColumnCountsItsHeading(reports: seq<MapReport>, column: nat)
    requires column < BUCKETS
    ensures Counts(reports)[column] == HowMany(reports, HEADINGS[column])
  {
    hide Column, Heads;
    if reports != [] {
      var n := |reports| - 1;
      ColumnCountsItsHeading(reports[..n], column);
      ReportsStandUnderTheirHeading(reports[n], column);
    }
  }

  datatype ChapterSummary = ChapterSummary(title: string, maps: seq<MapReport>)

  datatype Row = Row(title: string, counts: seq<nat>, total: nat)

  class BucketCounts {
    var counts: seq<nat>

    constructor ()
      ensures counts == Counts([])
    {
      counts := [0, 0, 0, 0, 0, 0, 0];
    }

    method Tally(reports: seq<MapReport>)
      requires counts == Counts([])
      modifies this
      ensures counts == Counts(reports)
    {
      hide Column;
      for i := 0 to |reports|
        invariant counts == Counts(reports[..i])
      {
        assert reports[..i + 1][..i] == reports[..i];
        EveryReportHasAColumn(reports[i]);
        var index := Column(reports[i]);
        if index < |KEYS| {
          counts := counts[index := counts[index] + 1];
        }
      }
      assert reports[..|reports|] == reports;
    }

    method Total() returns (total: nat)
      ensures total == Sum(counts)
    {
      total := 0;
      for i := 0 to |counts|
        invariant total == Sum(counts[..i])
      {
        assert counts[..i + 1][..i] == counts[..i];
        total := total + counts[i];
      }
      assert counts[..|counts|] == counts;
    }

    method Add(other: BucketCounts)
      requires |counts| == |other.counts| && other != this
      modifies this
      ensures |counts| == |old(counts)|
      ensures forall i | 0 <= i < |counts| :: counts[i] == old(counts)[i] + other.counts[i]
    {
      for i := 0 to |counts|
        invariant |counts| == |old(counts)|
        invariant forall j | 0 <= j < i :: counts[j] == old(counts)[j] + other.counts[j]
        invariant forall j | i <= j < |counts| :: counts[j] == old(counts)[j]
      {
        counts := counts[i := counts[i] + other.counts[i]];
      }
    }
  }

  function Grouped(reports: seq<MapReport>, titles: seq<string>): seq<ChapterSummary> {
    seq(|titles|, i requires 0 <= i < |titles| => ChapterSummary(titles[i], Filtered(reports, titles[i])))
  }

  /** The grand total of one column: the sum over the chapters. */
  function GrandIn(chapters: seq<ChapterSummary>, column: nat): nat {
    if chapters == [] then 0
    else GrandIn(chapters[..|chapters| - 1], column) + CountIn(chapters[|chapters| - 1].maps, column)
  }

  function Grand(chapters: seq<ChapterSummary>): seq<nat> {
    seq(BUCKETS, (column: nat) => GrandIn(chapters, column))
  }

  function RowOf(chapter: ChapterSummary): Row {
    Row(chapter.title, Counts(chapter.maps), Sum(Counts(chapter.maps)))
  }

  /** The rows of the summary and its grand totals. */
  method WriteSummary(chapters: seq<ChapterSummary>) returns (rows: seq<Row>, grand: Row)
    ensures |rows| == |chapters| && forall i | 0 <= i < |rows| :: rows[i] == RowOf(chapters[i])
    ensures grand == Row("Total", Grand(chapters), Sum(Grand(chapters)))
  {
    hide CountIn;
    rows := [];
    var grandTotal := new BucketCounts();
    NothingCounted();
    for i := 0 to |chapters|
      invariant |rows| == i && forall j | 0 <= j < i :: rows[j] == RowOf(chapters[j])
      invariant grandTotal.counts == Grand(chapters[..i])
    {
      assert chapters[..i + 1][..i] == chapters[..i];
      var counts := new BucketCounts();
      counts.Tally(chapters[i].maps);
      grandTotal.Add(counts);
      var total := counts.Total();
      rows := rows + [Row(chapters[i].title, counts.counts, total)];
    }
    assert chapters[..|chapters|] == chapters;
    var total := grandTotal.Total();
    grand := Row("Total", grandTotal.counts, total);
  }

  lemma NothingCounted()
    ensures Counts([]) == Grand([])
  {
  }

  // ---- What the totals add up to ----

  /** How often a title is listed. */
  function Times(titles: seq<string>, title: string): nat {
    if titles == [] then 0 else Times(titles[..|titles| - 1], title) + if titles[|titles| - 1] == title then 1 else 0
  }

  /** The reports of a column, each as often as its chapter is listed. */
  function Weighted(reports: seq<MapReport>, titles: seq<string>, column: nat): nat {
    if reports == [] then 0
    else
      var n := |reports| - 1;
      Weighted(reports[..n], titles, column)
      + if Column(reports[n]) == column then Times(titles, reports[n].chapter) else 0
  }

  lemma {:induction false} WeightedByOneMore(reports: seq<MapReport>, titles: seq<string>, title: string, column: nat)
    ensures Weighted(reports, titles + [title], column)
            == Weighted(reports, titles, column) + CountIn(Filtered(reports, title), column)
  {
    assert (titles + [title])[..|titles|] == titles;
    if reports != [] {
      var n := |reports| - 1;
      var kept := Filtered(reports[..n], title);
      WeightedByOneMore(reports[..n], titles, title, column);
      assert (kept + [reports[n]])[..|kept|] == kept;
      assert kept + [] == kept;
    }
  }

  lemma {:induction false} WeightedByNone(reports: seq<MapReport>, column: nat)
    ensures Weighted(reports, [], column) == 0
  {
    if reports != [] {
      WeightedByNone(reports[..|reports| - 1], column);
    }
  }

  lemma GrandByOneMore(reports: seq<MapReport>, titles: seq<string>, column: nat)
    requires titles != []
    ensures var n := |titles| - 1;
            GrandIn(Grouped(reports, titles), column)
            == GrandIn(Grouped(reports, titles[..n]), column) + CountIn(Filtered(reports, titles[n]), column)
  {
    hide Filtered, CountIn;
    var n := |titles| - 1;
    assert Grouped(reports, titles)[..n] == Grouped(reports, titles[..n]);
  }

  /** The grand totals count every report as often as its chapter is listed. */
  lemma {:induction false} GrandIsWeighted(reports: seq<MapReport>, titles: seq<string>, column: nat)
    ensures GrandIn(Grouped(reports, titles), column) == Weighted(reports, titles, column)
  {
    hide Filtered, CountIn, Weighted, GrandIn, Grouped;
    if titles == [] {
      WeightedByNone(reports, column);
      GrandByNone(reports, column);
    } else {
      var n := |titles| - 1;
      GrandIsWeighted(reports, titles[..n], column);
      WeightedByOneMore(reports, titles[..n], titles[n], column);
      assert titles == titles[..n] + [titles[n]];
      GrandByOneMore(reports, titles, column);
    }
  }

  lemma GrandByNone(reports: seq<MapReport>, column: nat)
    ensures GrandIn(Grouped(reports, []), column) == 0
  {
  }

  lemma {:induction false} ListedOnce(titles: seq<string>, title: string)
    requires Distinct(titles)
    ensures Times(titles, title) == if title in titles then 1 else 0
  {
    if titles != [] {
      var n := |titles| - 1;
      ListedOnce(titles[..n], title);
      assert titles == titles[..n] + [titles[n]];
    }
  }

  lemma {:induction false} WeightedOnce(reports: seq<MapReport>, titles: seq<string>, column: nat)
    requires Distinct(titles) && forall r | r in reports :: r.chapter in titles
    ensures Weighted(reports, titles, column) == CountIn(reports, column)
  {
    if reports != [] {
      var n := |reports| - 1;
      WeightedOnce(reports[..n], titles, column);
      ListedOnce(titles, reports[n].chapter);
    }
  }

  /** When the chapter titles are distinct and cover the reports, the grand
      totals are the counts over all reports. */
  lemma GrandTotalsCountEverything(reports: seq<MapReport>, titles: seq<string>)
    requires Distinct(titles) && forall r | r in reports :: r.chapter in titles
    ensures Grand(Grouped(reports, titles)) == Counts(reports)
  {
    forall column | 0 <= column < BUCKETS
      ensures GrandIn(Grouped(reports, titles), column) == CountIn(reports, column)
    {
      GrandIsWeighted(reports, titles, column);
      WeightedOnce(reports, titles, column);
    }
  }

  /** A row's total is the number of its reports: no report is in two columns
      or in none. */
  lemma {:induction false} TotalIsNumberOfReports(reports: seq<MapReport>)
    ensures Sum(Counts(reports)) == |reports|
  {
    if reports == [] {
      SumOfSeven(Counts([]));
    } else {
      hide Column;
      var n := |reports| - 1;
      TotalIsNumberOfReports(reports[..n]);
      EveryReportHasAColumn(reports[n]);
      SumOfSeven(Counts(reports[..n]));
      SumOfSeven(Counts(reports));
    }
  }

  lemma SumOfSeven(c: seq<nat>)
    requires |c| == 7
    ensures Sum(c) == c[0] + c[1] + c[2] + c[3] + c[4] + c[5] + c[6]
  {
    assert c[..6][..5] == c[..5] && c[..5][..4] == c[..4] && c[..4][..3] == c[..3];
    assert c[..3][..2] == c[..2] && c[..2][..1] == c[..1] && c[..1][..0] == [];
    assert Sum(c[..1]) == c[0];
    assert Sum(c[..2]) == c[0] + c[1];
    assert Sum(c[..3]) == c[0] + c[1] + c[2];
    assert Sum(c[..4]) == c[0] + c[1] + c[2] + c[3];
    assert Sum(c[..5]) == c[0] + c[1] + c[2] + c[3] + c[4];
    assert Sum(c[..6]) == c[0] + c[1] + c[2] + c[3] + c[4] + c[5];
  }

  // ---- The summary does not depend on the interleaving ----

  lemma {:induction false} CountSplits(a: seq<MapReport>, b: seq<MapReport>, column: nat)
    ensures CountIn(a + b, column) == CountIn(a, column) + CountIn(b, column)
  {
    if b == [] {
      assert a + b == a;
    } else {
      var n := |b| - 1;
      CountSplits(a, b[..n], column);
      assert (a + b)[..|a + b| - 1] == a + b[..n];
    }
  }

  lemma FilteredOneMore(reports: seq<MapReport>, r: MapReport, title: string)
    ensures Filtered(reports + [r], title) == Filtered(reports, title) + if r.chapter == title then [r] else []
  {
    assert (reports + [r])[..|reports|] == reports;
  }

  lemma NothingFiltered(title: string)
    ensures Filtered([], title) == []
  {
  }

  lemma {:induction false} FilteredSplits(a: seq<MapReport>, b: seq<MapReport>, title: string)
    ensures Filtered(a + b, title) == Filtered(a, title) + Filtered(b, title)
  {
    hide Filtered;
    if b == [] {
      assert a + b == a;
      NothingFiltered(title);
    } else {
      var n := |b| - 1;
      FilteredSplits(a, b[..n], title);
      FilteredOneMore(b[..n], b[n], title);
      FilteredOneMore(a + b[..n], b[n], title);
      assert b == b[..n] + [b[n]] && a + b == a + b[..n] + [b[n]];
    }
  }

  /** Taking one report out of the middle. */
  lemma CountWithout(a: seq<MapReport>, r: MapReport, b: seq<MapReport>, title: string, column: nat)
    ensures CountIn(Filtered(a + [r] + b, title), column)
            == CountIn(Filtered(a + b, title), column)
               + if r.chapter == title && Column(r) == column then 1 else 0
  {
    hide Column, CountIn, Filtered;
    FilteredSplits(a + [r], b, title);
    FilteredSplits(a, [r], title);
    FilteredSplits(a, b, title);
    FilteredOne(r, title, column);
    CountSplits(Filtered(a, title) + Filtered([r], title), Filtered(b, title), column);
    CountSplits(Filtered(a, title), Filtered([r], title), column);
    CountSplits(Filtered(a, title), Filtered(b, title), column);
  }

  lemma FilteredOne(r: MapReport, title: string, column: nat)
    ensures CountIn(Filtered([r], title), column) == if r.chapter == title && Column(r) == column then 1 else 0
  {
    hide Column;
    assert [r][..0] == [];
    assert Filtered([], title) == [] && CountIn([], column) == 0;
    if r.chapter == title {
      assert Filtered([r], title) == [r];
      assert CountIn([r], column) == if Column(r) == column then 1 else 0;
    } else {
      assert Filtered([r], title) == [];
    }
  }

  lemma {:induction false} CountOfSameReports(a: seq<MapReport>, b: seq<MapReport>, title: string, column: nat)
    requires multiset(a) == multiset(b)
    ensures CountIn(Filtered(a, title), column) == CountIn(Filtered(b, title), column)
    decreases |a|
  {
    hide Column, CountIn, Filtered;
    if a == [] {
      assert |multiset(b)| == 0;
    } else {
      var r := a[0];
      var before, after := FindFirst(a, b);
      CountOfSameReports(a[1..], before + after, title, column);
      CountWithout([], r, a[1..], title, column);
      CountWithout(before, r, after, title, column);
      assert [] + a[1..] == a[1..] && [] + [r] + a[1..] == a;
    }
  }

  function ReportsOf(jobs: seq<Job>, outcome: Job -> Category): seq<MapReport> {
    seq(|jobs|, i requires 0 <= i < |jobs| => MapReport(jobs[i].chapter, outcome(jobs[i])))
  }

  lemma {:induction false} SameJobsSameReports(a: seq<Job>, b: seq<Job>, outcome: Job -> Category)
    requires multiset(a) == multiset(b)
    ensures multiset(ReportsOf(a, outcome)) == multiset(ReportsOf(b, outcome))
    decreases |a|
  {
    if a == [] {
      assert |multiset(b)| == 0;
    } else {
      var before, after := FindFirst(a, b);
      SameJobsSameReports(a[1..], before + after, outcome);
      ReportsInParts(a, before, after, b, outcome);
    }
  }

  lemma ReportsInParts(a: seq<Job>, before: seq<Job>, after: seq<Job>, b: seq<Job>, outcome: Job -> Category)
    requires a != [] && b == before + [a[0]] + after
    requires multiset(ReportsOf(a[1..], outcome)) == multiset(ReportsOf(before + after, outcome))
    ensures multiset(ReportsOf(a, outcome)) == multiset(ReportsOf(b, outcome))
  {
    var report := [MapReport(a[0].chapter, outcome(a[0]))];
    assert ReportsOf(a, outcome) == report + ReportsOf(a[1..], outcome);
    assert ReportsOf(b, outcome) == ReportsOf(before, outcome) + report + ReportsOf(after, outcome);
    assert ReportsOf(before + after, outcome) == ReportsOf(before, outcome) + ReportsOf(after, outcome);
  }

  /** Every map's run ends the same way however it is scheduled. */
  ghost predicate Repeatable(p: Pool, outcome: Job -> Category) {
    p.reports == ReportsOf(p.reported, outcome)
  }

  /** Two smokes over the same maps, with any number of workers and any
      interleaving, make the same summary when no worker panics and each map
      behaves the same; and that summary counts every job. */
  lemma SummaryIgnoresInterleaving(
      jobs: seq<Job>, titles: seq<string>, outcome: Job -> Category,
      workers: nat, schedule: seq<Action>, p: Pool,
      otherWorkers: nat, otherSchedule: seq<Action>, q: Pool)
    requires Reachable(jobs, workers, schedule, p) && Joined(p) && NoPanic(p) && Repeatable(p, outcome)
    requires Reachable(jobs, otherWorkers, otherSchedule, q) && Joined(q) && NoPanic(q) && Repeatable(q, outcome)
    ensures forall i | 0 <= i < |titles| ::
              RowOf(Grouped(p.reports, titles)[i]) == RowOf(Grouped(q.reports, titles)[i])
    ensures Distinct(titles) && (forall job | job in jobs :: job.chapter in titles) ==>
              Grand(Grouped(p.reports, titles)) == Counts(ReportsOf(jobs, outcome))
  {
    hide Reachable, NoPanic, CountIn, Filtered, Joined, GrandIn, Distinct;
    AllReported(jobs, outcome, workers, schedule, p);
    AllReported(jobs, outcome, otherWorkers, otherSchedule, q);
    forall i | 0 <= i < |titles| ensures RowOf(Grouped(p.reports, titles)[i]) == RowOf(Grouped(q.reports, titles)[i]) {
      SameRows(p.reports, q.reports, titles[i]);
    }
    if Distinct(titles) && forall job | job in jobs :: job.chapter in titles {
      ReportsAreCovered(p.reports, jobs, outcome, titles);
      GrandTotalsCountEverything(p.reports, titles);
      SameCounts(p.reports, ReportsOf(jobs, outcome));
    }
  }

  lemma AllReported(jobs: seq<Job>, outcome: Job -> Category, workers: nat, schedule: seq<Action>, p: Pool)
    requires Reachable(jobs, workers, schedule, p) && Joined(p) && NoPanic(p) && Repeatable(p, outcome)
    ensures multiset(p.reports) == multiset(ReportsOf(jobs, outcome))
  {
    hide Reachable, NoPanic, Joined;
    PoolEnds(jobs, workers, schedule, p);
    EachReportedOnceIffNoPanic(jobs, workers, schedule, p);
    SameJobsSameReports(p.reported, jobs, outcome);
  }

  lemma SameRows(a: seq<MapReport>, b: seq<MapReport>, title: string)
    requires multiset(a) == multiset(b)
    ensures Counts(Filtered(a, title)) == Counts(Filtered(b, title))
  {
    hide CountIn, Filtered;
    forall column | 0 <= column < BUCKETS
      ensures CountIn(Filtered(a, title), column) == CountIn(Filtered(b, title), column)
    {
      CountOfSameReports(a, b, title, column);
    }
  }

  lemma ReportsAreCovered(reports: seq<MapReport>, jobs: seq<Job>, outcome: Job -> Category, titles: seq<string>)
    requires multiset(reports) == multiset(ReportsOf(jobs, outcome))
    requires forall job | job in jobs :: job.chapter in titles
    ensures forall r | r in reports :: r.chapter in titles
  {
    forall r | r in reports ensures r.chapter in titles {
      assert r in multiset(reports);
      assert r in ReportsOf(jobs, outcome);
    }
  }

  lemma {:induction false} CountOfAnyOrder(a: seq<MapReport>, b: seq<MapReport>, column: nat)
    requires multiset(a) == multiset(b)
    ensures CountIn(a, column) == CountIn(b, column)
    decreases |a|
  {
    hide Column, CountIn;
    if a == [] {
      assert |multiset(b)| == 0;
    } else {
      var r := a[0];
      var before, after := FindFirst(a, b);
      assert a == [r] + a[1..];
      CountOfAnyOrder(a[1..], before + after, column);
      CountSplits([r], a[1..], column);
      CountSplits(before + [r], after, column);
      CountSplits(before, [r], column);
      CountSplits(before, after, column);
    }
  }

  lemma SameCounts(a: seq<MapReport>, b: seq<MapReport>)
    requires multiset(a) == multiset(b)
    ensures Counts(a) == Counts(b)
  {
    forall column | 0 <= column < BUCKETS ensures CountIn(a, column) == CountIn(b, column) {
      CountOfAnyOrder(a, b, column);
    }
  }

  // ---- The verdict ----

  /** Whether the smoke exits with success. */
  predicate Passed(reports: seq<MapReport>) {
    forall r | r in reports :: r.category.LoadedRendered?
  }

  lemma PassedIsByOutcome(jobs: seq<Job>, outcome: Job -> Category)
    ensures Passed(ReportsOf(jobs, outcome)) <==> forall job | job in jobs :: outcome(job).LoadedRendered?
  {
    if Passed(ReportsOf(jobs, outcome)) {
      forall job | job in jobs ensures outcome(job).LoadedRendered? {
        var i :| 0 <= i < |jobs| && jobs[i] == job;
        assert ReportsOf(jobs, outcome)[i] in ReportsOf(jobs, outcome);
      }
    }
  }

  /** The reports of a chapter are those of the chapter's reported maps. */
  lemma {:induction false} GroupIsOfReported(jobs: seq<Job>, outcome: Job -> Category, title: string)
    ensures Filtered(ReportsOf(jobs, outcome), title) == ReportsOf(JobsIn(jobs, title), outcome)
  {
    if jobs != [] {
      var n := |jobs| - 1;
      GroupIsOfReported(jobs[..n], outcome, title);
      assert ReportsOf(jobs, outcome)[..n] == ReportsOf(jobs[..n], outcome);
    }
  }

  /** So the summary's group of a chapter is in campaign order at the end of a
      run under the same condition. */
  lemma GroupInCampaignOrder(
      jobs: seq<Job>, outcome: Job -> Category, workers: nat, schedule: seq<Action>, p: Pool, title: string)
    requires Reachable(jobs, workers, schedule, p) && Joined(p) && NoPanic(p) && Repeatable(p, outcome)
    requires workers <= 1 || OneMapChapters(jobs)
    ensures Filtered(p.reports, title) == Filtered(ReportsOf(jobs, outcome), title)
  {
    hide Reachable, NoPanic, Joined, JobsIn, Filtered;
    ChapterOrderIff(jobs, workers);
    GroupIsOfReported(p.reported, outcome, title);
    GroupIsOfReported(jobs, outcome, title);
  }

  // What a success says.

  predicate AllPass(jobs: multiset<Job>, outcome: Job -> Category) {
    forall job | job in jobs :: outcome(job).LoadedRendered?
  }

  /** The smoke's success or failure is that of the whole campaign. */
  ghost predicate VerdictIsRight(jobs: seq<Job>, outcome: Job -> Category, p: Pool) {
    Passed(p.reports) <==> AllPass(multiset(jobs), outcome)
  }

  /** In every run the verdict is right exactly when some reported map fails,
      or every map that is queued or was lost with its worker passes. */
  lemma VerdictIsRightIff(jobs: seq<Job>, outcome: Job -> Category, workers: nat, schedule: seq<Action>, p: Pool)
    requires Reachable(jobs, workers, schedule, p) && Repeatable(p, outcome)
    ensures VerdictIsRight(jobs, outcome, p) <==>
              !AllPass(multiset(p.reported), outcome) ||
              (AllPass(multiset(p.queue), outcome) && AllPass(InHand(p.workers), outcome))
  {
    hide Reachable, InHand;
    PoolKeepsJobs(jobs, workers, schedule, p);
    PassedIsByOutcome(p.reported, outcome);
    assert forall job :: job in p.reported <==> job in multiset(p.reported);
    assert forall job :: job in multiset(jobs) <==>
        job in multiset(p.queue) || job in InHand(p.workers) || job in multiset(p.reported);
  }

  /** So without a panic the verdict is always right. */
  lemma VerdictIsExact(jobs: seq<Job>, outcome: Job -> Category, workers: nat, schedule: seq<Action>, p: Pool)
    requires Reachable(jobs, workers, schedule, p) && Joined(p) && NoPanic(p) && Repeatable(p, outcome)
    ensures Passed(p.reports) <==> AllPass(multiset(jobs), outcome)
  {
    hide Reachable, InHand;
    PoolEnds(jobs, workers, schedule, p);
    PoolKeepsJobs(jobs, workers, schedule, p);
    InHandOfNone(p.workers);
    assert p.workers[0].Stopped?;
    VerdictIsRightIff(jobs, outcome, workers, schedule, p);
  }

  /** The same schedule when every map reported is loaded and rendered. */
  function AllLoaded(schedule: seq<Action>): seq<Action> {
    if schedule == [] then []
    else
      var n := |schedule| - 1;
      AllLoaded(schedule[..n])
      + [if schedule[n].Report? then Report(schedule[n].worker, LoadedRendered) else schedule[n]]
  }

  lemma {:induction false} OutcomesDoNotSchedule(jobs: seq<Job>, workers: nat, schedule: seq<Action>, p: Pool)
    returns (q: Pool)
    requires Reachable(jobs, workers, schedule, p)
    ensures Reachable(jobs, workers, AllLoaded(schedule), q)
    ensures q.queue == p.queue && q.workers == p.workers && q.reported == p.reported && Passed(q.reports)
    decreases |schedule|
  {
    if schedule == [] {
      q := p;
    } else {
      var n := |schedule| - 1;
      var before :| Reachable(jobs, workers, schedule[..n], before) && Enabled(before, schedule[n]) &&
                    p == After(before, schedule[n]);
      var start := OutcomesDoNotSchedule(jobs, workers, schedule[..n], before);
      var a := if schedule[n].Report? then Report(schedule[n].worker, LoadedRendered) else schedule[n];
      OneMoreStep(jobs, workers, AllLoaded(schedule[..n]), start, a);
      q := After(start, a);
      assert AllLoaded(schedule) == AllLoaded(schedule[..n]) + [a];
    }
  }

  lemma LoadedIsRepeatable(jobs: seq<Job>, workers: nat, schedule: seq<Action>, p: Pool, lost: Job)
    requires Reachable(jobs, workers, schedule, p) && Passed(p.reports) && lost !in p.reported
    ensures Repeatable(p, job => if job == lost then Crash else LoadedRendered)
  {
    hide Reachable;
    PoolKeepsJobs(jobs, workers, schedule, p);
    var outcome := (job: Job) => if job == lost then Crash else LoadedRendered;
    forall i | 0 <= i < |p.reports| ensures p.reports[i] == ReportsOf(p.reported, outcome)[i] {
      assert p.reports[i] in p.reports && p.reported[i] in p.reported;
    }
    assert p.reports == ReportsOf(p.reported, outcome);
  }

  lemma LostIsUnreported(jobs: seq<Job>, workers: nat, schedule: seq<Action>, p: Pool, w: nat)
    requires Distinct(jobs) && Reachable(jobs, workers, schedule, p) && w < |p.workers| && p.workers[w].Panicked?
    ensures p.workers[w].job in jobs && p.workers[w].job !in p.reported
  {
    hide Reachable, InHand;
    var lost := p.workers[w].job;
    PoolKeepsJobs(jobs, workers, schedule, p);
    InHandOfOne(p.workers, w);
    DistinctOnce(jobs, lost);
    assert InHand(p.workers)[lost] >= 1;
    assert multiset(jobs)[lost] == multiset(p.queue)[lost] + InHand(p.workers)[lost] + multiset(p.reported)[lost];
  }

  lemma {:induction false} DistinctOnce(jobs: seq<Job>, job: Job)
    requires Distinct(jobs)
    ensures multiset(jobs)[job] <= 1
  {
    if jobs != [] {
      var n := |jobs| - 1;
      DistinctOnce(jobs[..n], job);
      assert jobs == jobs[..n] + [jobs[n]];
      assert multiset(jobs) == multiset(jobs[..n]) + multiset{jobs[n]};
    }
  }

  /** When the maps are distinct, every schedule in which a worker panics hides
      a failure for some way the maps may behave. */
  lemma PanicHidesAFailure(jobs: seq<Job>, workers: nat, schedule: seq<Action>, p: Pool)
    requires Distinct(jobs) && Reachable(jobs, workers, schedule, p) && Joined(p) && !NoPanic(p)
    ensures exists outcome: Job -> Category, q: Pool ::
              && Reachable(jobs, workers, AllLoaded(schedule), q) && Joined(q) && Repeatable(q, outcome)
              && q.workers == p.workers && Passed(q.reports) && !AllPass(multiset(jobs), outcome)
  {
    hide Reachable, Passed;
    var w :| 0 <= w < |p.workers| && p.workers[w].Panicked?;
    var lost := p.workers[w].job;
    var q := OutcomesDoNotSchedule(jobs, workers, schedule, p);
    LostIsUnreported(jobs, workers, schedule, p, w);
    LoadedIsRepeatable(jobs, workers, AllLoaded(schedule), q, lost);
    var outcome := (job: Job) => if job == lost then Crash else LoadedRendered;
    assert lost in multiset(jobs) && !outcome(lost).LoadedRendered?;
  }
}

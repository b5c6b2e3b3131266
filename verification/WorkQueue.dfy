/** The work queue: worker threads, threads that add jobs, one mutex and one condition
    variable, as an interleaved step system. */
module WorkQueue {

  type Job = nat

  /** Where worker_function is: about to lock the mutex, holding it before the test of the
      list, waiting on the condition, woken but still without the mutex, holding the mutex
      with a job taken from the list, or running a job. */
  datatype Worker = Idle | Holding | Sleeping | Woken | Took(job: Job) | Running(job: Job)

  /** Where the one workqueue_add_job inside the mutex is, if any. */
  datatype Adder = None | Pushing(job: Job) | Pushed | Signalled

  datatype Owner = Nobody | AWorker(w: nat) | AnAdder

  /** `waiting_jobs`, head first; `added` and `finished` are logs. */
  datatype Sys = Sys(waiting_jobs: seq<Job>, workers: seq<Worker>, adder: Adder, jobs_mutex: Owner,
                     added: seq<Job>, finished: seq<Job>)

  datatype Step =
    | Lock(w: nat) | Wait(w: nat) | Take(w: nat) | Unlock(w: nat) | Finish(w: nat) | Relock(w: nat)
    | AddLock(job: Job) | Push | CondSignal(woken: set<nat>) | AddUnlock
    | Spurious(w: nat)

  function Start(numWorkers: nat): Sys {
    Sys([], seq(numWorkers, i => Idle), None, Nobody, [], [])
  }

  ghost predicate Sleeps(s: Sys, w: nat) {
    w < |s.workers| && s.workers[w] == Sleeping
  }

  /** pthread_cond_signal unblocks at least one of the threads that wait, if any do. */
  ghost predicate Enabled(s: Sys, step: Step) {
    match step
    case Lock(w) => w < |s.workers| && s.workers[w] == Idle && s.jobs_mutex == Nobody
    case Wait(w) => w < |s.workers| && s.workers[w] == Holding && s.waiting_jobs == []
    case Take(w) => w < |s.workers| && s.workers[w] == Holding && s.waiting_jobs != []
    case Unlock(w) => w < |s.workers| && s.workers[w].Took?
    case Finish(w) => w < |s.workers| && s.workers[w].Running?
    case Relock(w) => w < |s.workers| && s.workers[w] == Woken && s.jobs_mutex == Nobody
    case AddLock(job) => s.jobs_mutex == Nobody && job !in s.added
    case Push => s.adder.Pushing?
    case CondSignal(woken) =>
      && s.adder.Pushed? && (forall w | w in woken :: Sleeps(s, w))
      && ((exists w :: Sleeps(s, w)) ==> woken != {})
    case AddUnlock => s.adder.Signalled?
    case Spurious(w) => Sleeps(s, w)
  }

  function Wake(workers: seq<Worker>, woken: set<nat>): seq<Worker> {
    seq(|workers|, i requires 0 <= i < |workers| => if i in woken then Woken else workers[i])
  }

  ghost function Do(s: Sys, step: Step): Sys
    requires Enabled(s, step)
  {
    match step
    case Lock(w) => s.(workers := s.workers[w := Holding], jobs_mutex := AWorker(w))
    case Relock(w) => s.(workers := s.workers[w := Holding], jobs_mutex := AWorker(w))
    case Wait(w) => s.(workers := s.workers[w := Sleeping], jobs_mutex := Nobody)
    case Take(w) => s.(workers := s.workers[w := Took(s.waiting_jobs[0])], waiting_jobs := s.waiting_jobs[1..])
    case Unlock(w) => s.(workers := s.workers[w := Running(s.workers[w].job)], jobs_mutex := Nobody)
    case Finish(w) => s.(workers := s.workers[w := Idle], finished := s.finished + [s.workers[w].job])
    case AddLock(job) => s.(adder := Pushing(job), jobs_mutex := AnAdder)
    case Push => s.(adder := Pushed, waiting_jobs := [s.adder.job] + s.waiting_jobs, added := s.added + [s.adder.job])
    case CondSignal(woken) => s.(adder := Signalled, workers := Wake(s.workers, woken))
    case AddUnlock => s.(adder := None, jobs_mutex := Nobody)
    case Spurious(w) => s.(workers := s.workers[w := Woken])
  }

  // ----- counting -----

  function Inside(w: Worker): bool {
    w.Holding? || w.Took?
  }

  /** Workers that will look at the list before they sleep. */
  function IsAwake(w: Worker): nat {
    if w.Idle? || w.Holding? || w.Woken? then 1 else 0
  }

  function Awake(ws: seq<Worker>): nat {
    if ws == [] then 0 else IsAwake(ws[0]) + Awake(ws[1..])
  }

  function HoldsJob(w: Worker, job: Job): nat {
    if (w.Took? || w.Running?) && w.job == job then 1 else 0
  }

  /** How many workers hold `job`. */
  function Held(ws: seq<Worker>, job: Job): nat {
    if ws == [] then 0 else HoldsJob(ws[0], job) + Held(ws[1..], job)
  }

  lemma {:induction false} AwakeUpdate(ws: seq<Worker>, w: nat, x: Worker)
    requires w < |ws|
    ensures Awake(ws[w := x]) == Awake(ws) - IsAwake(ws[w]) + IsAwake(x)
  {
    if w == 0 {
      assert ws[w := x][1..] == ws[1..];
    } else {
      AwakeUpdate(ws[1..], w - 1, x);
      assert ws[w := x][1..] == ws[1..][w-1 := x];
    }
  }

  lemma {:induction false} HeldUpdate(ws: seq<Worker>, w: nat, x: Worker, job: Job)
    requires w < |ws|
    ensures Held(ws[w := x], job) == Held(ws, job) - HoldsJob(ws[w], job) + HoldsJob(x, job)
  {
    if w == 0 {
      assert ws[w := x][1..] == ws[1..];
    } else {
      HeldUpdate(ws[1..], w - 1, x, job);
      assert ws[w := x][1..] == ws[1..][w-1 := x];
    }
  }

  /** The workers but the first. */
  function Later(woken: set<nat>): set<nat> {
    set w | w in woken && w > 0 :: w - 1
  }

  lemma WakeRest(ws: seq<Worker>, woken: set<nat>)
    requires ws != []
    ensures Wake(ws, woken)[1..] == Wake(ws[1..], Later(woken))
    ensures woken == {} || 0 in woken || Later(woken) != {}
    ensures forall w | w in Later(woken) :: w + 1 in woken
  {
    if woken != {} && 0 !in woken {
      var w :| w in woken;
      assert w - 1 in Later(woken);
    }
    forall i | 0 <= i < |ws| - 1 ensures Wake(ws, woken)[1..][i] == Wake(ws[1..], Later(woken))[i] {
      assert i + 1 in woken ==> i in Later(woken);
    }
  }

  /** Waking sleepers makes them awake and takes no job from anybody. */
  lemma {:induction false} WakeCounts(ws: seq<Worker>, woken: set<nat>)
    requires forall w | w in woken :: w < |ws| && ws[w] == Sleeping
    ensures Awake(Wake(ws, woken)) >= Awake(ws) + (if woken == {} then 0 else 1)
    ensures Rank(Wake(ws, woken)) <= Rank(ws) + 2 * |ws|
  {
    hide Later;
    if ws != [] {
      WakeRest(ws, woken);
      WakeCounts(ws[1..], Later(woken));
    }
  }

  lemma {:induction false} WakeHeld(ws: seq<Worker>, woken: set<nat>, job: Job)
    requires forall w | w in woken :: w < |ws| && ws[w] == Sleeping
    ensures Held(Wake(ws, woken), job) == Held(ws, job)
  {
    hide Later;
    if ws != [] {
      WakeRest(ws, woken);
      WakeHeld(ws[1..], Later(woken), job);
    }
  }

  // ----- safety -----

  /** The mutex has one owner, and only its owner is inside. */
  ghost predicate Exclusive(s: Sys) {
    && (forall w | 0 <= w < |s.workers| :: Inside(s.workers[w]) <==> s.jobs_mutex == AWorker(w))
    && (s.adder.None? <==> s.jobs_mutex != AnAdder)
    && (s.jobs_mutex.AWorker? ==> s.jobs_mutex.w < |s.workers|)
  }

  /** The places where `job` is: on the list, in the hands of a worker, or finished. */
  function Places(s: Sys, job: Job): nat {
    multiset(s.waiting_jobs)[job] + Held(s.workers, job) + multiset(s.finished)[job]
  }

  /** Every job that was added is in exactly one of them, once. */
  ghost predicate Conserved(s: Sys) {
    && (forall job :: Places(s, job) == if job in s.added then 1 else 0)
    && (s.adder.Pushing? ==> s.adder.job !in s.added)
  }

  /** While a worker sleeps, there are at least as many awake workers without a job as jobs
      waiting, not counting a job whose signal is still to come. */
  ghost predicate NoLostWakeup(s: Sys) {
    (exists w :: Sleeps(s, w)) ==> |s.waiting_jobs| <= Awake(s.workers) + (if s.adder.Pushed? then 1 else 0)
  }

  ghost predicate Safe(s: Sys) {
    Exclusive(s) && Conserved(s) && NoLostWakeup(s)
  }

  lemma StartSafe(numWorkers: nat)
    ensures Safe(Start(numWorkers))
  {
    forall job ensures Places(Start(numWorkers), job) == 0 {
      NothingHeld(Start(numWorkers).workers, job);
    }
  }

  lemma {:induction false} NothingHeld(ws: seq<Worker>, job: Job)
    requires forall i | 0 <= i < |ws| :: !ws[i].Took? && !ws[i].Running?
    ensures Held(ws, job) == 0
  {
    if ws != [] {
      NothingHeld(ws[1..], job);
    }
  }

  /** Worker `w` goes on, and the job it held until now, or holds from now on, comes from
      and goes to the list and the log. */
  lemma WorkerMoves(s: Sys, s': Sys, w: nat, job: Job)
    requires w < |s.workers| == |s'.workers| && s'.workers == s.workers[w := s'.workers[w]]
    requires HoldsJob(s.workers[w], job) + multiset(s.waiting_jobs)[job] + multiset(s.finished)[job]
             == HoldsJob(s'.workers[w], job) + multiset(s'.waiting_jobs)[job] + multiset(s'.finished)[job]
    ensures Places(s', job) == Places(s, job)
  {
    HeldUpdate(s.workers, w, s'.workers[w], job);
  }

  /** A step moves a job from one place to the next, or adds one. */
  lemma StepPlaces(s: Sys, step: Step, job: Job)
    requires Enabled(s, step)
    ensures Places(Do(s, step), job) == Places(s, job) + if step.Push? && s.adder.job == job then 1 else 0
  {
    match step {
      case Push => FirstOccurs([s.adder.job] + s.waiting_jobs, job);
      case CondSignal(woken) => WakeHeld(s.workers, woken, job);
      case AddLock(_) =>
      case AddUnlock =>
      case _ => WorkerPlaces(s, step, job);
    }
  }

  lemma WorkerPlaces(s: Sys, step: Step, job: Job)
    requires Enabled(s, step) && !step.Push? && !step.CondSignal? && !step.AddLock? && !step.AddUnlock?
    ensures Places(Do(s, step), job) == Places(s, job)
  {
    hide Held, Places;
    if step.Take? {
      FirstOccurs(s.waiting_jobs, job);
    }
    if step.Finish? {
      LastOccurs(s.finished, s.workers[step.w].job, job);
    }
    WorkerMoves(s, Do(s, step), step.w, job);
  }

  lemma FirstOccurs(jobs: seq<Job>, job: Job)
    requires jobs != []
    ensures multiset(jobs)[job] == multiset(jobs[1..])[job] + if jobs[0] == job then 1 else 0
  {
    assert jobs == [jobs[0]] + jobs[1..];
  }

  lemma LastOccurs(jobs: seq<Job>, last: Job, job: Job)
    ensures multiset(jobs + [last])[job] == multiset(jobs)[job] + if last == job then 1 else 0
  {
  }

  lemma StepConserved(s: Sys, step: Step)
    requires Conserved(s) && Enabled(s, step)
    ensures Conserved(Do(s, step))
  {
    hide Places;
    var s' := Do(s, step);
    forall job ensures Places(s', job) == if job in s'.added then 1 else 0 {
      StepPlaces(s, step, job);
    }
  }

  lemma StepExclusive(s: Sys, step: Step)
    requires Exclusive(s) && Enabled(s, step)
    ensures Exclusive(Do(s, step))
  {
  }

  lemma StepNoLostWakeup(s: Sys, step: Step)
    requires Exclusive(s) && NoLostWakeup(s) && Enabled(s, step)
    ensures NoLostWakeup(Do(s, step))
  {
    var s' := Do(s, step);
    StillSleeps(s, step);
    match step {
      case Lock(w) => AwakeUpdate(s.workers, w, Holding);
      case Relock(w) => AwakeUpdate(s.workers, w, Holding);
      case Wait(w) => AwakeUpdate(s.workers, w, Sleeping);
      case Spurious(w) => AwakeUpdate(s.workers, w, Woken);
      case Take(w) => AwakeUpdate(s.workers, w, Took(s.waiting_jobs[0]));
      case Unlock(w) => AwakeUpdate(s.workers, w, Running(s.workers[w].job));
      case Finish(w) => AwakeUpdate(s.workers, w, Idle);
      case CondSignal(woken) => WakeCounts(s.workers, woken);
      case _ =>
    }
  }

  /** Only waiting puts a worker to sleep. */
  lemma StillSleeps(s: Sys, step: Step)
    requires Enabled(s, step)
    ensures forall w | Sleeps(Do(s, step), w) :: Sleeps(s, w) || step == Wait(w)
  {
  }

  lemma StepSafe(s: Sys, step: Step)
    requires Safe(s) && Enabled(s, step)
    ensures Safe(Do(s, step))
  {
    hide Exclusive, Conserved, NoLostWakeup, Do;
    StepExclusive(s, step);
    StepConserved(s, step);
    StepNoLostWakeup(s, step);
  }

  ghost predicate Possible(s: Sys, steps: seq<Step>)
    decreases |steps|
  {
    steps == [] || (Enabled(s, steps[0]) && Possible(Do(s, steps[0]), steps[1..]))
  }

  ghost function After(s: Sys, steps: seq<Step>): Sys
    requires Possible(s, steps)
    decreases |steps|
  {
    if steps == [] then s else After(Do(s, steps[0]), steps[1..])
  }

  lemma {:induction false} RunSafe(s: Sys, steps: seq<Step>)
    requires Safe(s) && Possible(s, steps)
    ensures Safe(After(s, steps))
    decreases |steps|
  {
    hide Safe, Enabled, Do;
    if steps != [] {
      StepSafe(s, steps[0]);
      RunSafe(Do(s, steps[0]), steps[1..]);
    }
  }

  /** Over every interleaving, spurious wakeups included: a job that was added is in exactly
      one place, once, so no job is run twice and none vanishes. */
  lemma EveryJobOnce(numWorkers: nat, steps: seq<Step>, job: Job)
    requires Possible(Start(numWorkers), steps)
    ensures var s := After(Start(numWorkers), steps);
            multiset(s.waiting_jobs)[job] + Held(s.workers, job) + multiset(s.finished)[job] == if job in s.added then 1 else 0
  {
    hide Exclusive, NoLostWakeup, Enabled, Do, Held;
    StartSafe(numWorkers);
    RunSafe(Start(numWorkers), steps);
    assert Places(After(Start(numWorkers), steps), job) == if job in After(Start(numWorkers), steps).added then 1 else 0;
  }

  /** And whenever a worker sleeps while no job is being added, at least as many workers are
      awake and about to look at the list as jobs are waiting on it. */
  lemma NoWakeupLost(numWorkers: nat, steps: seq<Step>, w: nat)
    requires Possible(Start(numWorkers), steps) && Sleeps(After(Start(numWorkers), steps), w)
    ensures var s := After(Start(numWorkers), steps);
            !s.adder.Pushed? ==> |s.waiting_jobs| <= Awake(s.workers)
  {
    hide Exclusive, Conserved, Enabled, Do, Sleeps;
    StartSafe(numWorkers);
    RunSafe(Start(numWorkers), steps);
  }

  /** A signal puts exactly the chosen sleepers back in line for the mutex, and a spurious
      wakeup its one; neither touches a job. */
  lemma Wakeups(s: Sys, step: Step, w: nat)
    requires Enabled(s, step) && (step.CondSignal? || step.Spurious?) && w < |s.workers|
    ensures var s' := Do(s, step);
            var woken := if step.CondSignal? then w in step.woken else w == step.w;
            && s'.waiting_jobs == s.waiting_jobs && s'.jobs_mutex == s.jobs_mutex && |s'.workers| == |s.workers|
            && s'.workers[w] == if woken then Woken else s.workers[w]
  {
  }

  // ----- in which order jobs are taken -----

  ghost predicate AddedAfter(added: seq<Job>, a: Job, b: Job) {
    exists i, j | 0 <= j < i < |added| :: added[i] == a && added[j] == b
  }

  /** The jobs on the list were all added, and each one after those behind it. */
  ghost predicate NewestFirst(s: Sys) {
    && (forall job | job in s.waiting_jobs :: job in s.added)
    && (forall i, j | 0 <= i < j < |s.waiting_jobs| :: AddedAfter(s.added, s.waiting_jobs[i], s.waiting_jobs[j]))
  }

  lemma StepNewest(s: Sys, step: Step)
    requires NewestFirst(s) && Enabled(s, step)
    ensures NewestFirst(Do(s, step))
  {
    hide AddedAfter;
    if step.Push? {
      PushNewest(s);
    }
  }

  lemma PushNewest(s: Sys)
    requires NewestFirst(s) && s.adder.Pushing?
    ensures NewestFirst(Do(s, Push))
  {
    hide AddedAfter;
    var s' := Do(s, Push);
    forall i, j | 0 <= i < j < |s'.waiting_jobs| ensures AddedAfter(s'.added, s'.waiting_jobs[i], s'.waiting_jobs[j]) {
      if i == 0 {
        AddedLast(s.added, s.adder.job, s.waiting_jobs[j-1]);
      } else {
        StillAfter(s.added, s.adder.job, s.waiting_jobs[i-1], s.waiting_jobs[j-1]);
      }
    }
  }

  lemma AddedLast(added: seq<Job>, job: Job, b: Job)
    requires b in added
    ensures AddedAfter(added + [job], job, b)
  {
    var j :| 0 <= j < |added| && added[j] == b;
    assert (added + [job])[|added|] == job && (added + [job])[j] == b;
  }

  lemma StillAfter(added: seq<Job>, job: Job, a: Job, b: Job)
    requires AddedAfter(added, a, b)
    ensures AddedAfter(added + [job], a, b)
  {
    var i, j :| 0 <= j < i < |added| && added[i] == a && added[j] == b;
    assert (added + [job])[i] == a && (added + [job])[j] == b;
  }

  lemma {:induction false} RunNewest(s: Sys, steps: seq<Step>)
    requires NewestFirst(s) && Possible(s, steps)
    ensures NewestFirst(After(s, steps))
    decreases |steps|
  {
    hide NewestFirst, Enabled, Do;
    if steps != [] {
      StepNewest(s, steps[0]);
      RunNewest(Do(s, steps[0]), steps[1..]);
    }
  }

  /** Over every interleaving a worker takes the job that was added last of those that wait,
      and leaves the others as they are. */
  lemma NewestIsTaken(numWorkers: nat, steps: seq<Step>, w: nat)
    requires Possible(Start(numWorkers), steps) && Enabled(After(Start(numWorkers), steps), Take(w))
    ensures var s := After(Start(numWorkers), steps);
            var s' := Do(s, Take(w));
            && s.workers[w] == Holding && s'.workers[w].Took? && s.waiting_jobs == [s'.workers[w].job] + s'.waiting_jobs
            && forall job | job in s'.waiting_jobs :: AddedAfter(s.added, s'.workers[w].job, job)
  {
    hide AddedAfter;
    RunNewest(Start(numWorkers), steps);
  }

  // ----- progress -----

  /** How far the workers and the adder are from having nothing to do. */
  function RankOf(w: Worker): nat {
    match w
    case Sleeping => 0
    case Holding => 1
    case Idle => 2
    case Woken => 2
    case Running(_) => 3
    case Took(_) => 4
  }

  function Rank(ws: seq<Worker>): nat {
    if ws == [] then 0 else RankOf(ws[0]) + Rank(ws[1..])
  }

  lemma {:induction false} RankUpdate(ws: seq<Worker>, w: nat, x: Worker)
    requires w < |ws|
    ensures Rank(ws[w := x]) == Rank(ws) - RankOf(ws[w]) + RankOf(x)
  {
    if w == 0 {
      assert ws[w := x][1..] == ws[1..];
    } else {
      RankUpdate(ws[1..], w - 1, x);
      assert ws[w := x][1..] == ws[1..][w-1 := x];
    }
  }

  function AdderRank(a: Adder, n: nat): nat {
    match a
    case None => 0
    case Signalled => 1
    case Pushed => 2 * n + 2
    case Pushing(_) => 2 * n + 7
  }

  function Measure(s: Sys): nat {
    4 * |s.waiting_jobs| + Rank(s.workers) + AdderRank(s.adder, |s.workers|)
  }

  /** Work comes only from new jobs and spurious wakeups: every other step uses some up. */
  lemma StepUsesUp(s: Sys, step: Step)
    requires Enabled(s, step) && !step.AddLock? && !step.Spurious?
    ensures Measure(Do(s, step)) < Measure(s)
  {
    match step {
      case Lock(w) => RankUpdate(s.workers, w, Holding);
      case Relock(w) => RankUpdate(s.workers, w, Holding);
      case Wait(w) => RankUpdate(s.workers, w, Sleeping);
      case Take(w) => RankUpdate(s.workers, w, Took(s.waiting_jobs[0]));
      case Unlock(w) => RankUpdate(s.workers, w, Running(s.workers[w].job));
      case Finish(w) => RankUpdate(s.workers, w, Idle);
      case CondSignal(woken) => WakeCounts(s.workers, woken);
      case _ =>
    }
  }

  lemma {:induction false} RunUsesUp(s: Sys, steps: seq<Step>)
    requires Possible(s, steps) && forall step | step in steps :: !step.AddLock? && !step.Spurious?
    ensures |steps| <= Measure(s)
    decreases |steps|
  {
    hide Enabled, Do, Measure;
    if steps != [] {
      assert steps[0] in steps;
      StepUsesUp(s, steps[0]);
      RunUsesUp(Do(s, steps[0]), steps[1..]);
    }
  }

  /** No step can be taken but adding a job or waking up for no reason. */
  ghost predicate Quiet(s: Sys) {
    forall step :: Enabled(s, step) ==> step.AddLock? || step.Spurious?
  }

  ghost function Sleepers(s: Sys): set<nat> {
    set w | 0 <= w < |s.workers| && Sleeps(s, w)
  }

  lemma SignalEnabled(s: Sys)
    requires s.adder.Pushed?
    ensures Enabled(s, CondSignal(Sleepers(s)))
  {
    if w :| Sleeps(s, w) {
      assert w in Sleepers(s);
    }
  }

  lemma InsideEnabled(s: Sys, w: nat)
    requires w < |s.workers| && Inside(s.workers[w])
    ensures Enabled(s, Wait(w)) || Enabled(s, Take(w)) || Enabled(s, Unlock(w))
  {
  }

  lemma QuietMeansAsleep(s: Sys)
    requires Exclusive(s) && Quiet(s)
    ensures s.adder.None? && forall w | 0 <= w < |s.workers| :: s.workers[w] == Sleeping
  {
    assert !Enabled(s, Push) && !Enabled(s, AddUnlock) && !Enabled(s, CondSignal(Sleepers(s)));
    if s.adder.Pushed? {
      SignalEnabled(s);
    }
    if s.jobs_mutex.AWorker? {
      InsideEnabled(s, s.jobs_mutex.w);
    }
    forall w | 0 <= w < |s.workers| ensures s.workers[w] == Sleeping {
      assert !Enabled(s, Lock(w)) && !Enabled(s, Relock(w)) && !Enabled(s, Finish(w));
    }
  }

  lemma {:induction false} AllAsleep(ws: seq<Worker>)
    requires forall w | 0 <= w < |ws| :: ws[w] == Sleeping
    ensures Awake(ws) == 0
  {
    if ws != [] {
      AllAsleep(ws[1..]);
    }
  }

  /** Once no more jobs come, the queue runs dry: after boundedly many steps nothing but a
      spurious wakeup can happen, and then every job that was added has finished. */
  lemma QuietMeansFinished(numWorkers: nat, steps: seq<Step>)
    requires numWorkers > 0 && Possible(Start(numWorkers), steps)
    requires Quiet(After(Start(numWorkers), steps))
    ensures var s := After(Start(numWorkers), steps);
            s.waiting_jobs == [] && forall job | job in s.added :: multiset(s.finished)[job] == 1
  {
    hide Enabled, Do;
    StartSafe(numWorkers);
    RunSafe(Start(numWorkers), steps);
    RunWorkers(Start(numWorkers), steps);
    var s := After(Start(numWorkers), steps);
    QuietMeansAsleep(s);
    AllAsleep(s.workers);
    assert Sleeps(s, 0);
    forall job | job in s.added ensures multiset(s.finished)[job] == 1 {
      NothingHeld(s.workers, job);
      assert Places(s, job) == 1;
    }
  }

  lemma {:induction false} RunWorkers(s: Sys, steps: seq<Step>)
    requires Possible(s, steps)
    ensures |After(s, steps).workers| == |s.workers|
    decreases |steps|
  {
    if steps != [] {
      RunWorkers(Do(s, steps[0]), steps[1..]);
    }
  }

  // ----- the list -----

  /** `struct job`, as far as the list goes. */
  class JobNode {
    var prev: JobNode?
    var next: JobNode?

    constructor ()
    {
      prev, next := null, null;
    }
  }

  /** The list behind waiting_jobs.  LL_ADD never sets the prev of the node that was the
      head, so all of them stay null. */
  class JobList {
    var list: JobNode?
    ghost var elems: seq<JobNode>

    ghost predicate Valid()
      reads this, elems
    {
      && (forall i, j | 0 <= i < j < |elems| :: elems[i] != elems[j])
      && list == (if elems == [] then null else elems[0])
      && (forall i {:trigger elems[i].next} | 0 <= i < |elems| ::
            elems[i].next == if i + 1 < |elems| then elems[i+1] else null)
      && (forall i {:trigger elems[i].prev} | 0 <= i < |elems| :: elems[i].prev == null)
    }

    constructor ()
      ensures Valid() && elems == []
    {
      list, elems := null, [];
    }

    /** LL_ADD */
    method Add(item: JobNode)
      requires Valid() && item !in elems
      modifies this, item
      ensures Valid() && elems == [item] + old(elems)
    {
      item.prev := null;
      item.next := list;
      list := item;
      elems := [item] + elems;
    }

    /** The two assignments of LL_REMOVE to the neighbours. */
    static method Bridge(item: JobNode)
      requires item.prev != item && item.next != item && (item.prev != null ==> item.prev != item.next)
      modifies item.prev, item.next
      ensures item.prev != null ==> item.prev.next == item.next && item.prev.prev == old(item.prev.prev)
      ensures item.next != null ==> item.next.prev == item.prev && item.next.next == old(item.next.next)
    {
      if item.prev != null {
        item.prev.next := item.next;
      }
      if item.next != null {
        item.next.prev := item.prev;
      }
    }

    /** LL_REMOVE of the node at position `k`.  It is right for the head, the only node that
        worker_function removes; any other node stays, and takes what follows it along. */
    method Remove(item: JobNode, ghost k: nat)
      requires Valid() && k < |elems| && item == elems[k]
      modifies this, elems
      ensures Valid() && elems == if k == 0 then old(elems)[1..] else old(elems)[..k + 1]
    {
      Bridge(item);
      if list == item {
        list := item.next;
      }
      item.next := null;
      item.prev := null;
      elems := if k == 0 then elems[1..] else elems[..k + 1];
    }
  }

  function DropAt<T>(s: seq<T>, k: nat): seq<T>
    requires k < |s|
  {
    s[..k] + s[k+1..]
  }

  /** LL_REMOVE takes out its node, and nothing else, exactly if the node is the head. */
  lemma RemoveRightOnlyForHead(elems: seq<JobNode>, k: nat)
    requires (forall i, j | 0 <= i < j < |elems| :: elems[i] != elems[j]) && k < |elems|
    ensures (if k == 0 then elems[1..] else elems[..k + 1]) == DropAt(elems, k) <==> k == 0
  {
    if k > 0 {
      assert elems[..k + 1][k] == elems[k];
      if |DropAt(elems, k)| > k {
        assert DropAt(elems, k)[k] == elems[k + 1];
      }
    }
  }
}

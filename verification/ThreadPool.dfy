/** The thread pool as a step system: workers that sleep on a condition variable, adders that
    notify after releasing the lock, and a destructor that stops, wakes everyone and joins. */
module ThreadPool {
  import opened Counting

  type Task = nat

  // ---- the critical sections ----

  datatype Taken = Sleep | Exit | Start(task: Task)

  /** What a worker does once it holds the lock (src/ThreadPool.cpp:14-23). */
  function Take(tasks: seq<Task>, stop: bool): Taken {
    if tasks != [] then Start(tasks[0]) else if stop then Exit else Sleep
  }

  /** The queue after that decision. */
  function Left(tasks: seq<Task>): seq<Task> {
    if tasks == [] then [] else tasks[1..]
  }

  /** The queue after an `add`: nothing is queued once the pool is stopped. */
  function Queued(tasks: seq<Task>, stop: bool, task: Task): seq<Task> {
    if stop then tasks else tasks + [task]
  }

  /** The shared fields; each method is one critical section. */
  class Queue {
    var tasks: seq<Task>
    var stop: bool

    constructor ()
      ensures tasks == [] && !stop
    {
      tasks, stop := [], false;
    }

    /** src/include/ThreadPool.h:40-50; false stands for the exception. */
    method Push(task: Task) returns (accepted: bool)
      modifies this`tasks
      ensures accepted == !stop
      ensures tasks == Queued(old(tasks), stop, task)
    {
      if stop {
        return false;
      }
      tasks := tasks + [task];
      return true;
    }

    method Pop() returns (r: Taken)
      modifies this`tasks
      ensures r == Take(old(tasks), stop) && tasks == Left(old(tasks))
    {
      if !(stop || tasks != []) {
        return Sleep;
      }
      if stop && tasks == [] {
        return Exit;
      }
      var task := tasks[0];
      tasks := tasks[1..];
      return Start(task);
    }

    method Stop()
      modifies this`stop
      ensures stop
    {
      stop := true;
    }
  }

  // ---- the system ----

  datatype Worker =
    | AtLock              // about to take the lock
    | Sleeping            // in cv_.wait, not signalled
    | Signalled           // woken, about to take the lock again
    | Running(task: Task)
    | Exited

  datatype Pool = Pool(
    tasks: seq<Task>, stop: bool,
    workers: seq<Worker>,
    notifies: nat,          // adders between unlock and notify_one
    stopping: bool,         // the destructor, between unlock and notify_all
    accepted: seq<Task>, started: seq<Task>, finished: seq<Task>, rejected: nat)

  function Initial(size: nat): Pool {
    Pool([], false, seq(size, _ => AtLock), 0, false, [], [], [], 0)
  }

  datatype Step =
    | Add(task: Task)       // push under the lock, or throw
    | NotifyOne(i: nat)     // wakes worker i if it sleeps; nobody if no one does
    | Spurious(i: nat)
    | Check(i: nat)         // take the lock, test the predicate, act
    | Finish(i: nat)        // the task returns
    | Stop
    | NotifyAll

  predicate Asleep(ws: seq<Worker>) { exists i :: 0 <= i < |ws| && ws[i].Sleeping? }

  predicate Enabled(p: Pool, step: Step) {
    match step
    case Add(_) => true
    case NotifyOne(i) => p.notifies > 0 && (Asleep(p.workers) ==> i < |p.workers| && p.workers[i].Sleeping?)
    case Spurious(i) => i < |p.workers| && p.workers[i].Sleeping?
    case Check(i) => i < |p.workers| && (p.workers[i].AtLock? || p.workers[i].Signalled?)
    case Finish(i) => i < |p.workers| && p.workers[i].Running?
    case Stop => !p.stop
    case NotifyAll => p.stopping
  }

  function WakeAll(ws: seq<Worker>): (r: seq<Worker>)
    ensures |r| == |ws|
    ensures forall i :: 0 <= i < |ws| ==> r[i] == if ws[i].Sleeping? then Signalled else ws[i]
  {
    seq(|ws|, i requires 0 <= i < |ws| => if ws[i].Sleeping? then Signalled else ws[i])
  }

  function Apply(p: Pool, step: Step): Pool
    requires Enabled(p, step)
  {
    match step
    case Add(task) =>
      var q := p.(tasks := Queued(p.tasks, p.stop, task));
      if p.stop then q.(rejected := p.rejected + 1)
      else q.(accepted := p.accepted + [task], notifies := p.notifies + 1)
    case NotifyOne(i) =>
      var q := p.(notifies := p.notifies - 1);
      if Asleep(p.workers) then q.(workers := p.workers[i := Signalled]) else q
    case Spurious(i) => p.(workers := p.workers[i := Signalled])
    case Check(i) =>
      var q := p.(tasks := Left(p.tasks));
      (match Take(p.tasks, p.stop)
       case Start(task) => q.(workers := p.workers[i := Running(task)], started := p.started + [task])
       case Exit => q.(workers := p.workers[i := Exited])
       case Sleep => q.(workers := p.workers[i := Sleeping]))
    case Finish(i) =>
      p.(workers := p.workers[i := AtLock], finished := p.finished + [p.workers[i].task])
    case Stop => p.(stop := true, stopping := true)
    case NotifyAll => p.(stopping := false, workers := WakeAll(p.workers))
  }

  // ---- counting ----

  function Signals(ws: seq<Worker>): nat {
    if ws == [] then 0 else (if ws[0].Signalled? then 1 else 0) + Signals(ws[1..])
  }

  /** How many workers are running task `t`. */
  function Runs(ws: seq<Worker>, t: Task): nat {
    if ws == [] then 0 else One(ws[0] == Running(t)) + Runs(ws[1..], t)
  }

  lemma {:induction false} SignalsUpdate(ws: seq<Worker>, i: nat, w: Worker)
    requires i < |ws|
    ensures Signals(ws[i := w]) + One(ws[i].Signalled?) == Signals(ws) + One(w.Signalled?)
  {
    if i == 0 {
      assert ws[i := w][1..] == ws[1..];
    } else {
      assert ws[i := w][1..] == ws[1..][i - 1 := w];
      SignalsUpdate(ws[1..], i - 1, w);
    }
  }

  lemma {:induction false} RunsUpdate(ws: seq<Worker>, i: nat, w: Worker, t: Task)
    requires i < |ws|
    ensures Runs(ws[i := w], t) + One(ws[i] == Running(t)) == Runs(ws, t) + One(w == Running(t))
  {
    if i == 0 {
      assert ws[i := w][1..] == ws[1..];
    } else {
      assert ws[i := w][1..] == ws[1..][i - 1 := w];
      RunsUpdate(ws[1..], i - 1, w, t);
    }
  }

  lemma {:induction false} RunsWakeAll(ws: seq<Worker>, t: Task)
    ensures Runs(WakeAll(ws), t) == Runs(ws, t)
  {
    if ws != [] {
      assert WakeAll(ws)[1..] == WakeAll(ws[1..]);
      RunsWakeAll(ws[1..], t);
    }
  }

  lemma {:induction false} NoneRunning(ws: seq<Worker>, t: Task)
    requires forall i :: 0 <= i < |ws| ==> !ws[i].Running?
    ensures Runs(ws, t) == 0
  {
    if ws != [] {
      NoneRunning(ws[1..], t);
    }
  }

  // ---- the invariant ----

  /** Work conservation: a worker sleeps only while every queued task has a notify or a
      woken worker on its way. */
  predicate Conserving(p: Pool) {
    Asleep(p.workers) ==> |p.tasks| <= p.notifies + Signals(p.workers)
  }

  /** Once stop is set nobody sleeps, unless notify_all is still to come. */
  predicate StopHeard(p: Pool) {
    && (p.stopping ==> p.stop)
    && (p.stop && !p.stopping ==> !Asleep(p.workers))
  }

  /** Accepted tasks leave the queue in order, each started once; what was started is
      running or finished. */
  ghost predicate Accounted(p: Pool) {
    && p.accepted == p.started + p.tasks
    && forall t: Task :: Count(p.started, t) == Count(p.finished, t) + Runs(p.workers, t)
  }

  /** A worker leaves only when stop is set and the queue is empty. */
  predicate ExitsClean(p: Pool) {
    (exists i :: 0 <= i < |p.workers| && p.workers[i].Exited?) ==> p.stop && p.tasks == []
  }

  ghost predicate Inv(p: Pool) { Conserving(p) && StopHeard(p) && Accounted(p) && ExitsClean(p) }

  lemma InitialIsGood(size: nat)
    ensures Inv(Initial(size))
  {
    forall t: Task ensures Runs(Initial(size).workers, t) == 0 {
      NoneRunning(Initial(size).workers, t);
    }
  }

  lemma SleepersOther(ws: seq<Worker>, i: nat, w: Worker)
    requires i < |ws|
    ensures Asleep(ws[i := w]) ==> w.Sleeping? || Asleep(ws)
  {
    var vs := ws[i := w];
    if j :| 0 <= j < |vs| && vs[j].Sleeping? {
      assert j != i ==> ws[j].Sleeping?;
    }
  }

  lemma ConservingKept(p: Pool, step: Step)
    requires Conserving(p) && Enabled(p, step)
    ensures Conserving(Apply(p, step))
  {
    match step
    case NotifyOne(i) =>
      if Asleep(p.workers) {
        SignalsUpdate(p.workers, i, Signalled);
      }
    case Spurious(i) => SignalsUpdate(p.workers, i, Signalled);
    case Check(i) =>
      var w := Apply(p, step).workers[i];
      SignalsUpdate(p.workers, i, w);
      SleepersOther(p.workers, i, w);
    case Finish(i) =>
      SignalsUpdate(p.workers, i, AtLock);
      SleepersOther(p.workers, i, AtLock);
    case _ =>
  }

  lemma StopHeardKept(p: Pool, step: Step)
    requires StopHeard(p) && Enabled(p, step)
    ensures StopHeard(Apply(p, step))
  {
    match step
    case Check(i) => SleepersOther(p.workers, i, Apply(p, step).workers[i]);
    case Finish(i) => SleepersOther(p.workers, i, AtLock);
    case Spurious(i) => SleepersOther(p.workers, i, Signalled);
    case _ =>
  }

  lemma OrderKept(p: Pool, step: Step)
    requires p.accepted == p.started + p.tasks && Enabled(p, step)
    ensures var q := Apply(p, step); q.accepted == q.started + q.tasks
  {
    if step.Check? && p.tasks != [] {
      assert p.tasks == [p.tasks[0]] + p.tasks[1..];
    }
  }

  lemma CountKept(p: Pool, step: Step, t: Task)
    requires Enabled(p, step) && Count(p.started, t) == Count(p.finished, t) + Runs(p.workers, t)
    ensures var q := Apply(p, step);
            Count(q.started, t) == Count(q.finished, t) + Runs(q.workers, t)
  {
    match step
    case NotifyOne(i) =>
      if Asleep(p.workers) {
        RunsUpdate(p.workers, i, Signalled, t);
      }
    case Spurious(i) => RunsUpdate(p.workers, i, Signalled, t);
    case Check(i) => CheckCounts(p, i, t);
    case Finish(i) =>
      RunsUpdate(p.workers, i, AtLock, t);
      CountAppend(p.finished, p.workers[i].task, t);
    case NotifyAll => RunsWakeAll(p.workers, t);
    case _ =>
  }

  lemma CheckCounts(p: Pool, i: nat, t: Task)
    requires Enabled(p, Check(i)) && Count(p.started, t) == Count(p.finished, t) + Runs(p.workers, t)
    ensures var q := Apply(p, Check(i));
            Count(q.started, t) == Count(q.finished, t) + Runs(q.workers, t)
  {
    hide Count;
    RunsUpdate(p.workers, i, Apply(p, Check(i)).workers[i], t);
    if p.tasks != [] {
      CountAppend(p.started, p.tasks[0], t);
    }
  }

  lemma AccountedKept(p: Pool, step: Step)
    requires Accounted(p) && Enabled(p, step)
    ensures Accounted(Apply(p, step))
  {
    OrderKept(p, step);
    var q := Apply(p, step);
    forall t: Task ensures Count(q.started, t) == Count(q.finished, t) + Runs(q.workers, t) {
      CountKept(p, step, t);
    }
  }

  lemma ExitsCleanKept(p: Pool, step: Step)
    requires ExitsClean(p) && Enabled(p, step)
    ensures ExitsClean(Apply(p, step))
  {
    var q := Apply(p, step);
    if i :| 0 <= i < |q.workers| && q.workers[i].Exited? {
      assert |q.workers| == |p.workers|;
      assert !p.workers[i].Exited? ==> step == Check(i) && Take(p.tasks, p.stop) == Exit;
    }
  }

  lemma StepKeeps(p: Pool, step: Step)
    requires Inv(p) && Enabled(p, step)
    ensures Inv(Apply(p, step))
  {
    ConservingKept(p, step);
    StopHeardKept(p, step);
    AccountedKept(p, step);
    ExitsCleanKept(p, step);
  }

  // ---- whole runs ----

  ghost predicate IsRun(states: seq<Pool>, steps: seq<Step>) {
    && |states| == |steps| + 1
    && forall i :: 0 <= i < |steps| ==> Enabled(states[i], steps[i]) && states[i + 1] == Apply(states[i], steps[i])
  }

  lemma {:induction false} RunKeeps(states: seq<Pool>, steps: seq<Step>, k: nat)
    requires IsRun(states, steps) && Inv(states[0]) && k < |states|
    ensures Inv(states[k])
  {
    if k > 0 {
      RunKeeps(states, steps, k - 1);
      StepKeeps(states[k - 1], steps[k - 1]);
    }
  }

  /** In every interleaving, spurious wakeups and barging workers included: no worker sleeps
      while a queued task has nobody coming for it, and after stop nobody sleeps at all once
      notify_all has run. */
  lemma WorkConservation(size: nat, states: seq<Pool>, steps: seq<Step>, k: nat)
    requires IsRun(states, steps) && states[0] == Initial(size) && k < |states|
    ensures var p := states[k];
            && (!Asleep(p.workers) || |p.tasks| <= p.notifies + Signals(p.workers))
            && (p.stop ==> !Asleep(p.workers) || p.stopping)
  {
    InitialIsGood(size);
    RunKeeps(states, steps, k);
  }

  /** In every interleaving tasks start in the order they were accepted, each exactly once,
      and what was started is running or finished. */
  lemma StartedOnceInOrder(size: nat, states: seq<Pool>, steps: seq<Step>, k: nat)
    requires IsRun(states, steps) && states[0] == Initial(size) && k < |states|
    ensures var p := states[k];
            && p.accepted == p.started + p.tasks
            && forall t: Task :: Count(p.started, t) == Count(p.finished, t) + Runs(p.workers, t)
  {
    InitialIsGood(size);
    RunKeeps(states, steps, k);
  }

  /** Whether the first `k` steps hold a stop, the tasks added before it, and how many were
      added too late. */
  predicate Stopped(steps: seq<Step>, k: nat)
    requires k <= |steps|
  {
    k > 0 && (steps[k - 1].Stop? || Stopped(steps, k - 1))
  }

  function AddedInTime(steps: seq<Step>, k: nat): seq<Task>
    requires k <= |steps|
  {
    if k == 0 then []
    else AddedInTime(steps, k - 1) +
         if steps[k - 1].Add? && !Stopped(steps, k - 1) then [steps[k - 1].task] else []
  }

  function AddedLate(steps: seq<Step>, k: nat): nat
    requires k <= |steps|
  {
    if k == 0 then 0 else AddedLate(steps, k - 1) + One(steps[k - 1].Add? && Stopped(steps, k - 1))
  }

  /** In every interleaving `add` can be called at any time; the tasks accepted are exactly
      those added before the stop, in that order, and every other add is turned away. */
  lemma {:induction false} AcceptedExactly(size: nat, states: seq<Pool>, steps: seq<Step>, k: nat)
    requires IsRun(states, steps) && states[0] == Initial(size) && k < |states|
    ensures var p := states[k];
            && p.stop == Stopped(steps, k) && p.accepted == AddedInTime(steps, k)
            && p.rejected == AddedLate(steps, k) && |p.workers| == size
            && forall task: Task :: Enabled(p, Add(task))
  {
    if k > 0 {
      AcceptedExactly(size, states, steps, k - 1);
      assert Enabled(states[k - 1], steps[k - 1]) && states[k] == Apply(states[k - 1], steps[k - 1]);
    }
  }

  /** In every interleaving a queued task is not forgotten: as long as there is one, some
      worker can move, or a notify is on its way to one that sleeps. */
  lemma QueuedIsNotForgotten(size: nat, states: seq<Pool>, steps: seq<Step>, k: nat)
    requires IsRun(states, steps) && states[0] == Initial(size) && k < |states|
    requires size > 0 && states[k].tasks != []
    ensures exists step :: (WorkerStep(step) || step.NotifyOne?) && Enabled(states[k], step)
  {
    InitialIsGood(size);
    RunKeeps(states, steps, k);
    WorkersStay(states, steps, k);
    var p := states[k];
    assert !p.workers[0].Exited?;
    if p.workers[0].Running? {
      assert Enabled(p, Finish(0));
    } else if !p.workers[0].Sleeping? {
      assert Enabled(p, Check(0));
    } else if p.notifies > 0 {
      assert Enabled(p, NotifyOne(0));
    } else {
      var i := SomeSignalled(p.workers);
      assert Enabled(p, Check(i));
    }
  }

  lemma {:induction false} SomeSignalled(ws: seq<Worker>) returns (i: nat)
    requires Signals(ws) > 0
    ensures i < |ws| && ws[i].Signalled?
  {
    if ws[0].Signalled? {
      i := 0;
    } else {
      var j := SomeSignalled(ws[1..]);
      i := j + 1;
    }
  }

  /** What a worker does with the lock: it starts the oldest task; without one it leaves a
      stopped pool and otherwise sleeps. */
  lemma WorkerActs(p: Pool, i: nat)
    requires Enabled(p, Check(i))
    ensures var q := Apply(p, Check(i));
            if p.tasks != [] then
              && q.workers == p.workers[i := Running(p.tasks[0])]
              && p.tasks == [p.tasks[0]] + q.tasks && q.started == p.started + [p.tasks[0]]
            else
              && q.workers == p.workers[i := if p.stop then Exited else Sleeping]
              && q.tasks == [] && q.started == p.started
  {
  }

  /** Every wakeup reaches a sleeper, and only by a wakeup does one stir. */
  lemma WakeupsWake(p: Pool, step: Step, i: nat)
    requires Enabled(p, step) && i < |p.workers| && p.workers[i].Sleeping?
    ensures var woken := step == Spurious(i) || step == NotifyOne(i) || step.NotifyAll?;
            |Apply(p, step).workers| == |p.workers| &&
            Apply(p, step).workers[i] == if woken then Signalled else Sleeping
  {
  }

  /** A task added to a fresh pool runs to its end. */
  lemma AddedTaskRuns(size: nat, task: Task) returns (states: seq<Pool>, steps: seq<Step>)
    requires size > 0
    ensures IsRun(states, steps) && states[0] == Initial(size) && steps == [Add(task), Check(0), Finish(0)]
    ensures states[2].workers[0] == Running(task) && states[3].finished == [task] && states[3].tasks == []
  {
    var p0 := Initial(size);
    var p1 := Apply(p0, Add(task));
    var p2 := Apply(p1, Check(0));
    states, steps := [p0, p1, p2, Apply(p2, Finish(0))], [Add(task), Check(0), Finish(0)];
  }

  /** Nothing is accepted after stop. */
  lemma {:induction false} NoneAcceptedAfterStop(states: seq<Pool>, steps: seq<Step>, i: nat, k: nat)
    requires IsRun(states, steps) && i <= k < |states| && states[i].stop
    ensures states[k].stop && states[k].accepted == states[i].accepted
    decreases k
  {
    if i < k {
      NoneAcceptedAfterStop(states, steps, i, k - 1);
      assert states[k] == Apply(states[k - 1], steps[k - 1]);
    }
  }

  // ---- the destructor ----

  function Weight(w: Worker): nat {
    match w
    case AtLock => 1
    case Signalled => 1
    case Running(_) => 2
    case Sleeping => 2
    case Exited => 0
  }

  function Weights(ws: seq<Worker>): nat {
    if ws == [] then 0 else Weight(ws[0]) + Weights(ws[1..])
  }

  lemma {:induction false} WeightsUpdate(ws: seq<Worker>, i: nat, w: Worker)
    requires i < |ws|
    ensures Weights(ws[i := w]) + Weight(ws[i]) == Weights(ws) + Weight(w)
  {
    if i == 0 {
      assert ws[i := w][1..] == ws[1..];
    } else {
      assert ws[i := w][1..] == ws[1..][i - 1 := w];
      WeightsUpdate(ws[1..], i - 1, w);
    }
  }

  /** The worker steps still to come once the pool is stopped. */
  function Work(p: Pool): nat { 3 * |p.tasks| + Weights(p.workers) }

  predicate WorkerStep(step: Step) { step.Check? || step.Finish? }

  ghost predicate Draining(p: Pool) { Inv(p) && p.stop && !p.stopping }

  lemma WorkShrinks(p: Pool, step: Step)
    requires p.stop && !p.stopping && !Asleep(p.workers) && Enabled(p, step)
    ensures var q := Apply(p, step);
            q.stop && !q.stopping && Work(q) + One(WorkerStep(step)) <= Work(p)
  {
    match step
    case Check(i) => WeightsUpdate(p.workers, i, Apply(p, step).workers[i]);
    case Finish(i) => WeightsUpdate(p.workers, i, AtLock);
    case _ =>
  }

  lemma DrainingWorks(p: Pool, step: Step)
    requires Draining(p) && Enabled(p, step)
    ensures Draining(Apply(p, step))
    ensures Work(Apply(p, step)) + One(WorkerStep(step)) <= Work(p)
  {
    hide Conserving, Accounted, ExitsClean, Work, Apply, Enabled;
    StepKeeps(p, step);
    WorkShrinks(p, step);
  }

  function WorkerSteps(steps: seq<Step>): nat {
    if steps == [] then 0 else WorkerSteps(steps[..|steps| - 1]) + One(WorkerStep(steps[|steps| - 1]))
  }

  /** The drain is bounded: from the moment notify_all has run, no run holds more worker
      steps than the work left, whatever adders and notifiers do meanwhile. */
  lemma {:induction false} DrainIsBounded(states: seq<Pool>, steps: seq<Step>)
    requires IsRun(states, steps) && Draining(states[0])
    ensures Draining(states[|steps|])
    ensures WorkerSteps(steps) + Work(states[|steps|]) <= Work(states[0])
  {
    if steps != [] {
      var n := |steps| - 1;
      assert IsRun(states[..n + 1], steps[..n]);
      DrainIsBounded(states[..n + 1], steps[..n]);
      DrainingWorks(states[n], steps[n]);
    }
  }

  predicate AllExited(p: Pool) { forall i :: 0 <= i < |p.workers| ==> p.workers[i].Exited? }

  /** And it cannot get stuck: while a worker has not exited, some worker can move. */
  lemma DrainNeverStuck(p: Pool)
    requires Draining(p) && !AllExited(p)
    ensures exists step :: WorkerStep(step) && Enabled(p, step)
  {
    var i :| 0 <= i < |p.workers| && !p.workers[i].Exited?;
    assert !p.workers[i].Sleeping?;
    assert Enabled(p, if p.workers[i].Running? then Finish(i) else Check(i));
  }

  /** So when the join returns, every accepted task has run to its end. */
  lemma JoinMeansAllRun(size: nat, states: seq<Pool>, steps: seq<Step>, k: nat)
    requires IsRun(states, steps) && states[0] == Initial(size) && k < |states|
    requires size > 0 && AllExited(states[k])
    ensures var p := states[k];
            && p.stop && p.tasks == [] && p.started == p.accepted
            && multiset(p.finished) == multiset(p.accepted)
  {
    InitialIsGood(size);
    RunKeeps(states, steps, k);
    WorkersStay(states, steps, k);
    var p := states[k];
    assert p.workers[0].Exited?;
    assert p.started + [] == p.started;
    forall t: Task ensures multiset(p.finished)[t] == multiset(p.accepted)[t] {
      NoneRunning(p.workers, t);
      assert Count(p.started, t) == Count(p.finished, t) + Runs(p.workers, t);
    }
  }

  lemma {:induction false} WorkersStay(states: seq<Pool>, steps: seq<Step>, k: nat)
    requires IsRun(states, steps) && k < |states|
    ensures |states[k].workers| == |states[0].workers|
  {
    if k > 0 {
      WorkersStay(states, steps, k - 1);
      assert states[k] == Apply(states[k - 1], steps[k - 1]);
    }
  }

  lemma RunExtends(states: seq<Pool>, steps: seq<Step>, step: Step)
    requires IsRun(states, steps) && Enabled(states[|steps|], step)
    ensures IsRun(states + [Apply(states[|steps|], step)], steps + [step])
  {
    hide Enabled, Apply;
  }

  /** A draining pool can finish: its workers have a way to their exits. */
  lemma {:induction false} DrainFinishes(states: seq<Pool>, steps: seq<Step>)
    returns (states': seq<Pool>, steps': seq<Step>)
    requires IsRun(states, steps) && Draining(states[|steps|])
    ensures IsRun(states', steps') && states <= states' && steps <= steps'
    ensures AllExited(states'[|steps'|])
    decreases Work(states[|steps|])
  {
    hide Enabled, Apply, Draining, Work;
    var p := states[|steps|];
    if AllExited(p) {
      states', steps' := states, steps;
    } else {
      DrainNeverStuck(p);
      var step :| WorkerStep(step) && Enabled(p, step);
      DrainingWorks(p, step);
      RunExtends(states, steps, step);
      states', steps' := DrainFinishes(states + [Apply(p, step)], steps + [step]);
    }
  }

  lemma StopDrains(p: Pool)
    requires Inv(p) && !p.stop
    ensures Enabled(p, Stop) && Enabled(Apply(p, Stop), NotifyAll) && Draining(Apply(Apply(p, Stop), NotifyAll))
  {
    StepKeeps(p, Stop);
    StepKeeps(Apply(p, Stop), NotifyAll);
  }

  /** The destructor can always finish: whatever has happened before, a run that goes on with
      stop and notify_all can be continued until every worker has exited, and then every
      task that was accepted has run to its end. */
  lemma DestructorFinishes(size: nat, states: seq<Pool>, steps: seq<Step>)
    returns (states': seq<Pool>, steps': seq<Step>)
    requires size > 0 && IsRun(states, steps) && states[0] == Initial(size) && !states[|steps|].stop
    ensures IsRun(states', steps') && states <= states' && steps + [Stop, NotifyAll] <= steps'
    ensures var p := states'[|steps'|];
            AllExited(p) && p.tasks == [] && multiset(p.finished) == multiset(p.accepted)
  {
    hide Enabled, Apply, Inv, Draining;
    InitialIsGood(size);
    RunKeeps(states, steps, |steps|);
    var p := states[|steps|];
    StopDrains(p);
    RunExtends(states, steps, Stop);
    var q := Apply(p, Stop);
    RunExtends(states + [q], steps + [Stop], NotifyAll);
    states', steps' := DrainFinishes(states + [q] + [Apply(q, NotifyAll)], steps + [Stop] + [NotifyAll]);
    assert steps + [Stop] + [NotifyAll] == steps + [Stop, NotifyAll];
    assert states'[0] == states[0];
    JoinMeansAllRun(size, states', steps', |steps'|);
  }
}

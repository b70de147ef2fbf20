/** The thread pool as a transition system.  A step is one critical section of the mutex, one
    notification, one wake-up or the end of a task; every order of steps is a run. */
module ThreadPool {

  /** Ready: on the way to the lock, to test the condition.  Asleep: in `cond.wait`. */
  datatype Worker = Ready | Asleep | Running(task: int) | Exited

  /** The destructor: not begun, `stop` set, all notified. */
  datatype Shutdown = Open | Stopping | Notified

  datatype Pool = Pool(
    tasks: seq<int>,
    stop: bool,
    workers: seq<Worker>,
    notifies: nat,           // notify_one calls that enqueuers have yet to make
    shutdown: Shutdown,
    accepted: seq<int>,      // tasks accepted, in order
    taken: seq<int>,         // tasks taken by workers, in order
    executed: seq<int>)      // tasks that have run

  datatype Step =
    | Enqueue(task: int)
    | NotifyOne(worker: int)   // wakes this sleeper; nobody when nobody sleeps
    | WakeSpuriously(worker: int)
    | Check(worker: int)       // the critical section of the worker loop
    | Finish(worker: int)
    | Stop
    | NotifyAll

  function Init(n: nat): Pool {
    Pool([], false, seq(n, _ => Ready), 0, Open, [], [], [])
  }

  predicate Is(p: Pool, w: int, phase: Worker) {
    0 <= w < |p.workers| && p.workers[w] == phase
  }

  predicate Enabled(p: Pool, s: Step) {
    match s
    case Enqueue(_) => true
    case NotifyOne(w) => p.notifies > 0 && (Is(p, w, Asleep) || Asleep !in p.workers)
    case WakeSpuriously(w) => Is(p, w, Asleep)
    case Check(w) => Is(p, w, Ready)
    case Finish(w) => 0 <= w < |p.workers| && p.workers[w].Running?
    case Stop => p.shutdown == Open
    case NotifyAll => p.shutdown == Stopping
  }

  function Set(p: Pool, w: int, phase: Worker): Pool
    requires 0 <= w < |p.workers|
  {
    p.(workers := p.workers[w := phase])
  }

  /** ThreadPool::enqueue: accepted unless `stop` is set, in which case it throws. */
  function Enqueued(p: Pool, task: int): Pool {
    if p.stop then p
    else p.(tasks := p.tasks + [task], accepted := p.accepted + [task], notifies := p.notifies + 1)
  }

  /** The body of the worker loop under the lock. */
  function Checked(p: Pool, w: int): Pool
    requires 0 <= w < |p.workers|
  {
    if !(p.stop || p.tasks != []) then Set(p, w, Asleep)
    else if p.stop && p.tasks == [] then Set(p, w, Exited)
    else Set(p.(tasks := p.tasks[1..], taken := p.taken + [p.tasks[0]]), w, Running(p.tasks[0]))
  }

  function Next(p: Pool, s: Step): Pool
    requires Enabled(p, s)
  {
    match s
    case Enqueue(task) => Enqueued(p, task)
    case NotifyOne(w) =>
      var q := p.(notifies := p.notifies - 1);
      if Is(p, w, Asleep) then Set(q, w, Ready) else q
    case WakeSpuriously(w) => Set(p, w, Ready)
    case Check(w) => Checked(p, w)
    case Finish(w) => Set(p.(executed := p.executed + [p.workers[w].task]), w, Ready)
    case Stop => p.(stop := true, shutdown := Stopping)
    case NotifyAll =>
      p.(shutdown := Notified,
         workers := seq(|p.workers|, i requires 0 <= i < |p.workers| =>
           if p.workers[i] == Asleep then Ready else p.workers[i]))
  }

  ghost predicate EnabledRun(p: Pool, steps: seq<Step>)
    decreases |steps|
  {
    steps == [] || (Enabled(p, steps[0]) && EnabledRun(Next(p, steps[0]), steps[1..]))
  }

  ghost function Run(p: Pool, steps: seq<Step>): Pool
    requires EnabledRun(p, steps)
    decreases |steps|
  {
    if steps == [] then p else Run(Next(p, steps[0]), steps[1..])
  }

  // ----- counting workers --------------------------------------------------------------

  function CountReady(ws: seq<Worker>): nat {
    if ws == [] then 0 else (if ws[0] == Ready then 1 else 0) + CountReady(ws[1..])
  }

  /** How many workers are running this task. */
  function Hands(ws: seq<Worker>, task: int): nat {
    if ws == [] then 0 else (if ws[0] == Running(task) then 1 else 0) + Hands(ws[1..], task)
  }

  function Cost(w: Worker): nat {
    match w case Ready => 1 case Asleep => 2 case Running(_) => 2 case Exited => 0
  }

  function Costs(ws: seq<Worker>): nat {
    if ws == [] then 0 else Cost(ws[0]) + Costs(ws[1..])
  }

  lemma {:induction false} SetReady(ws: seq<Worker>, w: nat, phase: Worker)
    requires w < |ws|
    ensures CountReady(ws[w := phase]) ==
            CountReady(ws) + (if phase == Ready then 1 else 0) - (if ws[w] == Ready then 1 else 0)
    decreases |ws|
  {
    if w > 0 {
      assert ws[w := phase][1..] == ws[1..][w - 1 := phase];
      SetReady(ws[1..], w - 1, phase);
    } else {
      assert ws[w := phase][1..] == ws[1..];
    }
  }

  lemma {:induction false} SetHands(ws: seq<Worker>, w: nat, phase: Worker, task: int)
    requires w < |ws|
    ensures Hands(ws[w := phase], task) ==
            Hands(ws, task) + (if phase == Running(task) then 1 else 0) - (if ws[w] == Running(task) then 1 else 0)
    decreases |ws|
  {
    if w > 0 {
      assert ws[w := phase][1..] == ws[1..][w - 1 := phase];
      SetHands(ws[1..], w - 1, phase, task);
    } else {
      assert ws[w := phase][1..] == ws[1..];
    }
  }

  lemma {:induction false} SetCosts(ws: seq<Worker>, w: nat, phase: Worker)
    requires w < |ws|
    ensures Costs(ws[w := phase]) == Costs(ws) + Cost(phase) - Cost(ws[w])
    decreases |ws|
  {
    if w > 0 {
      assert ws[w := phase][1..] == ws[1..][w - 1 := phase];
      SetCosts(ws[1..], w - 1, phase);
    } else {
      assert ws[w := phase][1..] == ws[1..];
    }
  }

  // ----- no wake-up is lost ------------------------------------------------------------

  /** While anyone sleeps, every queued task has a notification coming or a worker that is
      awake and will look.  After all have been notified nobody sleeps again. */
  ghost predicate Attended(p: Pool) {
    && (Asleep in p.workers ==> |p.tasks| <= p.notifies + CountReady(p.workers))
    && (p.shutdown == Open <==> !p.stop)
    && (p.shutdown == Notified ==> Asleep !in p.workers)
  }

  /** Tasks leave the queue in the order of acceptance, each taken task is being run or has
      been run, once, and no worker leaves while a task is queued. */
  ghost predicate Conserved(p: Pool) {
    && p.taken + p.tasks == p.accepted
    && (forall t {:trigger multiset(p.taken)[t]} ::
          multiset(p.executed)[t] + Hands(p.workers, t) == multiset(p.taken)[t])
    && (Exited in p.workers ==> p.stop && p.tasks == [])
  }

  ghost predicate Inv(p: Pool) {
    Attended(p) && Conserved(p)
  }

  lemma {:induction false} NoHands(ws: seq<Worker>, task: int)
    requires forall i :: 0 <= i < |ws| ==> !ws[i].Running?
    ensures Hands(ws, task) == 0
    decreases |ws|
  {
    if ws != [] {
      NoHands(ws[1..], task);
    }
  }

  lemma {:induction false} WakingKeepsHands(ws: seq<Worker>, vs: seq<Worker>, task: int)
    requires |vs| == |ws| && forall i :: 0 <= i < |ws| ==> vs[i] == if ws[i] == Asleep then Ready else ws[i]
    ensures Hands(vs, task) == Hands(ws, task)
    decreases |ws|
  {
    if ws != [] {
      WakingKeepsHands(ws[1..], vs[1..], task);
    }
  }

  lemma InvInit(n: nat)
    ensures Inv(Init(n))
  {
    forall t ensures Hands(Init(n).workers, t) == 0 {
      NoHands(Init(n).workers, t);
    }
  }

  lemma AttendedNext(p: Pool, s: Step)
    requires Inv(p) && Enabled(p, s)
    ensures Attended(Next(p, s))
  {
    match s {
      case Enqueue(_) =>
      case NotifyOne(w) => if Is(p, w, Asleep) { SetReady(p.workers, w, Ready); }
      case WakeSpuriously(w) => SetReady(p.workers, w, Ready);
      case Check(w) => SetReady(p.workers, w, Next(p, s).workers[w]);
      case Finish(w) => SetReady(p.workers, w, Ready);
      case Stop =>
      case NotifyAll =>
    }
  }

  lemma HandedNext(p: Pool, s: Step, t: int)
    requires Inv(p) && Enabled(p, s)
    ensures var q := Next(p, s); multiset(q.executed)[t] + Hands(q.workers, t) == multiset(q.taken)[t]
  {
    var q := Next(p, s);
    assert multiset(p.executed)[t] + Hands(p.workers, t) == multiset(p.taken)[t];
    match s {
      case Enqueue(_) =>
      case NotifyOne(w) => if Is(p, w, Asleep) { SetHands(p.workers, w, Ready, t); }
      case WakeSpuriously(w) => SetHands(p.workers, w, Ready, t);
      case Check(w) => SetHands(p.workers, w, q.workers[w], t);
      case Finish(w) => SetHands(p.workers, w, Ready, t);
      case Stop =>
      case NotifyAll => WakingKeepsHands(p.workers, q.workers, t);
    }
  }

  lemma InvNext(p: Pool, s: Step)
    requires Inv(p) && Enabled(p, s)
    ensures Inv(Next(p, s))
  {
    var q := Next(p, s);
    AttendedNext(p, s);
    forall t ensures multiset(q.executed)[t] + Hands(q.workers, t) == multiset(q.taken)[t] {
      HandedNext(p, s, t);
    }
    QueueNext(p, s);
  }

  lemma QueueNext(p: Pool, s: Step)
    requires Inv(p) && Enabled(p, s)
    ensures var q := Next(p, s); q.taken + q.tasks == q.accepted && (Exited in q.workers ==> q.stop && q.tasks == [])
  {
    if s.Check? && p.tasks != [] {
      assert p.taken + p.tasks == (p.taken + [p.tasks[0]]) + p.tasks[1..];
    }
    if s.Enqueue? {
      assert p.taken + (p.tasks + [s.task]) == (p.taken + p.tasks) + [s.task];
    }
  }

  lemma {:induction false} InvRun(p: Pool, steps: seq<Step>)
    requires Inv(p) && EnabledRun(p, steps)
    ensures Inv(Run(p, steps))
    decreases |steps|
  {
    if steps != [] {
      InvNext(p, steps[0]);
      InvRun(Next(p, steps[0]), steps[1..]);
    }
  }

  lemma {:induction false} ReadyIsThere(ws: seq<Worker>)
    ensures CountReady(ws) > 0 ==> Ready in ws
    decreases |ws|
  {
    if ws != [] {
      ReadyIsThere(ws[1..]);
    }
  }

  /** In no run is a task stranded: with at least one worker, a queued task never coincides
      with all workers asleep and no notification under way. */
  lemma NoLostWakeUp(n: nat, steps: seq<Step>)
    requires n > 0 && EnabledRun(Init(n), steps)
    ensures var p := Run(Init(n), steps);
            && (Asleep in p.workers ==> |p.tasks| <= p.notifies + CountReady(p.workers))
            && !(p.tasks != [] && p.notifies == 0 && forall w :: w in p.workers ==> w == Asleep)
  {
    InvInit(n);
    InvRun(Init(n), steps);
    SizeKept(Init(n), steps);
    var p := Run(Init(n), steps);
    ReadyIsThere(p.workers);
    assert p.workers[0] in p.workers;
  }

  lemma {:induction false} SizeKept(p: Pool, steps: seq<Step>)
    requires EnabledRun(p, steps)
    ensures |Run(p, steps).workers| == |p.workers|
    decreases |steps|
  {
    if steps != [] {
      SizeKept(Next(p, steps[0]), steps[1..]);
    }
  }

  // ----- the draining shutdown ---------------------------------------------------------

  /** All joins have returned. */
  ghost predicate Joined(p: Pool) {
    p.shutdown == Notified && forall w :: w in p.workers ==> w == Exited
  }

  /** The tasks given to `enqueue` before the destructor sets `stop`. */
  function Offered(steps: seq<Step>): seq<int> {
    if steps == [] || steps[0].Stop? then []
    else (if steps[0].Enqueue? then [steps[0].task] else []) + Offered(steps[1..])
  }

  lemma {:induction false} OfferedIsAccepted(p: Pool, steps: seq<Step>)
    requires EnabledRun(p, steps) && !p.stop
    ensures Run(p, steps).accepted == p.accepted + Offered(steps)
    decreases |steps|
  {
    if steps != [] {
      var q := Next(p, steps[0]);
      if steps[0].Stop? {
        NothingAccepted(q, steps[1..]);
      } else {
        OfferedIsAccepted(q, steps[1..]);
      }
    }
  }

  /** What a run accepts can be read off its steps: the tasks offered before the stop, all of
      them, in order; those that have been taken from the queue and those that are still in it. */
  lemma AcceptsOffers(n: nat, steps: seq<Step>)
    requires EnabledRun(Init(n), steps)
    ensures var p := Run(Init(n), steps); p.accepted == Offered(steps) && p.taken + p.tasks == Offered(steps)
  {
    OfferedIsAccepted(Init(n), steps);
    InvInit(n);
    InvRun(Init(n), steps);
  }

  /** In every run tasks leave the queue in the order in which they were offered, and none runs
      twice or is made up; once all workers have been joined, exactly the tasks offered before
      the stop have run, provided there was a worker or nothing to do. */
  lemma Drained(n: nat, steps: seq<Step>)
    requires EnabledRun(Init(n), steps)
    ensures var p := Run(Init(n), steps);
            && p.taken <= Offered(steps)
            && multiset(p.executed) <= multiset(Offered(steps))
            && (Exited in p.workers ==> p.tasks == [])
            && (Joined(p) ==> (multiset(p.executed) == multiset(Offered(steps)) <==> n > 0 || Offered(steps) == []))
  {
    AcceptsOffers(n, steps);
    InvInit(n);
    InvRun(Init(n), steps);
    SizeKept(Init(n), steps);
    var p := Run(Init(n), steps);
    assert multiset(p.taken + p.tasks) == multiset(p.taken) + multiset(p.tasks);
    forall t ensures multiset(p.executed)[t] <= multiset(p.accepted)[t] {
      assert multiset(p.executed)[t] + Hands(p.workers, t) == multiset(p.taken)[t];
    }
    if Joined(p) {
      if n > 0 {
        assert p.workers[0] in p.workers;
        assert p.taken == p.accepted;
        forall i | 0 <= i < |p.workers| ensures !p.workers[i].Running? {
          assert p.workers[i] in p.workers;
        }
        forall t ensures multiset(p.executed)[t] == multiset(p.accepted)[t] {
          NoHands(p.workers, t);
          assert multiset(p.executed)[t] + Hands(p.workers, t) == multiset(p.taken)[t];
        }
      } else {
        NobodyTakes(Init(0), steps);
      }
    }
  }

  lemma {:induction false} NobodyTakes(p: Pool, steps: seq<Step>)
    requires p.workers == [] && p.executed == [] && EnabledRun(p, steps)
    ensures Run(p, steps).executed == []
    decreases |steps|
  {
    if steps != [] {
      NobodyTakes(Next(p, steps[0]), steps[1..]);
    }
  }

  /** Nothing is accepted once `stop` is set. */
  lemma {:induction false} NothingAccepted(p: Pool, steps: seq<Step>)
    requires p.stop && EnabledRun(p, steps)
    ensures Run(p, steps).stop && Run(p, steps).accepted == p.accepted
    decreases |steps|
  {
    if steps != [] {
      NothingAccepted(Next(p, steps[0]), steps[1..]);
    }
  }

  function Measure(p: Pool): nat {
    3 * |p.tasks| + Costs(p.workers) + p.notifies
  }

  /** After notify_all every step other than a rejected enqueue brings the end nearer, and as
      long as not all workers have left, some worker can take a step.  So, tasks ending, the
      destructor returns: no run from there has more than `Measure` such steps. */
  lemma ShutdownProgress(p: Pool, s: Step)
    requires Inv(p) && p.shutdown == Notified && Enabled(p, s)
    ensures s.Enqueue? ==> Next(p, s) == p
    ensures !s.Enqueue? ==> Measure(Next(p, s)) < Measure(p)
    ensures Next(p, s).shutdown == Notified
  {
    match s {
      case Enqueue(_) =>
      case NotifyOne(w) =>
      case WakeSpuriously(w) =>
      case Check(w) => SetCosts(p.workers, w, Next(p, s).workers[w]);
      case Finish(w) => SetCosts(p.workers, w, Ready);
      case Stop =>
      case NotifyAll =>
    }
  }

  lemma SomeoneCanGo(p: Pool) returns (s: Step)
    requires Inv(p) && p.shutdown == Notified && !Joined(p)
    ensures Enabled(p, s) && (s.Check? || s.Finish?)
  {
    var x :| x in p.workers && x != Exited;
    var w :| 0 <= w < |p.workers| && p.workers[w] == x;
    s := if x == Ready then Check(w) else Finish(w);
  }

  lemma {:induction false} ShutdownEnds(p: Pool, steps: seq<Step>)
    requires Inv(p) && p.shutdown == Notified && EnabledRun(p, steps)
    requires forall s :: s in steps ==> !s.Enqueue?
    ensures |steps| <= Measure(p)
    decreases |steps|
  {
    if steps != [] {
      assert steps[0] in steps;
      ShutdownProgress(p, steps[0]);
      InvNext(p, steps[0]);
      ShutdownEnds(Next(p, steps[0]), steps[1..]);
    }
  }
}

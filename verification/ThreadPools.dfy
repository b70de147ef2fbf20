/** The thread pool as an object: each method is one critical section, notification or
    wake-up, and does to the object what the transition system says. */
module ThreadPools {
  import opened ThreadPool

  class Monitor {
    var tasks: seq<int>
    var stop: bool
    const workers: array<Worker>      // where each thread stands
    var notifies: nat                 // notify_one calls still to be made
    var shutdown: Shutdown
    ghost var accepted: seq<int>
    ghost var taken: seq<int>
    ghost var executed: seq<int>

    ghost function Model(): Pool
      reads this, workers
    {
      Pool(tasks, stop, workers[..], notifies, shutdown, accepted, taken, executed)
    }

    constructor (threads: nat)
      ensures fresh(workers) && Model() == Init(threads)
    {
      tasks, stop := [], false;
      workers := new Worker[threads](_ => Ready);
      notifies, shutdown := 0, Open;
      accepted, taken, executed := [], [], [];
      new;
      assert workers[..] == Init(threads).workers;
    }

    /** ThreadPool::enqueue up to the notification; false stands for the exception. */
    method Enqueue(task: int) returns (ok: bool)
      modifies this
      ensures Model() == Next(old(Model()), Step.Enqueue(task))
      ensures ok <==> !old(stop)
      ensures tasks == if ok then old(tasks) + [task] else old(tasks)
      ensures notifies == if ok then old(notifies) + 1 else old(notifies)
      ensures stop == old(stop) && workers[..] == old(workers[..])
    {
      if stop { return false; }
      tasks := tasks + [task];
      notifies := notifies + 1;
      accepted := accepted + [task];
      return true;
    }

    method NotifyOne(w: int)
      requires Enabled(Model(), Step.NotifyOne(w))
      modifies this, workers
      ensures Model() == Next(old(Model()), Step.NotifyOne(w))
    {
      notifies := notifies - 1;
      if 0 <= w < workers.Length && workers[w] == Asleep { workers[w] := Ready; }
    }

    method WakeSpuriously(w: int)
      requires Enabled(Model(), Step.WakeSpuriously(w))
      modifies workers
      ensures Model() == Next(old(Model()), Step.WakeSpuriously(w))
    {
      workers[w] := Ready;
    }

    /** One pass of a worker through the mutex. */
    method Check(w: int)
      requires Enabled(Model(), Step.Check(w))
      modifies this, workers
      ensures Model() == Next(old(Model()), Step.Check(w))
      ensures workers[w] == if old(tasks) != [] then Running(old(tasks[0])) else if stop then Exited else Asleep
      ensures tasks == if old(tasks) != [] then old(tasks[1..]) else []
    {
      if !(stop || tasks != []) {
        workers[w] := Asleep;
        return;
      }
      if stop && tasks == [] {
        workers[w] := Exited;
        return;
      }
      var task := tasks[0];
      tasks := tasks[1..];
      workers[w] := Running(task);
      taken := taken + [task];
    }

    method Finish(w: int)
      requires Enabled(Model(), Step.Finish(w))
      modifies this, workers
      ensures Model() == Next(old(Model()), Step.Finish(w))
    {
      executed := executed + [workers[w].task];
      workers[w] := Ready;
    }

    method Stop()
      requires Enabled(Model(), Step.Stop)
      modifies this
      ensures Model() == Next(old(Model()), Step.Stop)
    {
      stop := true;
      shutdown := Stopping;
    }

    method NotifyAll()
      requires Enabled(Model(), Step.NotifyAll)
      modifies this, workers
      ensures Model() == Next(old(Model()), Step.NotifyAll)
      ensures forall i :: 0 <= i < workers.Length ==>
                workers[i] == if old(workers[i]) == Asleep then Ready else old(workers[i])
    {
      shutdown := Notified;
      for i := 0 to workers.Length
        invariant forall j :: 0 <= j < workers.Length ==>
                    workers[j] == if j < i && old(workers[j]) == Asleep then Ready else old(workers[j])
        invariant Model() == old(Model()).(shutdown := Notified, workers := workers[..])
      {
        if workers[i] == Asleep { workers[i] := Ready; }
      }
      assert workers[..] == Next(old(Model()), Step.NotifyAll).workers;
    }

    method Perform(s: Step)
      requires Enabled(Model(), s)
      modifies this, workers
      ensures Model() == Next(old(Model()), s)
    {
      match s {
        case Enqueue(task) => var _ := Enqueue(task);
        case NotifyOne(w) => NotifyOne(w);
        case WakeSpuriously(w) => WakeSpuriously(w);
        case Check(w) => Check(w);
        case Finish(w) => Finish(w);
        case Stop => Stop();
        case NotifyAll => NotifyAll();
      }
    }

    /** The threads interleave in any order in which each can go on. */
    method Execute(steps: seq<Step>)
      requires EnabledRun(Model(), steps)
      modifies this, workers
      ensures Model() == Run(old(Model()), steps)
    {
      var i := 0;
      while i < |steps|
        invariant 0 <= i <= |steps|
        invariant EnabledRun(Model(), steps[i..])
        invariant Run(Model(), steps[i..]) == Run(old(Model()), steps)
      {
        assert steps[i..][0] == steps[i] && steps[i..][1..] == steps[i + 1..];
        Perform(steps[i]);
        i := i + 1;
      }
    }
  }
}

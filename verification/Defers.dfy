/** The stacks of deferred callbacks as create_func and defer keep them. */
module Defers {
  import opened DeferSpec

  class Tasks {
    var stacks: map<int, seq<int>>     // defer_tasks of each task; a missing key is a null pointer
    var nextId: int                    // the callback allocated next
    ghost var model: State

    ghost predicate Valid()
      reads this
    {
      stacks == model.stacks && nextId == model.nextId
    }

    constructor ()
      ensures Valid() && model == Init()
    {
      stacks, nextId := map[], 0;
      model := Init();
    }

    /** PHPCoroutine::defer with `task` as the current task. */
    method Defer(task: int)
      requires Valid() && Legal(model, Action.Defer(task))
      modifies this
      ensures Valid() && model == Next(old(model), Action.Defer(task))
      ensures task in stacks && nextId == old(nextId) + 1
      ensures stacks[task] == (if task in old(stacks) then old(stacks)[task] else []) + [old(nextId)]
      ensures forall t :: t != task ==> (t in stacks <==> t in old(stacks))
                                        && (t in stacks ==> stacks[t] == old(stacks)[t])
    {
      var callback := nextId;
      nextId := nextId + 1;
      if task !in stacks {
        stacks := stacks[task := []];
      }
      stacks := stacks[task := stacks[task] + [callback]];
      model := Next(model, Action.Defer(task));
    }

    /** Takes the callback at the top off the stack, to be called. */
    method Take(task: int) returns (callback: int)
      requires Valid() && Pops(model, task)
      modifies this
      ensures Valid() && model == Next(old(model), Turn(task))
      ensures model.ran == old(model).ran + [callback]
      ensures task in stacks && stacks[task] + [callback] == old(stacks)[task]
    {
      var items := stacks[task];
      callback := items[|items| - 1];
      stacks := stacks[task := items[..|items| - 1]];
      model := Next(model, Turn(task));
    }

    method Discard(task: int)
      requires Valid() && Legal(model, Turn(task)) && Drained(model, task)
      modifies this
      ensures Valid() && model == Next(old(model), Turn(task))
    {
      stacks := stacks - {task};
      model := Next(model, Turn(task));
    }

    /** A step of any coroutine; its loop, too, looks at its own stack. */
    method Perform(a: Action)
      requires Valid() && Legal(model, a)
      modifies this
      ensures Valid() && model == Next(old(model), a)
    {
      match a {
        case Defer(t) => Defer(t);
        case Turn(t) =>
          if t in stacks && stacks[t] != [] { var _ := Take(t); } else { Discard(t); }
        case _ => model := Next(model, a);
      }
    }

    /** What happens while a callback is being called: it and, when it yields, other
        coroutines act. */
    method Call(acts: seq<Action>)
      requires Valid() && LegalRun(model, acts)
      modifies this
      ensures Valid() && model == Run(old(model), acts)
    {
      var i := 0;
      while i < |acts|
        invariant 0 <= i <= |acts| && Valid()
        invariant LegalRun(model, acts[i..]) && Run(model, acts[i..]) == Run(old(model), acts)
      {
        assert acts[i..][0] == acts[i] && acts[i..][1..] == acts[i + 1..];
        Perform(acts[i]);
        i := i + 1;
      }
    }

    /** One turn of the loop in create_func. */
    method RunOne(task: int, acts: seq<Action>)
      requires Valid() && Pops(model, task) && Foreign(acts, task) && LegalRun(Next(model, Turn(task)), acts)
      requires Legal(Run(Next(model, Turn(task)), acts), Return(task))
      modifies this
      ensures Valid() && model == Turned(old(model), task, acts) && task in stacks
      ensures acts == [] ==> |stacks[task]| == |old(stacks[task])| - 1
    {
      var callback := Take(task);
      ForeignKeepsTask(model, task, acts);
      Call(acts);
      model := Next(model, Return(task));
    }

    /** The end of create_func: `during[k]` is what happens while the k-th callback is being
        called, nothing behind the end of `during`. */
    method RunDefers(task: int, during: seq<seq<Action>>)
      requires Valid() && Inv(model) && DrainLegal(model, task, during)
      modifies this
      ensures Valid() && Inv(model) && model == Drain(old(model), task, during)
      ensures forall id :: id in model.owner && model.owner[id] == task ==> HasRun(model, id)
    {
      if task in stacks {
        var rest := during;
        while stacks[task] != []
          invariant Valid() && task in stacks
          invariant DrainLegal(model, task, rest) && Drain(model, task, rest) == Drain(old(model), task, during)
          decreases |rest|, |stacks[task]|
        {
          RunOne(task, Head(rest));
          rest := Tail(rest);
        }
      }
      TraceIsRun(old(model), task, during);
      InvRun(old(model), Trace(old(model), task, during));
      Discard(task);
      EndedHaveRun(model);
    }
  }
}

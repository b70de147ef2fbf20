/** The coroutine switcher as the program keeps it: coroutine objects linked by `origin`,
    a `current` pointer, saved machine contexts, a registry by cid, and PHP tasks that
    hold executor registers.  The machine context switch is an abstract one-shot
    transfer: a context may be entered only while it is the one its owner stopped at. */
module Coroutines {
  import opened SwitchSpec

  /** Where execution of a C++ stack stopped: before its first instruction, in `yield`, or
      behind a call of `swap_in`. */
  datatype Point = Start | InYield | InSwapIn

  /** A saved machine context.  Stacks are named by the cid of their coroutine, 0 is main's. */
  datatype Context = Context(stack: int, point: Point, stamp: nat)

  const MAIN: int := 0

  /** php_coro_task: the executor registers of a coroutine that does not run. */
  class Task {
    const co: Coroutine?
    var saved: Registers

    constructor (co: Coroutine?, saved: Registers)
      ensures this.co == co && this.saved == saved
    {
      this.co := co;
      this.saved := saved;
    }
  }

  class Coroutine {
    const cid: int
    var origin: Coroutine?
    var task: Task?
    var ctx: Context       // where to continue this coroutine
    var swapCtx: Context   // where to continue whoever resumed it
    var ended: bool

    constructor (cid: int, start: Context)
      ensures this.cid == cid && origin == null && task == null && ctx == start && !ended
    {
      this.cid := cid;
      this.origin := null;
      this.task := null;
      this.ctx := start;
      this.swapCtx := start;
      this.ended := false;
    }
  }

  /** An active coroutine and the one that resumed it, with their tasks; the caller null
      stands for main. */
  datatype Frame = Frame(co: Coroutine, task: Task, caller: Coroutine?, callerTask: Task)

  ghost function Tip(frames: seq<Frame>): Coroutine? {
    if frames == [] then null else frames[|frames| - 1].co
  }

  ghost function TipTask(frames: seq<Frame>, mainTask: Task): Task {
    if frames == [] then mainTask else frames[|frames| - 1].task
  }

  /** Each frame was resumed by the one below it. */
  ghost predicate Nested(frames: seq<Frame>, mainTask: Task)
    decreases |frames|
  {
    frames == [] ||
    var f, below := frames[|frames| - 1], frames[..|frames| - 1];
    f.caller == Tip(below) && f.callerTask == TipTask(below, mainTask) && Nested(below, mainTask)
  }

  ghost function StackOf(co: Coroutine?): int {
    if co == null then MAIN else co.cid
  }

  lemma {:induction false} NestedAt(frames: seq<Frame>, mainTask: Task, i: nat)
    requires Nested(frames, mainTask) && i < |frames|
    ensures frames[i].caller == if i == 0 then null else frames[i - 1].co
    decreases |frames|
  {
    if i < |frames| - 1 {
      NestedAt(frames[..|frames| - 1], mainTask, i);
    }
  }

  /** The static members of Coroutine and PHPCoroutine, the executor globals, the page
      allocator and the processor. */
  class Switcher {
    // executor globals
    var eg: Registers
    // Coroutine
    var current: Coroutine?
    var coroutines: map<int, Coroutine>
    var lastCid: int
    // PHPCoroutine
    const mainTask: Task
    // pages handed out and given back
    var nextPage: int
    var freed: seq<int>
    // the processor: who runs, and the one context at which each other stack has stopped
    var cpu: int
    var stopped: map<int, Context>
    var clock: nat
    var resuming: map<int, Coroutine>   // `this` of the innermost `run` or `resume` of each stack

    ghost var model: State
    ghost var live: set<Coroutine>
    ghost var frames: seq<Frame>   // the active coroutines, innermost last
    ghost var Repr: set<object>

    ghost predicate Valid()
      reads this, Repr
    {
      Books() && Links()
    }

    /** The registry holds the live coroutines under their own cids and nothing else. */
    ghost predicate Books()
      reads this, Repr
    {
      && this in Repr && mainTask in Repr && mainTask.co == null
      && (forall c {:trigger c in live} :: c in live ==>
            && c in Repr && !c.ended && c.cid in coroutines && coroutines[c.cid] == c
            && c.task != null && c.task in Repr && c.task.co == c)
      && (forall k {:trigger Live(model, k)} :: k in coroutines <==> Live(model, k))
      && (forall k {:trigger k in coroutines} :: k in coroutines ==>
            coroutines[k] in live && coroutines[k].cid == k && k != MAIN)
      && lastCid == model.lastCid && nextPage == model.nextPage && freed == model.freed
      && eg == model.regs
    }

    /** The separately kept structures describe the same nesting: `current` and `origin`
        pointers, saved machine contexts, and the registers saved in tasks. */
    ghost predicate Links()
      requires Books()
      reads this, Repr
    {
      && |frames| == |model.active| == |model.saved|
      && Nested(frames, mainTask) && current == Tip(frames)
      && cpu == StackOf(current) && cpu !in stopped && cpu <= lastCid
      && (forall k :: k in stopped ==> k <= lastCid)
      && FramesLinked() && ParkedLinked()
    }

    ghost predicate FramesLinked()
      requires Books() && |frames| == |model.active| == |model.saved|
      reads this, Repr
    {
      forall i {:trigger frames[i]} :: 0 <= i < |frames| ==>
        var f := frames[i];
        && f.co in live && f.co.cid == model.active[i] && f.co.task == f.task
        && f.callerTask in Repr && f.callerTask.co == f.caller
        && f.co.origin == f.caller
        && StackOf(f.caller) in resuming && resuming[StackOf(f.caller)] == f.co
        && f.co.swapCtx.stack == StackOf(f.caller)
        && f.co.swapCtx.point == InSwapIn
        && f.co.swapCtx.stack in stopped && stopped[f.co.swapCtx.stack] == f.co.swapCtx
        && f.callerTask.saved == model.saved[i]
    }

    ghost predicate ParkedLinked()
      requires Books()
      reads this, Repr
    {
      forall c {:trigger c in live} :: c in live && c.cid in model.parked ==>
        && c.ctx.stack == c.cid
        && c.ctx.point == InYield
        && c.cid in stopped && stopped[c.cid] == c.ctx
        && c.task.saved == model.parked[c.cid]
    }

    constructor (regs: Registers)
      ensures Valid() && Init(model) && model.regs == regs && fresh(Repr)
    {
      eg := regs;
      current := null;
      coroutines := map[];
      lastCid := 0;
      mainTask := new Task(null, regs);
      nextPage := 0;
      freed := [];
      cpu := MAIN;
      resuming := map[];
      stopped := map[];
      clock := 0;
      model := State([], [], map[], regs, 0, map[], 0, []);
      live := {};
      frames := [];
      new;
      Repr := {this, mainTask};
    }

    /** jump_fcontext: stop here, continue at `target`.  Entering a context its owner did
        not stop at, or stopped at before but has left since, is outside the contract. */
    method Jump(point: Point, target: Context) returns (here: Context)
      requires target.stack in stopped && stopped[target.stack] == target && cpu !in stopped
      modifies this`cpu, this`stopped, this`clock
      ensures here.stack == old(cpu) && here.point == point
      ensures cpu == target.stack && stopped == (old(stopped) - {target.stack})[old(cpu) := here]
    {
      here := Context(cpu, point, clock);
      clock := clock + 1;
      stopped := (stopped - {target.stack})[cpu := here];
      cpu := target.stack;
    }

    method GetByCid(cid: int) returns (co: Coroutine?)
      requires Valid()
      ensures co != null <==> Live(model, cid)
      ensures co != null ==> co.cid == cid && co in live
    {
      co := if cid in coroutines then coroutines[cid] else null;
    }

    function GetTask(): Task
      reads this, if current != null then {current} else {}
    {
      if current != null && current.task != null then current.task else mainTask
    }

    function GetOriginTask(task: Task): Task?
      requires task.co != null
      reads task.co, if task.co.origin != null then {task.co.origin} else {}
    {
      if task.co.origin != null then task.co.origin.task else mainTask
    }

    method SaveVmStack(task: Task)
      modifies task`saved
      ensures task.saved == eg
    {
      task.saved := Registers(eg.top, eg.end, eg.page, eg.pageSize, eg.frame);
    }

    method RestoreVmStack(task: Task)
      modifies this`eg
      ensures eg == task.saved
    {
      eg := Registers(task.saved.top, task.saved.end, task.saved.page, task.saved.pageSize, task.saved.frame);
    }

    method OnYield(task: Task)
      requires task.co != null && GetOriginTask(task) != null
      modifies this`eg, task`saved
      ensures task.saved == old(eg) && eg == GetOriginTask(task).saved
    {
      var originTask := GetOriginTask(task);
      SaveVmStack(task);
      RestoreVmStack(originTask);
    }

    method OnResume(task: Task)
      modifies this`eg, GetTask()`saved
      ensures GetTask().saved == old(eg) && eg == task.saved
    {
      var currentTask := GetTask();
      SaveVmStack(currentTask);
      RestoreVmStack(task);
    }

    method OnClose(task: Task)
      requires task.co != null && GetOriginTask(task) != null
      modifies this`eg, this`freed
      ensures freed == old(freed) + [old(eg).page] && eg == GetOriginTask(task).saved
    {
      var originTask := GetOriginTask(task);
      freed := freed + [eg.page];
      RestoreVmStack(originTask);
    }

    /** What `run` and `resume` do when control comes back behind their `swap_in`.  When
        the callee has ended, the cid that leaves the registry and the page that is given
        back are read from `current` and the executor, not from the callee. */
    method AfterSwapIn(callee: Coroutine) returns (cid: int)
      requires callee.ended ==> current != null && callee.task != null && callee.task.co == callee
      requires callee.ended && callee.origin != null ==> callee.origin.task != null
      modifies this`eg, this`freed, this`current, this`coroutines, this`stopped
      ensures !callee.ended ==>
                && cid == callee.cid && eg == old(eg) && freed == old(freed)
                && current == old(current) && coroutines == old(coroutines) && stopped == old(stopped)
      ensures callee.ended ==>
                && cid == old(current).cid
                && freed == old(freed) + [old(eg).page]
                && eg == (if callee.origin == null then mainTask.saved else callee.origin.task.saved)
                && current == callee.origin
                && coroutines == old(coroutines) - {cid}
                && stopped == old(stopped) - {callee.cid}
    {
      cid := callee.cid;
      if callee.ended {
        OnClose(callee.task);
        cid := current.cid;
        current := callee.origin;
        coroutines := coroutines - {cid};
        stopped := stopped - {callee.cid};   // delete this
      }
    }

    /** Context::swap_out: stop this coroutine, continue its resumer behind `swap_in`. */
    method SwapOut(co: Coroutine)
      requires cpu !in stopped && cpu == co.cid
      requires co.swapCtx.stack in stopped && stopped[co.swapCtx.stack] == co.swapCtx
      modifies this`cpu, this`stopped, this`clock, co`ctx
      ensures cpu == co.swapCtx.stack
      ensures co.ctx.stack == co.cid && co.ctx.point == InYield
      ensures stopped == (old(stopped) - {co.swapCtx.stack})[co.cid := co.ctx]
    {
      var here := Jump(InYield, co.swapCtx);
      co.ctx := here;
    }

    /** Nothing changed in coroutines other than `co` and tasks other than `task`. */
    twostate predicate Untouched(co: Coroutine?, task: Task?)
      reads this, Repr
    {
      && old(Repr) <= Repr
      && (forall c: Coroutine {:trigger c in old(Repr)} :: c in old(Repr) && c != co ==>
            && c.origin == old(c.origin) && c.task == old(c.task) && c.ctx == old(c.ctx)
            && c.swapCtx == old(c.swapCtx) && c.ended == old(c.ended))
      && (forall t: Task {:trigger t.saved} :: t in old(Repr) && t != task ==> t.saved == old(t.saved))
    }

    /** The statements of Coroutine::yield up to the moment the resumer runs again. */
    method LeaveCurrent(co: Coroutine, ghost next: State, ghost below: seq<Frame>)
      requires co == current && !co.ended && co.task != null && co.task.co == co
      requires GetOriginTask(co.task) != null && GetOriginTask(co.task) != co.task
      requires cpu == co.cid && cpu !in stopped
      requires co.swapCtx.stack in stopped && stopped[co.swapCtx.stack] == co.swapCtx
      requires co.swapCtx.stack in resuming && resuming[co.swapCtx.stack] == co
      modifies this`eg, this`current, this`cpu, this`stopped, this`clock
      modifies this`freed, this`coroutines, this`model, this`frames, this`live, co`ctx, co.task`saved
      ensures model == next && frames == below && YieldEffect(co)
    {
      OnYield(co.task);
      current := co.origin;
      SwapOut(co);
      var _ := AfterSwapIn(resuming[cpu]);
      Unwind(next, below, live);
    }

    ghost method Unwind(next: State, below: seq<Frame>, left: set<Coroutine>)
      modifies this`model, this`frames, this`live
      ensures model == next && frames == below && live == left
    {
      model, frames, live := next, below, left;
    }

    /** How the machine differs when the resumer of a coroutine that yields runs again. */
    twostate predicate YieldEffect(co: Coroutine)
      reads this, co, co.task
    {
      && live == old(live) && coroutines == old(coroutines) && resuming == old(resuming)
      && lastCid == old(lastCid) && nextPage == old(nextPage) && freed == old(freed)
      && co.origin == old(co.origin) && co.task == old(co.task) && co.swapCtx == old(co.swapCtx) && !co.ended
      && co.task != null && co.task.saved == old(eg)
      && co.ctx.stack == co.cid && co.ctx.point == InYield
      && current == old(co.origin)
      && eg == (if old(co.origin) == null then old(mainTask.saved)
                else if old(co.origin.task) == null then eg else old(co.origin.task.saved))
      && cpu == co.swapCtx.stack && stopped == (old(stopped) - {cpu})[co.cid := co.ctx]
    }

    /** The running coroutine suspends itself; control lands behind the `swap_in` of
        whoever resumed it. */
    method Yield(co: Coroutine)
      requires Valid() && StackWf(model) && co == current
      modifies Repr
      ensures Valid() && model == Step(old(model), Op.Yield) && Repr == old(Repr)
    {
      ghost var next := Step(model, Op.Yield);
      ghost var below := frames[..|frames| - 1];
      LeaveCurrent(co, next, below);
      YieldedBooks(co);
      YieldedLinks(co);
    }

    twostate lemma YieldedBooks(co: Coroutine)
      requires old(Valid()) && StackWf(old(model)) && co == old(current)
      requires Repr == old(Repr) && Untouched(co, old(co.task)) && YieldEffect(co)
      requires model == Step(old(model), Op.Yield) && frames == old(frames)[..|old(frames)| - 1]
      ensures Books()
    {
      LiveStep(old(model), Op.Yield);
      assert forall k {:trigger Live(model, k)} :: Live(model, k) <==> Live(old(model), k);
      assert frames == [] || old(frames)[|frames| - 1] == frames[|frames| - 1];
    }

    twostate lemma YieldedLinks(co: Coroutine)
      requires old(Valid()) && StackWf(old(model)) && co == old(current)
      requires Repr == old(Repr) && Untouched(co, old(co.task)) && YieldEffect(co)
      requires model == Step(old(model), Op.Yield) && frames == old(frames)[..|old(frames)| - 1]
      requires Books()
      ensures Links()
    {
    }

    /** Context::swap_in: stop here and continue the callee where it stopped. */
    method SwapIn(co: Coroutine)
      requires cpu !in stopped
      requires co.ctx.stack in stopped && stopped[co.ctx.stack] == co.ctx
      modifies this`cpu, this`stopped, this`clock, co`swapCtx
      ensures cpu == co.ctx.stack
      ensures co.swapCtx.stack == old(cpu) && co.swapCtx.point == InSwapIn
      ensures stopped == (old(stopped) - {co.ctx.stack})[old(cpu) := co.swapCtx]
    {
      var here := Jump(InSwapIn, co.ctx);
      co.swapCtx := here;
    }

    /** The part that `run` and `resume` share. */
    method SwitchTo(co: Coroutine)
      requires cpu !in stopped
      requires co.ctx.stack in stopped && stopped[co.ctx.stack] == co.ctx
      modifies this`cpu, this`stopped, this`clock, this`current, this`resuming, co`swapCtx, co`origin
      ensures co.origin == old(current) && current == co
      ensures resuming == old(resuming)[old(cpu) := co]
      ensures cpu == co.ctx.stack
      ensures co.swapCtx.stack == old(cpu) && co.swapCtx.point == InSwapIn
      ensures stopped == (old(stopped) - {co.ctx.stack})[old(cpu) := co.swapCtx]
    {
      co.origin := current;
      current := co;
      resuming := resuming[cpu := co];
      SwapIn(co);
    }

    /** The statements of Coroutine::resume up to the moment the callee runs again. */
    method EnterParked(co: Coroutine, ghost next: State, ghost above: seq<Frame>)
      requires co.task != null && GetTask() != co.task && !co.ended
      requires cpu !in stopped
      requires co.ctx.stack in stopped && stopped[co.ctx.stack] == co.ctx
      modifies this`eg, this`cpu, this`stopped, this`clock, this`current, this`resuming
      modifies this`model, this`frames, co`swapCtx, co`origin, GetTask()`saved
      ensures model == next && frames == above && ResumeEffect(co, old(GetTask()))
    {
      OnResume(co.task);
      SwitchTo(co);
      model, frames := next, above;
    }

    /** How the machine differs when the callee of a resume runs. */
    twostate predicate ResumeEffect(co: Coroutine, saver: Task)
      reads this, co, saver
    {
      && live == old(live) && coroutines == old(coroutines)
      && lastCid == old(lastCid) && nextPage == old(nextPage) && freed == old(freed)
      && co.task == old(co.task) && co.task != null && co.ctx == old(co.ctx) && !co.ended
      && co.origin == old(current) && current == co
      && saver.saved == old(eg) && eg == old(co.task.saved)
      && resuming == old(resuming)[old(cpu) := co]
      && co.swapCtx.stack == old(cpu) && co.swapCtx.point == InSwapIn
      && cpu == co.ctx.stack && stopped == (old(stopped) - {cpu})[old(cpu) := co.swapCtx]
    }

    /** Control goes to a suspended coroutine, which continues behind its `yield`. */
    method Resume(co: Coroutine)
      requires Valid() && StackWf(model) && co in live && co.cid in model.parked
      modifies Repr
      ensures Valid() && model == Step(old(model), Op.Resume(co.cid)) && Repr == old(Repr)
    {
      ghost var next := Step(model, Op.Resume(co.cid));
      ghost var above := frames + [Frame(co, co.task, current, GetTask())];
      EnterParked(co, next, above);
      ResumedBooks(co);
      ResumedLinks(co);
    }

    twostate lemma ResumedBooks(co: Coroutine)
      requires old(Valid()) && StackWf(old(model)) && co in old(live) && co.cid in old(model).parked
      requires Repr == old(Repr) && Untouched(co, old(GetTask())) && ResumeEffect(co, old(GetTask()))
      requires model == Step(old(model), Op.Resume(co.cid))
      requires frames == old(frames) + [Frame(co, old(co.task), old(current), old(GetTask()))]
      ensures Books()
    {
      LiveStep(old(model), Op.Resume(co.cid));
      assert forall k {:trigger Live(model, k)} :: Live(model, k) <==> Live(old(model), k);
    }

    twostate lemma ResumedLinks(co: Coroutine)
      requires old(Valid()) && StackWf(old(model)) && co in old(live) && co.cid in old(model).parked
      requires Repr == old(Repr) && Untouched(co, old(GetTask())) && ResumeEffect(co, old(GetTask()))
      requires model == Step(old(model), Op.Resume(co.cid))
      requires frames == old(frames) + [Frame(co, old(co.task), old(current), old(GetTask()))]
      requires Books()
      ensures Links()
    {
      assert frames[..|frames| - 1] == old(frames);
    }

    /** The constructor of Coroutine, make_fcontext and Coroutine::run up to the moment the
        new coroutine runs. */
    method Spawn() returns (co: Coroutine)
      requires cpu !in stopped && cpu != lastCid + 1 && lastCid + 1 !in stopped
      modifies this`cpu, this`stopped, this`clock, this`current, this`resuming
      modifies this`lastCid, this`coroutines
      ensures fresh(co) && co.cid == lastCid == old(lastCid) + 1 && !co.ended
      ensures coroutines == old(coroutines)[lastCid := co]
      ensures co.origin == old(current) && current == co
      ensures resuming == old(resuming)[old(cpu) := co]
      ensures co.swapCtx.stack == old(cpu) && co.swapCtx.point == InSwapIn
      ensures cpu == co.cid && stopped == old(stopped)[old(cpu) := co.swapCtx]
    {
      lastCid := lastCid + 1;
      var start := Context(lastCid, Start, clock);
      stopped := stopped[lastCid := start];
      co := new Coroutine(lastCid, start);
      coroutines := coroutines[lastCid := co];
      SwitchTo(co);
      assert stopped == old(stopped)[old(cpu) := co.swapCtx];
    }

    /** The prologue of `create_func`: a fresh page, and on it the task. */
    method CreateFunc(top: int, frame: int)
      requires current != null
      modifies this`eg, this`nextPage, current`task
      ensures current.task != null && fresh(current.task) && current.task.co == current
      ensures eg == Registers(top, PAGE_SIZE, old(nextPage), PAGE_SIZE, frame) && nextPage == old(nextPage) + 1
    {
      // vm_stack_init, then the frame of the body
      eg := Registers(top, PAGE_SIZE, nextPage, PAGE_SIZE, frame);
      nextPage := nextPage + 1;
      var task := new Task(current, eg);
      current.task := task;
    }

    method EnterNew(top: int, frame: int, ghost next: State) returns (co: Coroutine)
      requires cpu !in stopped && cpu != lastCid + 1 && lastCid + 1 !in stopped
      modifies this`eg, this`cpu, this`stopped, this`clock, this`current, this`resuming
      modifies this`lastCid, this`coroutines, this`nextPage, GetTask()`saved
      modifies this`model, this`frames, this`live, this`Repr
      ensures fresh(co) && co.task != null && fresh(co.task) && model == next
      ensures frames == old(frames) + [Frame(co, co.task, old(current), old(GetTask()))]
      ensures Repr == old(Repr) + {co, co.task}
      ensures CreateEffect(co, old(GetTask()), top, frame)
    {
      ghost var caller, callerTask := current, GetTask();
      SaveVmStack(GetTask());
      co := Spawn();
      CreateFunc(top, frame);
      Record(co, co.task, caller, callerTask, next);
    }

    ghost method Record(co: Coroutine, task: Task, caller: Coroutine?, callerTask: Task, next: State)
      modifies this`model, this`frames, this`live, this`Repr
      ensures model == next && frames == old(frames) + [Frame(co, task, caller, callerTask)]
      ensures live == old(live) + {co} && Repr == old(Repr) + {co, task}
    {
      frames := frames + [Frame(co, task, caller, callerTask)];
      model, live, Repr := next, live + {co}, Repr + {co, task};
    }

    /** How the machine differs when a coroutine that was just created runs. */
    twostate predicate CreateEffect(new co: Coroutine, saver: Task, top: int, frame: int)
      reads this, co, co.task, saver
    {
      && live == old(live) + {co} && co.task != null && co.task.co == co
      && co.cid == lastCid == old(lastCid) + 1
      && coroutines == old(coroutines)[co.cid := co]
      && nextPage == old(nextPage) + 1 && freed == old(freed)
      && eg == Registers(top, PAGE_SIZE, old(nextPage), PAGE_SIZE, frame)
      && !co.ended && co.origin == old(current) && current == co
      && saver.saved == old(eg)
      && resuming == old(resuming)[old(cpu) := co]
      && co.swapCtx.stack == old(cpu) && co.swapCtx.point == InSwapIn
      && cpu == co.cid && stopped == old(stopped)[old(cpu) := co.swapCtx]
    }

    /** A new coroutine is made and control goes to it at once. */
    method Create(top: int, frame: int) returns (co: Coroutine)
      requires Valid() && StackWf(model)
      modifies Repr
      ensures Valid() && model == Step(old(model), Op.Create(top, frame))
      ensures fresh(Repr - old(Repr)) && co in live && co.cid == model.lastCid
    {
      ghost var next := Step(model, Op.Create(top, frame));
      co := EnterNew(top, frame, next);
      CreatedBooks(co);
      CreatedLinks(co);
    }

    twostate lemma CreatedBooks(new co: Coroutine)
      requires old(Valid()) && StackWf(old(model)) && fresh(co) && co.task != null && fresh(co.task)
      requires Repr == old(Repr) + {co, co.task} && Untouched(null, old(GetTask()))
      requires CreateEffect(co, old(GetTask()), eg.top, eg.frame)
      requires model == Step(old(model), Op.Create(eg.top, eg.frame))
      requires frames == old(frames) + [Frame(co, co.task, old(current), old(GetTask()))]
      ensures Books()
    {
      LiveStep(old(model), Op.Create(eg.top, eg.frame));
      forall c | c in old(live) ensures c.cid != co.cid && c in old(Repr) {
        assert Live(old(model), c.cid);
      }
      assert forall k {:trigger Live(model, k)} :: Live(model, k) <==> Live(old(model), k) || k == co.cid;
    }

    twostate lemma CreatedFrames(new co: Coroutine)
      requires old(Valid()) && StackWf(old(model)) && fresh(co) && co.task != null && fresh(co.task)
      requires Repr == old(Repr) + {co, co.task} && Untouched(null, old(GetTask()))
      requires CreateEffect(co, old(GetTask()), eg.top, eg.frame)
      requires model == Step(old(model), Op.Create(eg.top, eg.frame))
      requires frames == old(frames) + [Frame(co, co.task, old(current), old(GetTask()))]
      requires Books() && |frames| == |model.active| == |model.saved|
      ensures FramesLinked()
    {
      assert forall c :: c in old(live) ==> c in old(Repr);
    }

    twostate lemma CreatedLinks(new co: Coroutine)
      requires old(Valid()) && StackWf(old(model)) && fresh(co) && co.task != null && fresh(co.task)
      requires Repr == old(Repr) + {co, co.task} && Untouched(null, old(GetTask()))
      requires CreateEffect(co, old(GetTask()), eg.top, eg.frame)
      requires model == Step(old(model), Op.Create(eg.top, eg.frame))
      requires frames == old(frames) + [Frame(co, co.task, old(current), old(GetTask()))]
      requires Books()
      ensures Links()
    {
      assert frames[..|frames| - 1] == old(frames);
      assert !Live(old(model), co.cid);
      CreatedFrames(co);
      assert forall c :: c in old(live) ==> c in old(Repr);
    }

    /** `context_func` behind the body of the coroutine, up to the moment the resumer has
        disposed of it. */
    method Finish(co: Coroutine, ghost next: State, ghost below: seq<Frame>) returns (cid: int)
      requires co == current && co.task != null && co.task.co == co
      requires co.origin != null ==> co.origin.task != null
      requires cpu == co.cid && cpu !in stopped
      requires co.swapCtx.stack in stopped && stopped[co.swapCtx.stack] == co.swapCtx
      requires co.swapCtx.stack in resuming && resuming[co.swapCtx.stack] == co
      modifies this`eg, this`current, this`cpu, this`stopped, this`clock
      modifies this`freed, this`coroutines, this`model, this`frames, this`live, co`ctx, co`ended
      ensures model == next && frames == below && EndEffect(co) && cid == co.cid
    {
      co.ended := true;
      SwapOut(co);
      cid := AfterSwapIn(resuming[cpu]);
      Unwind(next, below, live - {co});
    }

    /** How the machine differs when the resumer of a coroutine that ended runs again. */
    twostate predicate EndEffect(co: Coroutine)
      reads this, co
    {
      && live == old(live) - {co} && coroutines == old(coroutines) - {co.cid} && resuming == old(resuming)
      && lastCid == old(lastCid) && nextPage == old(nextPage) && freed == old(freed) + [old(eg).page]
      && current == old(co.origin)
      && eg == (if old(co.origin) == null then old(mainTask.saved)
                else if old(co.origin.task) == null then eg else old(co.origin.task.saved))
      && cpu == old(co.swapCtx).stack && stopped == old(stopped) - {cpu} - {co.cid}
    }

    /** The running coroutine ends; control lands behind the `swap_in` of whoever resumed
        it, who gives its page back and takes it out of the registry. */
    method End(co: Coroutine) returns (cid: int)
      requires Valid() && StackWf(model) && co == current && Legal(model, Op.End)
      modifies Repr
      ensures Valid() && model == Step(old(model), Op.End) && Repr == old(Repr) && cid == co.cid
    {
      ghost var next := Step(model, Op.End);
      ghost var below := frames[..|frames| - 1];
      cid := Finish(co, next, below);
      EndedBooks(co);
      EndedLinks(co);
    }

    twostate lemma EndedBooks(co: Coroutine)
      requires old(Valid()) && StackWf(old(model)) && co == old(current) && Legal(old(model), Op.End)
      requires Repr == old(Repr) && Untouched(co, null) && EndEffect(co)
      requires model == Step(old(model), Op.End) && frames == old(frames)[..|old(frames)| - 1]
      ensures Books()
    {
      LiveStep(old(model), Op.End);
      assert frames == [] || old(frames)[|frames| - 1] == frames[|frames| - 1];
      assert forall k {:trigger Live(model, k)} :: Live(model, k) <==> Live(old(model), k) && k != co.cid;
    }

    twostate lemma EndedLinks(co: Coroutine)
      requires old(Valid()) && StackWf(old(model)) && co == old(current) && Legal(old(model), Op.End)
      requires Repr == old(Repr) && Untouched(co, null) && EndEffect(co)
      requires model == Step(old(model), Op.End) && frames == old(frames)[..|old(frames)| - 1]
      requires Books()
      ensures Links()
    {
    }

    /** PHP code of whoever runs moves the executor registers. */
    method Compute(regs: Registers)
      requires Valid()
      modifies this`eg, this`model
      ensures Valid() && model == Step(old(model), Op.Compute(regs))
    {
      eg, model := regs, Step(model, Op.Compute(regs));
      assert forall k {:trigger Live(model, k)} :: Live(model, k) <==> Live(old(model), k);
    }

    /** The `origin` pointers lead from `current` through the active coroutines, each once,
        to main, and every level's saved context continues the coroutine named by `origin`. */
    lemma SwitchAgreement(i: nat)
      requires Valid() && StackWf(model) && i < |frames|
      ensures frames[|frames| - 1].co == current
      ensures frames[i].co.cid == model.active[i]
      ensures frames[i].co.origin == (if i == 0 then null else frames[i - 1].co)
      ensures frames[i].co.swapCtx.stack == (if i == 0 then MAIN else model.active[i - 1])
      ensures forall j :: 0 <= j < |frames| && j != i ==> frames[j].co != frames[i].co
    {
      NestedAt(frames, mainTask, i);
      assert i > 0 ==> frames[i - 1].co.cid == model.active[i - 1];
      forall j | 0 <= j < |frames| && j != i ensures frames[j].co != frames[i].co {
        assert frames[j].co.cid == model.active[j];
      }
    }

    method Perform(op: Op)
      requires Valid() && StackWf(model) && Legal(model, op)
      modifies Repr
      ensures Valid() && StackWf(model) && model == Step(old(model), op) && fresh(Repr - old(Repr))
    {
      LiveStep(model, op);
      match op
      case Compute(regs) => this.Compute(regs);
      case Create(top, frame) => var _ := this.Create(top, frame);
      case Resume(cid) =>
        assert Live(model, cid);
        var co := GetByCid(cid);
        this.Resume(co);
      case Yield => this.Yield(current);
      case End => var _ := this.End(current);
    }

    /** Any program of the reference machine, carried out by pointers and contexts. */
    method Execute(ops: seq<Op>)
      requires Valid() && StackWf(model) && LegalRun(model, ops)
      modifies Repr
      ensures Valid() && StackWf(model) && model == Run(old(model), ops) && fresh(Repr - old(Repr))
      decreases |ops|
    {
      if ops != [] {
        Perform(ops[0]);
        Execute(ops[1..]);
      }
    }
  }
}

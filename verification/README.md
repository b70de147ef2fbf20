# A verified model of the coroutine runtime

The extension runs PHP functions as coroutines on one thread: a switcher that jumps between
C++ stacks and exchanges the registers of the Zend executor, an event loop over epoll with a
list of timers, and channels between coroutines.  Beside it stand a thread pool and a spin
lock.  This project models the logic of these parts in Dafny and proves what holds in every
run.  `dafny verify dfyconfig.toml` checks all of it.

Code that changes things in place is modelled in place: classes with fields, arrays and linked
nodes, whose methods are proved to do exactly what a function on values says.  The main results
are then proved about those functions and about all runs of them.

| file | what it models |
|---|---|
| `SwitchSpec.dfy` | the switcher as a stack of active coroutines: the reference machine |
| `Coroutines.dfy` | the switcher as it is: `current` and `origin` pointers, saved contexts, the registry, tasks with saved executor registers, pages; refines the reference machine |
| `ChannelSpec.dfy`, `Channels.dfy` | a channel on values, over any schedule and over untimed runs; the channel object |
| `TimerSpec.dfy`, `TimerTurns.dfy`, `Timers.dfy` | deadlines, the timer list and a firing pass as one sweep; the pass turn by turn, and when it ends; the linked list and the restarting loop |
| `Poll.dfy` | packing of descriptor and cid, `wait_event`, and the dispatch loop over the shared array |
| `Runtime.dfy` | switcher, timers, epoll, channels and hand-resumed coroutines together, as one machine |
| `RuntimeBase.dfy`, `RuntimeCareful.dfy`, `RuntimeSteps.dfy` | what every step keeps: of any code, of careful code, of disciplined code |
| `RuntimeRuns.dfy`, `RuntimeLoop.dfy`, `RuntimeExit.dfy` | whole runs; what the event loop can come to; when it can be left |
| `RuntimeControl.dfy`, `RuntimeCalls.dfy`, `RuntimeTimes.dfy` | who runs after each step, and what entries are for; what the calls of a run add up to; how long waits last and how far apart timers fire |
| `RuntimeRestless.dfy`, `RuntimeTimeouts.dfy` | what an event that is due again at once does to the loop; what a channel wait with a timeout does |
| `RuntimeViews.dfy` | the machine's timers, passes and reports are those of `TimerSpec.dfy`, `TimerTurns.dfy` and `Poll.dfy` |
| `DeferSpec.dfy`, `Defers.dfy` | deferred callbacks in any interleaving; the loop that runs them |
| `ThreadPool.dfy`, `ThreadPools.dfy` | the pool as a transition system; the pool object |
| `SpinLock.dfy` | one backoff round in 32-bit arithmetic, and mutual exclusion |

The results about the whole runtime speak of three kinds of programs: *any* code that calls what
can be called; *careful* code, which has one waiter per descriptor, does not delete the timer of
a sleep or of a channel, and does not delete a periodic timer from its own callback; and
*disciplined* code, which is careful and makes no channel wait with a timeout (a call with a
timeout that finds it need not wait is allowed).  Results that hold of all runs let timers fire in
any order and at any time.  Results that say a run exists say whether it is one that the clock
allows: a pass fires the newest due event first and ends when none is due, and time passes in
epoll_wait.  A *restless* event is one that asks to be put off by 0 ms or less, as `tick(0)` does.

## What the proofs found

- Nothing lowers `event_num`.  So inside the loop `event_wait` can still return exactly when nobody
  has called `wait_event` since the poll was opened; once somebody has, no run leaves the loop
  (`LeavesExactlyUncounted`, and `SocketTraps` for an input).
- At times the clock allows it can return exactly when moreover no restless event gets ahead of all
  PHP code that could delete it (`LeavesInTimeExactly`, and `ZeroTickTraps` for an input: `tick(0)`
  by main, and then `event_wait`).  The same condition decides whether a sleeper can be woken
  (`SleeperWakesExactly`).
- The channel constructor ignores the capacity it is given; every channel has capacity 1,
  although `channel_util_v2.cc:56-66` passes the one the user asked for.  The theorems hold for
  every capacity from 1 on.
- A channel wait with a timeout leaves two entries that name one coroutine, and neither is taken
  back when the other is served.  From every state that disciplined code can reach, one such
  wait is enough: some continuation without further misuse resumes that coroutine while it is not
  suspended.  Without such a wait none does.  So the condition, which a caller can test before
  the call (full for `push`, empty for `pop`, and a timeout above 0), is exact
  (`ExactlyTimedWaitsBreak`).
- Any code can fail in two ways only: by a bad resume, and by a periodic callback that deletes its
  own event, which is written to afterwards (`OnlyTwoFailures`).  The second comes from nothing
  else (`FreedOnlyBySelf`), cannot be repaired (`FreedForGood`), and happens for instance to a
  `tick(5)` that deletes itself (`DeletingTickBreaks`).  Careful code is free of it
  (`CarefulNeverFrees`).
- `touint64` extends the sign of the id over the upper half: the descriptor survives exactly
  when the id is not negative or the descriptor is -1 (`RoundTrip`).
- A nearest deadline 2^31 ms or more ahead is returned as a different number, which from there to
  2^32 ms is negative, so that `epoll_wait` has no limit (`WaitIsExact`).
- A callback that returns 0, or a negative number other than NOMORE, is due again at once
  (`DueAgainAtOnce`).  Each callback of the program always returns the same value; so a pass ends
  exactly when no event that it sweeps over is restless or deletes itself (`PassEndsExactly`), that
  is, if nobody deletes such events, exactly when none that is due at its beginning is restless
  (`PassEndsIfDueLast`, and `ZeroTickNeverEnds` for an input).  A negative delay can leave
  milliseconds below 0 (`LaterIsExact`).
- A pool with no workers ends without running what it accepted (`Drained`), and the spin lock
  excludes exactly when nobody stores 0 (`MutualExclusion`); its backoff loop ends exactly when
  `spin` is at most 2^31 (`BackoffEnds`).
- What main defers is never run (`MainDefersInVain`).

## Model

| member | source | states |
|---|---|---|
| SwitchSpec.CallReturns | src/coroutine/lib_coroutine.cc:144-186 | after a create or resume, however deep the callee nests, control first comes back to the caller with the same coroutines active and the registers of the moment of the call |
| SwitchSpec.YieldReturns | src/coroutine/coroutine.cc:51-64 | a coroutine that yields stays resumable until it is resumed, and then has the registers it yielded with, whoever resumes it and however deep |
| SwitchSpec.PagesAndCids | src/coroutine/lib_coroutine.cc:159-166 | in every run pages given back are exactly those of ended coroutines, each once; none of an active or suspended one is |
| SwitchSpec.EndedForGood | include/coroutine.h:60-65 | a cid that has ended is never live again and the cid counter never falls |
| SwitchSpec.WfRun | include/coroutine.h:60-83 | every run keeps: nobody is both active and suspended, cids are 1..last, each coroutine owns its own page |
| SwitchSpec.LiveStep | include/coroutine.h:60-83 | who is live after an operation: create adds the new cid, end removes the one that ended, nothing else changes it |
| SwitchSpec.OpDoes | src/coroutine/coroutine.cc:51-74 | what each operation does to control: a resumed coroutine goes on top with the registers it was suspended with, a new one on a fresh page, and one that yields or ends hands back to the one below with that one's registers |
| Coroutines.Switcher.SwitchAgreement | src/coroutine/coroutine.cc:51-74 | the `origin` chain from `current` visits each active coroutine once, ends at main, and at each level agrees with the saved resumer context and with the reference stack |
| Coroutines.Switcher.constructor | src/coroutine/coroutine.cc:6-9 | the initial state is the start of the reference machine |
| Coroutines.Switcher.Jump | src/coroutine/context.cc:35-45 | one-shot transfer: a context is entered only where its stack last stopped |
| Coroutines.Switcher.GetByCid | include/coroutine.h:31-35 | the registry finds a cid exactly when it is live, and then the coroutine that carries it |
| Coroutines.Switcher.SaveVmStack | src/coroutine/lib_coroutine.cc:31-38 | the task holds the executor registers |
| Coroutines.Switcher.RestoreVmStack | src/coroutine/lib_coroutine.cc:179-186 | the executor registers are those of the task |
| Coroutines.Switcher.OnYield | src/coroutine/lib_coroutine.cc:144-150 | the yielding task keeps the registers, the origin's task supplies the new ones |
| Coroutines.Switcher.OnResume | src/coroutine/lib_coroutine.cc:152-158 | the current task, or main's, keeps the registers, the resumed task supplies the new ones |
| Coroutines.Switcher.OnClose | src/coroutine/lib_coroutine.cc:159-166 | the page in the executor is given back and the origin's registers are restored |
| Coroutines.Switcher.AfterSwapIn | src/coroutine/coroutine.cc:65-73 | behind `swap_in` nothing changes unless the callee has ended; then its page and registry entry go, read from `current` and the executor |
| Coroutines.Switcher.SwapOut | src/coroutine/context.cc:35-39 | the coroutine stops here and the stack saved as its resumer runs |
| Coroutines.Switcher.SwitchTo | src/coroutine/coroutine.cc:62-64 | the callee becomes current with the caller as its origin, and the caller's stop is saved in it |
| Coroutines.Switcher.Spawn | include/coroutine.h:60-72 | a new cid, a registry entry and the first entry into the new stack |
| Coroutines.Switcher.CreateFunc | src/coroutine/lib_coroutine.cc:56-80 | the new coroutine runs on a fresh page that holds its task |
| Coroutines.Switcher.Finish | src/coroutine/context.cc:28-33 | a body that returns marks its context ended and lands at its resumer, who removes it |
| Coroutines.Switcher.Yield | src/coroutine/coroutine.cc:51-57 | the pointer machine does exactly a Yield of the reference machine |
| Coroutines.Switcher.Resume | src/coroutine/coroutine.cc:58-64 | the pointer machine does exactly a Resume of the reference machine |
| Coroutines.Switcher.Create | src/coroutine/lib_coroutine.cc:16-25 | the pointer machine does exactly a Create of the reference machine |
| Coroutines.Switcher.End | include/coroutine.h:73-81 | the pointer machine does exactly an End of the reference machine, and the cid erased is that of the coroutine that ended |
| Coroutines.Switcher.Execute | src/coroutine/coroutine.cc:51-74 | any sequence of operations within the contract is carried out by pointers and contexts as the reference machine says |
| ChannelSpec.Conservation | src/coroutine/channel.cc:23-98 | under any schedule, timed waits and stray wake-ups included: data never exceed the capacity, and what was handed out followed by what is held is what accepted pushes put in, in order |
| ChannelSpec.StretchIs | src/coroutine/channel.cc:23-98 | what each stretch does, from any channel: a push is accepted exactly if there is room, a pop or `pop_data` takes the first datum if there is one and leaves the rest, push and pop take the first waiter from the other queue, `pop_data` wakes nobody |
| ChannelSpec.InvNext | src/coroutine/channel.cc:23-81 | every uninterrupted stretch of an untimed run keeps calls in call order |
| ChannelSpec.ClosedForm | src/coroutine/channel.cc:23-81 | after an untimed run with P pushes and q pops, counted over its calls alone, data, waiters and all results are determined: pop i gets the datum of push i, and those who wait are the last that called, in call order |
| ChannelSpec.NoFailure | src/coroutine/channel.cc:37-40 | in untimed runs no push returns false and no pop returns nothing; waiting producers mean full, waiting consumers mean empty |
| Channels.Channel.constructor | src/coroutine/channel.cc:9-11 | the capacity is 1 whatever is asked for |
| Channels.Channel.Push | src/coroutine/channel.cc:57-68 | up to its yield or its end `push` is the specified step, and a timer is armed exactly for a timed wait |
| Channels.Channel.PushBehindYield | src/coroutine/channel.cc:70-81 | behind the yield `push` refuses exactly when still full, else adds the datum and wakes the first consumer |
| Channels.Channel.Pop | src/coroutine/channel.cc:23-35 | up to its yield or its end `pop` is the specified step, and a timer is armed exactly for a timed wait |
| Channels.Channel.PopBehindYield | src/coroutine/channel.cc:37-55 | behind the yield `pop` returns nothing exactly when still empty, else the first datum, and wakes the first producer |
| Channels.Channel.PopDataNow | src/coroutine/channel.cc:87-98 | takes the first datum if there is one and wakes nobody |
| TimerSpec.LaterIsExact | src/timer/timer.cc:23-44 | a deadline totals now plus the delay, and is normalised exactly when the milliseconds do not fall below 0, always so for delays from 0 on |
| TimerSpec.DueIsExact | src/timer/timer.cc:170-171 | the two-part test is now >= deadline in milliseconds |
| TimerSpec.DueAgainAtOnce | src/timer/timer.cc:187-193 | a returned period makes the event due again at once exactly when it is not positive |
| TimerSpec.WaitIsExact | src/timer/timer.cc:109-126 | the wait is the gap when it is from 0 to below 2^31, the gap modulo 1000 when overdue, negative from 2^31 to 2^32 |
| TimerSpec.NearestWait | src/timer/timer.cc:94-127 | the wait never passes a future deadline below 2^31 ms and holds up an overdue one by under a second |
| TimerSpec.FireIs | src/timer/timer.cc:175-193 | one firing keeps the books, removes or re-arms the event, and otherwise drops only what its callback cancelled |
| TimerSpec.FiresUnlessCancelled | src/timer/timer.cc:156-201 | an event of the sweep fires exactly if it is there and no callback that fires before it cancels it |
| TimerSpec.PassIsExact | src/timer/timer.cc:133-203 | for all callbacks the sweep fires, in falling id and once each, exactly the events of the list that are due and not cancelled before, with their deadlines as they are, or without seconds exactly if the clock is behind the last pass; left are exactly those that no callback cancelled and that, if they fired, asked for a period; unfired ones are unchanged and not due, fired ones have their period, due again exactly if it is not positive; the time of the pass is noted |
| TimerSpec.ListIntegrity | src/timer/timer.cc:53-77 | over all runs of creation, deletion, beginnings of passes and single firings, whatever callbacks return, ids fall along the list and stay below the counter, and finalizers ran once for exactly the events that left |
| TimerSpec.ListIsAsAsked | src/timer/timer.cc:53-77 | over all such runs from an empty list, read off the actions alone: ids are given out in the order of the calls; an event that has neither fired nor been deleted is there and, if the clock has not gone back from pass to pass, due its delay after the call; the finalizers that ran are those of the events made with one that are gone, once each |
| TimerSpec.DeadlinesStay | src/timer/timer.cc:142-150 | over all runs in which the clock does not go back from pass to pass a deadline stays as it is until its event fires or is deleted |
| TimerTurns.PendingAfterFire | src/timer/timer.cc:195-197 | going back to the head is sound: after a firing that deletes its event or puts it off into the future, the due old events are exactly the rest of the sweep |
| TimerTurns.NextOfSweep | src/timer/timer.cc:156-173 | the first due event the scan meets is the next one of the sweep |
| TimerTurns.OneHistory | src/timer/timer.cc:156-201 | what callbacks do determines the pass: the turns it takes, the events it fires, and whether it comes to its end or is broken off |
| TimerTurns.FiringIsNewest | src/timer/timer.cc:156-173 | the scan from the head finds the newest due event that is not newer than the pass, and nothing exactly when there is none |
| TimerTurns.TurnsAreSweep | src/timer/timer.cc:156-201 | as long as the callbacks of the sweep delete their events or put them off into the future, the turns from the head are exactly the sweep, so they end |
| TimerTurns.TamePassEnds | src/timer/timer.cc:133-203 | with such callbacks a pass ends and is the specified pass |
| TimerTurns.RestlessNeverEnds | src/timer/timer.cc:187-197 | once an event that always returns 0 or less, not NOMORE, is the next to fire, the pass never comes to its end |
| TimerTurns.PassEndsExactly | src/timer/timer.cc:133-203 | with callbacks that always return the same, as the program's do, a pass ends exactly when every event that it sweeps over is deleted or put off into the future by its callback, and does not delete itself when put off |
| TimerTurns.PassEndsIfDueLast | src/timer/timer.cc:133-203 | if moreover nobody deletes events that return 0 or less and no periodic callback deletes itself, a pass ends exactly when no event of the list that is due (without its seconds if the clock has gone back) returns 0 or less |
| TimerTurns.ZeroTickNeverEnds | timer_util.cc:29-48 | a concrete list, one due event of `tick(0)`, whose pass never ends |
| Timers.TimerList.CreateTimeEvent | src/timer/timer.cc:53-77 | the new node is at the head with the next id and a deadline that totals now plus the delay, and the list is the specified one |
| Timers.TimerList.DelTime | src/timer/timer.cc:208-237 | exactly the node with the id is unlinked, its finalizer runs, the order of the rest stays; OK exactly when it was there |
| Timers.TimerList.SearchNearestTime | src/timer/timer.cc:94-127 | returns the wait for an event that no other precedes, 1000 for an empty list |
| Timers.TimerList.ResetSeconds | src/timer/timer.cc:142-148 | after a clock that went back every event loses its seconds and keeps the rest |
| Timers.TimerList.CorrectSkew | src/timer/timer.cc:142-150 | seconds are reset exactly when the clock is behind the last pass, and the time is noted |
| Timers.TimerList.FireEvent | src/timer/timer.cc:175-193 | the callback's own changes of the list, then the new deadline, positive or not, or the deletion, are the specified firing; it stops short exactly when the event to be put off has been deleted by its callback |
| Timers.TimerList.RunDue | src/timer/timer.cc:152-202 | the loop that restarts at the head goes exactly through the turns of the pass, for every pass that ends or is broken off, and keeps the books |
| Timers.TimerList.ProcessTimeEvent | src/timer/timer.cc:133-203 | the pass over the linked list, skew correction included, goes through the history of the pass, leaves its last state and returns the number of events fired |
| Poll.RoundTrip | include/lib.h:136-148 | unpacking returns the id always, the descriptor exactly when the id is not negative or the descriptor is -1 |
| Poll.Poll.WaitEvent | src/socket/socket_co.cc:48-66 | slot 0 is overwritten, the counter goes up, an unregistered descriptor is registered with its packed pair |
| Poll.Poll.Forget | src/socket/socket_co.cc:68-72 | the descriptor is no longer registered; the counter stays |
| Poll.Dispatch | base.cc:75-87 | although waits in between overwrite slot 0, exactly the coroutines that registered the reported descriptors are resumed, in order; what is registered afterwards is determined |
| RuntimeBase.BaseStep | src/coroutine/coroutine.cc:51-74 | a step of any code keeps standings, switcher and channels in agreement, or resumes a coroutine that is not suspended, or puts off an event that its own callback has deleted; nothing else can go wrong |
| RuntimeBase.ResumeSane | src/coroutine/coroutine.cc:58-64 | a resume succeeds exactly if its coroutine is suspended, wherever it stands, and the coroutine goes on there |
| RuntimeCareful.AlarmsStep | src/coroutine/channel.cc:28-34 | in careful code whoever is suspended in sleep or in a channel call with a timeout keeps its timer in the list |
| RuntimeCareful.SocketsStep | src/socket/socket_co.cc:48-66 | whoever is suspended in `wait_event` has been counted in a living poll |
| RuntimeSteps.InvExpected | coroutine_util.cc:63-80 | under the discipline whoever is resumed by a peer, a timer, a report or by hand stands in the call that made the entry |
| RuntimeSteps.SleepersStep | src/coroutine/coroutine.cc:75-86 | each step keeps timers that wake and coroutines asleep in one-to-one correspondence, the firing timer excepted |
| RuntimeSteps.PollsStep | src/socket/socket_co.cc:48-72 | each step keeps registrations and coroutines in `wait_event` in one-to-one correspondence |
| RuntimeSteps.YieldsStep | coroutine_util.cc:56-80 | each step keeps the table of hand-yielded coroutines exact |
| RuntimeSteps.DispatchesStep | base.cc:77-87 | reported coroutines whose turn has not come are still suspended in `wait_event`, none twice |
| RuntimeSteps.OrdersStep | src/coroutine/channel.cc:23-81 | each step keeps calls of every channel in call order |
| RuntimeSteps.StepKeepsInv | src/coroutine/coroutine.cc:58-86 | no enabled step of a disciplined program resumes a coroutine that is not suspended, and each keeps the books |
| RuntimeRuns.OnlyTwoFailures | src/coroutine/coroutine.cc:51-74 | a run of any code, timed waits and stray wake-ups included, fails in two ways only, by a bad resume or by putting off an event that its own callback has deleted |
| RuntimeRuns.FreedOnlyBySelf | src/timer/timer.cc:176-189 | no run of any code in which no callback deletes the periodic event it belongs to fails in the second way |
| RuntimeRuns.CarefulNeverFrees | src/timer/timer.cc:176-189 | careful code fails by a bad resume or not at all |
| RuntimeRuns.FreedForGood | src/timer/timer.cc:176-189 | once a callback has deleted the periodic event it belongs to, no run of any code comes back to the pass |
| RuntimeRuns.DeletingTickBreaks | timer_util.cc:29-35 | a concrete run, a tick of 5 ms that deletes itself, that ends in the second failure |
| RuntimeRuns.PagesInRuns | src/coroutine/lib_coroutine.cc:159-166 | in every run of any code, up to the first failure if there is one, pages are given back exactly for ended coroutines and cids are unique |
| RuntimeRuns.NothingLostAtExit | base.cc:64-98 | in every run of careful code, timed channel waits included, when `event_wait` returns nobody is left in sleep, in `wait_event` or in a channel with a timeout |
| RuntimeRuns.NoFault | src/coroutine/coroutine.cc:58-64 | whole runs of disciplined code never resume an active or ended coroutine |
| RuntimeRuns.SingleWaker | coroutine_util.cc:56-80 | at every moment a coroutine is suspended exactly when an entry (timer, registration, queue slot, hand-yield) names it, and then exactly one does |
| RuntimeRuns.OneSocketWaitIsForever | base.cc:91-94 | once `event_num` is positive in the loop, no run of any code leaves the loop and the number never falls |
| RuntimeCalls.ChannelsInOrder | src/coroutine/channel.cc:23-81 | in every disciplined run of the whole runtime every channel has the capacity it was made with, pop i has returned the datum of push i, counted over the steps alone, no push has failed, and the numbers of pushes and pops determine what it holds |
| RuntimeCalls.CounterIsCalls | src/socket/socket_co.cc:48-66 | in every run of any code `event_num` is the number of calls of `wait_event` since the poll was last closed |
| RuntimeControl.ControlIs | src/coroutine/coroutine.cc:51-74 | in every run of any code, for each step: who goes on or is suspended, on top of whom, with which registers, and in which call |
| RuntimeControl.EntriesWake | coroutine_util.cc:70-79 | at every moment of a disciplined run, using an entry (timer, report, head of a queue, hand-yield) that names a coroutine makes it go on with the registers it was suspended with, and then no entry names it |
| RuntimeControl.ReportsReach | base.cc:74-87 | any descriptor that is waited for can be reported in the loop, and the one who waits is then next to go on |
| RuntimeTimes.WaitsLast | src/coroutine/coroutine.cc:79-86 | no timer wakes a coroutine in sleep, or in a channel wait with a timeout, before the time it asked for is over: from every state that disciplined code reaches, in all runs of careful code at times the clock allows |
| RuntimeTimes.SleepsOnTime | src/coroutine/coroutine.cc:79-86 | if no event is restless, some run wakes a sleeper exactly when that time is over, or at once if it is not positive |
| RuntimeTimes.TicksAreSpaced | timer_util.cc:29-69 | in all runs of careful code at times the clock allows a timer of PHP code first fires after its delay, then each time not before its period is over, and once at most if it is `after` |
| RuntimeTimes.TicksOnTime | timer_util.cc:36-69 | if no event is restless, some run fires the timer exactly when its delay is over, or at once if it is not positive |
| RuntimeTimes.TicksAgain | src/timer/timer.cc:187-189 | whatever disciplined code has done since it made a periodic timer: if no event is restless when its callback returns, some run fires it again exactly when its period is over from then |
| RuntimeLoop.ComesRound | base.cc:68-95 | wherever a disciplined run stands, if PHP code from then on only yields and returns, the event loop comes to fire any given timer; if no event in the list is restless, at a time the clock allows, exactly when it is due or at once if it is overdue |
| RuntimeLoop.SleeperCanWake | src/coroutine/coroutine.cc:79-86 | at every moment of a disciplined run whoever sleeps can be woken by its timer; if no event in the list is restless, at a time the clock allows |
| RuntimeExit.LeavesExactlyUncounted | base.cc:91-98 | inside the loop some disciplined run leaves it exactly when `event_num` is 0; when it is positive no run of any code does |
| RuntimeExit.LeavesExactlyUnwaited | base.cc:91-98 | the same read off the steps of the run: exactly when `wait_event` has not been called since the poll was last closed |
| RuntimeExit.SocketTraps | src/socket/socket_co.cc:64-66 | a concrete reachable state from which the loop cannot be left |
| RuntimeRestless.BlockedStep | src/timer/timer.cc:152-202 | once a restless event is ahead of all PHP code that could delete it, each disciplined step that the clock allows leaves it so |
| RuntimeRestless.FindsOpening | base.cc:68-95 | otherwise some disciplined run that the clock allows comes, with nobody woken on the way, to where such code runs or is about to, or no event is restless |
| RuntimeRestless.LeavesInTimeExactly | base.cc:68-98 | inside the loop some disciplined run that the clock allows leaves it exactly when `event_num` is 0 and no restless event is ahead of all PHP code that could delete it |
| RuntimeRestless.SleeperWakesExactly | src/coroutine/coroutine.cc:75-86 | at every moment of a disciplined run a sleeper can be woken by its timer at a time the clock allows exactly when no restless event is ahead of all PHP code that could delete it |
| RuntimeRestless.ZeroTickTraps | timer_util.cc:37-48 | a concrete reachable state, a `tick(0)` by main and then `event_wait`, from which the loop can be left, but not at times the clock allows |
| RuntimeTimeouts.ExactlyTimedWaitsBreak | src/coroutine/channel.cc:28-52 | from every reachable state a careful step keeps all disciplined continuations free of bad resumes exactly when it is not a channel wait with a timeout; if it is one, the coroutine that waited can be resumed while not suspended, and, if no event is restless, at times the clock allows |
| RuntimeTimeouts.TwiceIsDoomed | base.cc:68-95 | once a timer and a queue entry name the same waiter, the event loop comes round to the timer and the waiter then resumes itself; if no event is restless, at times the clock allows |
| RuntimeTimeouts.StaleConsumerIsDoomed | src/coroutine/channel.cc:72-79 | with the entry of a running coroutine left in the consumer queue, its pushes serve those before it and then resume itself |
| RuntimeTimeouts.StaleProducerIsDoomed | src/coroutine/channel.cc:42-53 | the same for a stale entry in the producer queue and pops |
| RuntimeTimeouts.LandingFails | src/coroutine/channel.cc:37-40 | a waiter that goes on unserved fails and leaves its queue entry behind |
| RuntimeTimeouts.TimedWaitSets | src/coroutine/channel.cc:28-35 | a channel call that must wait and has a timeout leaves the caller with its queue entry and a timer due when that time is over |
| RuntimeTimeouts.WaiterOnTime | src/coroutine/channel.cc:15-20 | from there, if no event is restless, some run wakes the waiter exactly when its timer is due, or at once if that is over |
| RuntimeTimeouts.TimedPopBreaks | src/coroutine/channel.cc:28-35 | a concrete reachable state and timed pop after which coroutine 1 can be resumed while not suspended, at times the clock allows |
| RuntimeViews.AlwaysViewed | src/timer/timer.cc:53-77 | in every run of any code the timers of the machine are a timer list with its books in order |
| RuntimeViews.PassPicks | src/timer/timer.cc:156-173 | at times the clock allows a pass of the machine fires exactly the event that the scan from the head finds, and ends exactly when the scan finds none |
| RuntimeViews.CallbackIsTurn | src/timer/timer.cc:175-197 | a callback of the machine that makes and deletes timers is one turn of the loop over the list, and fails exactly where the turn breaks the pass off |
| RuntimeViews.FinishAgrees | src/timer/timer.cc:187-193 | what the machine does with an event when its callback has returned is what the loop does with the node |
| RuntimeViews.ReportsAgree | base.cc:77-87 | the coroutines that the machine resumes for a batch of reports are those that the dispatch loop unpacks, in that order |
| RuntimeViews.WaitAgrees | src/socket/socket_co.cc:48-66 | a wait for a descriptor does the same to the machine's registrations and to the packed ones |
| DeferSpec.DeferDiscipline | src/coroutine/lib_coroutine.cc:89-105 | in any interleaving of coroutines that each run the loop behind their body: every callback of a coroutine has run when it ends, none runs twice, and callbacks of a task nest last in first out |
| DeferSpec.NothingForgotten | src/coroutine/lib_coroutine.cc:89-137 | in any interleaving, read off its actions alone: callback i is that of the i-th call of `defer`, what a task has deferred has been started or waits, and a coroutine that has ended has started as many callbacks as it made calls |
| DeferSpec.RunsInReverse | src/coroutine/lib_coroutine.cc:89-105 | wherever the others stand, a new coroutine that defers n callbacks and returns can end, having started exactly these, last first |
| DeferSpec.MainDefersInVain | src/coroutine/lib_coroutine.cc:129-137 | callbacks are run by `create_func` only, which main is not in, so what main defers never runs |
| DeferSpec.TraceIsRun | src/coroutine/lib_coroutine.cc:95-105 | the loop with all that happens during its callbacks is one of the interleavings, and at its end the coroutine has ended with no stack left |
| Defers.Tasks.Defer | src/coroutine/lib_coroutine.cc:129-137 | a new callback goes on top of the current task's stack, made if there was none; the other stacks stay |
| Defers.Tasks.RunDefers | src/coroutine/lib_coroutine.cc:89-105 | the loop ends for any finite behaviour of callbacks and others, and all that the task ever deferred has run |
| ThreadPool.NoLostWakeUp | src/thread/thread_pool.cc:8-25 | in every interleaving, while a worker sleeps queued tasks are at most pending notifications plus awake idle workers; a task is never stranded |
| ThreadPool.AcceptsOffers | include/thread_pool.h:43-50 | in every run the accepted tasks are all that were offered before the stop, in order, read off the steps alone; those taken followed by those queued |
| ThreadPool.Drained | src/thread/thread_pool.cc:17-21 | tasks leave in the order in which they were offered, none twice, no worker leaves before the queue is empty; after all joins exactly the tasks offered before the stop have run if there was a worker, or nothing was offered |
| ThreadPool.NothingAccepted | include/thread_pool.h:43-50 | nothing is accepted after stop |
| ThreadPool.ShutdownProgress | src/thread/thread_pool.cc:30-40 | after notify_all every step but a rejected enqueue lowers the measure |
| ThreadPool.SomeoneCanGo | src/thread/thread_pool.cc:36-38 | until all workers have left, some worker can take a step |
| ThreadPool.ShutdownEnds | src/thread/thread_pool.cc:30-40 | a shutdown takes at most as many steps as the measure says |
| ThreadPools.Monitor.Enqueue | include/thread_pool.h:43-51 | accepted exactly if not stopped, and then the task is last in the queue with one more notification to come |
| ThreadPools.Monitor.Check | src/thread/thread_pool.cc:11-22 | one pass through the mutex sleeps, leaves or takes the first task as specified |
| ThreadPools.Monitor.NotifyAll | src/thread/thread_pool.cc:35-35 | wakes every sleeper and changes nobody else |
| ThreadPools.Monitor.Execute | src/thread/thread_pool.cc:8-25 | any interleaving of the threads does to the object what the transition system says |
| SpinLock.SpinsIs | src/automic/spinlock.c:20-20 | the shifted variable is 2^j up to 2^31 and 0 from then on |
| SpinLock.BackoffEnds | src/automic/spinlock.c:20-20 | the backoff loop ends exactly when spin <= 2^31 |
| SpinLock.Round | src/automic/spinlock.c:12-33 | for every 32-bit `spin`: attempt a comes after 2^a - 1 pauses until the variable runs over; a round without success makes 1 + ceil(log2 spin) attempts and from spin - 1 to below 2 spin pauses |
| SpinLock.MutualExclusion | src/automic/spinlock.c:12-16 | at most one process holds the lock in every interleaving, exactly when no process stores 0 |
| SpinLock.CanBeTaken | src/automic/spinlock.c:12-33 | in every interleaving, with nobody storing 0, a process that does not hold the lock can come to hold it by its own steps, once the holder, if any, unlocks it |

## Left out

- Boost assembly under thirdparty/: a machine context is an abstract one-shot transfer of control.
- Zend glue (parameter parsing, reference counts, call frames): only the five executor registers and the ownership of pages are kept.
- Socket calls and their retry loops, server, stream hook, logging, shared memory, processes and signals.
- epoll itself: any registered descriptors may be reported, each once.
- The clock is an input; during one firing pass of the timer list it stands still.
- RuntimeRuns.SingleWaker: does not cover channel waits with a timeout, for which it is false (`ExactlyTimedWaitsBreak` gives the exact condition), nor two waiters on one descriptor, deletion of a sleep timer by the user, or a periodic callback that deletes itself.
- RuntimeRuns.NoFault: same conditions as SingleWaker.
- RuntimeRuns.NothingLostAtExit: careful code only, see above.
- Runtime.Step: the event loop's outer loop and the table of hand-yielded coroutines are steps on values, not a method, because control leaves and re-enters them from other stacks; what update in place there could break by aliasing is modelled in Poll.dfy, Timers.dfy and Coroutines.dfy.
- Runtime.Step: a pointer to a coroutine is its cid, so that a new coroutine allocated at the address of an ended one is not mistaken for it.
- Runtime.Timely: lets epoll_wait return after any time; that it waits just until the nearest deadline is in `TimerSpec.NearestWait`.
- RuntimeTimeouts.ExactlyTimedWaitsBreak: that the bad resume comes at times the clock allows is stated for lists without restless events only.
- Blocking calls from main (yield, sleep, a channel wait), which use a null current coroutine, an `event_wait` called from a coroutine, and a nested `event_wait`.
- Destruction of channels, and of coroutines that are suspended when the program ends.
- TimerSpec.PassIsExact: is about the sweep, which with callbacks that always return the same is the pass the program runs exactly when that ends (`PassEndsExactly`, `TamePassEnds`); of passes that go on for ever nothing but that is stated.
- TimerTurns.PassEndsExactly: callbacks that return different values at different times are left out, because the program has none; their passes are covered by `ProcessTimeEvent`, if they end.
- Timers.TimerList.ProcessTimeEvent: passes that never end are left out; one that a self-deleting callback breaks off is followed up to the write to the freed node.
- The object that holds a PHP callback is freed while the callback runs if the callback deletes its own timer, also one that fires once; only the write to the timer's node is modelled.
- Timers.TimerList.RunCallback: callbacks change timers through creation and deletion; a callback that itself runs the event loop, and a finalizer that changes the list, are not modelled.
- Coroutines.Switcher.End: PHP code is taken to unwind to the page its coroutine was started on.
- Units of sleep and timeout and fractions of a millisecond.
- Failure of memory allocation, exhaustion of stacks, and cids from 2^31 on.
- What a task of the pool does, including exceptions: it ends or it does not.
